/** Envelope encryption of files, and the end-to-end statement about encrypting, rewrapping and decrypting. */
module Envelope {
  import opened Common
  import opened FileSystem
  import opened Transit
  import opened RewrapBatches

  /** How the file cipher ends: it works, or fails and leaves these bytes (or nothing new) at its output. */
  datatype CryptFault = Works | Fails(left: Option<string>)

  function LeaveBehind(w: World, p: string, left: Option<string>): World
  {
    match left case None => w case Some(b) => w.Set(p, b)
  }

  datatype Encrypted = Encrypted(world: World, ciphertext: Option<string>)

  /** EncryptFile: a fresh data key, then the source encrypted under it to `dst`. */
  function EncryptSpec(v: Vault, c: Cipher, w: World, src: string, dst: string,
                       request: nat, salt: nat, fault: CryptFault): Encrypted
  {
    match v.generate(request)
    case None => Encrypted(w, None)
    case Some(key) =>
      if fault.Fails? || src !in w.files then
        Encrypted(LeaveBehind(w, dst, if fault.Fails? then fault.left else None), None)
      else
        Encrypted(Written(w, dst, c.enc(key.plaintext, salt, w.files[src]), Fine).world, Some(key.ciphertext))
  }

  /** DecryptFile: unwrap the key file, then decrypt under the data key to `dst`. */
  function DecryptSpec(v: Vault, c: Cipher, w: World, src: string, keyPath: string, dst: string,
                       read: bool, unwrap: bool, fault: CryptFault): Outcome
  {
    if read || keyPath !in w.files || unwrap || v.unwrap(w.files[keyPath]).None? then Outcome(w, false) else
      var key := v.unwrap(w.files[keyPath]).value;
      if fault.Fails? || src !in w.files || c.dec(key, w.files[src]).None? then
        Outcome(LeaveBehind(w, dst, if fault.Fails? then fault.left else None), false)
      else
        Written(w, dst, c.dec(key, w.files[src]).value, Fine)
  }

  class Encryptor {
    const vault: Vault
    const cipher: Cipher

    constructor (v: Vault, c: Cipher)
      ensures vault == v && cipher == c
    {
      vault, cipher := v, c;
    }

    method EncryptFile(disk: Disk, src: string, dst: string, request: nat, salt: nat, fault: CryptFault)
      returns (ciphertext: Option<string>)
      modifies disk
      ensures Encrypted(disk.View(), ciphertext)
           == EncryptSpec(vault, cipher, old(disk.View()), src, dst, request, salt, fault)
    {
      ciphertext := None;
      var key := vault.generate(request);
      if key.None? { return; }
      if fault.Fails? {
        if fault.left.Some? { disk.Put(dst, fault.left.value); }
        return;
      }
      if src !in disk.files { return; }
      var _ := disk.WriteFile(dst, cipher.enc(key.value.plaintext, salt, disk.files[src]), Fine);
      ciphertext := Some(key.value.ciphertext);
    }
  }

  class Decryptor {
    const vault: Vault
    const cipher: Cipher

    constructor (v: Vault, c: Cipher)
      ensures vault == v && cipher == c
    {
      vault, cipher := v, c;
    }

    method DecryptFile(disk: Disk, src: string, keyPath: string, dst: string,
                       read: bool, unwrap: bool, fault: CryptFault)
      returns (ok: bool)
      modifies disk
      ensures Outcome(disk.View(), ok)
           == DecryptSpec(vault, cipher, old(disk.View()), src, keyPath, dst, read, unwrap, fault)
    {
      ok := false;
      if read || keyPath !in disk.files || unwrap { return; }
      var key := vault.unwrap(disk.files[keyPath]);
      if key.None? { return; }
      if fault.Fails? {
        if fault.left.Some? { disk.Put(dst, fault.left.value); }
        return;
      }
      if src !in disk.files { return; }
      var plain := cipher.dec(key.value, disk.files[src]);
      if plain.None? { return; }
      ok := disk.WriteFile(dst, plain.value, Fine);
    }
  }

  // --- What a pair of files on the disk stands for --------------------------------------------

  /** The bytes that the encrypted file at `enc` and the key file at `key` together stand for. */
  function Opened(v: Vault, c: Cipher, files: Files, enc: string, key: string): Option<string>
  {
    if enc !in files || key !in files || v.unwrap(files[key]).None? then None
    else c.dec(v.unwrap(files[key]).value, files[enc])
  }

  /** A successful encryption followed by saving its key gives a pair that stands for the source. */
  lemma EncryptSeals(v: Vault, c: Cipher, w: World, src: string, dst: string, keyPath: string,
                     request: nat, salt: nat, fault: CryptFault)
    requires WrapsItsKeys(v) && Decrypts(c) && dst != keyPath
    requires EncryptSpec(v, c, w, src, dst, request, salt, fault).ciphertext.Some?
    ensures var e := EncryptSpec(v, c, w, src, dst, request, salt, fault);
              && src in w.files
              && Opened(v, c, Written(e.world, keyPath, e.ciphertext.value, Fine).world.files, dst, keyPath)
                 == Some(w.files[src])
  {
    var key := v.generate(request).value;
    var body := c.enc(key.plaintext, salt, w.files[src]);
    var w1 := Written(w, dst, body, Fine).world;
    WrittenFiles(w, dst, body, Fine);
    WrittenFiles(w1, keyPath, key.ciphertext, Fine);
    assert c.dec(key.plaintext, body) == Some(w.files[src]);
  }

  /** DecryptFile without faults succeeds exactly on pairs that stand for something, and writes just that. */
  lemma DecryptOpens(v: Vault, c: Cipher, w: World, enc: string, keyPath: string, dst: string)
    ensures var d := DecryptSpec(v, c, w, enc, keyPath, dst, false, false, Works);
            var m := Opened(v, c, w.files, enc, keyPath);
              d.ok == m.Some? && d.world.files == if m.Some? then w.files[dst := m.value] else w.files
  {
    var m := Opened(v, c, w.files, enc, keyPath);
    if m.Some? { WrittenFiles(w, dst, m.value, Fine); }
  }

  /**
   Rewrapping never changes what a pair stands for: not by any finite history of batches, real or
   dry, cancelled, partly failing or killed at any step, with key rotations between and within them.
   */
  lemma RewrapsKeepPairs(v: Vault, c: Cipher, files: Files, bs: seq<Batch>, enc: string, key: string)
    requires KeepsKeys(v) && HasSuffix(enc, ".enc") && HasSuffix(key, ".key") && enc in files && key in files
    requires forall b | b in bs :: KeyFileList(b.o, b.keyFiles)
    ensures Opened(v, c, AfterBatches(v, files, bs), enc, key) == Opened(v, c, files, enc, key)
  {
    assert enc[|enc| - 1] == ".enc"[3];
    HistoryKeepsDataKey(v, files, bs, key);
    HistoryKeepsOthers(v, files, bs, enc);
  }

  /**
   End to end: encrypt a file and save its key; run any such history of rewrap batches; decrypt: the
   original bytes come back.
   */
  lemma EncryptRewrapDecrypt(v: Vault, c: Cipher, w: World, src: string, dst: string, keyPath: string,
                             request: nat, salt: nat, fault: CryptFault, bs: seq<Batch>, plain: string)
    requires WrapsItsKeys(v) && KeepsKeys(v) && Decrypts(c)
    requires HasSuffix(dst, ".enc") && HasSuffix(keyPath, ".key")
    requires forall b | b in bs :: KeyFileList(b.o, b.keyFiles)
    requires EncryptSpec(v, c, w, src, dst, request, salt, fault).ciphertext.Some?
    ensures var e := EncryptSpec(v, c, w, src, dst, request, salt, fault);
            var kept := AfterBatches(v, Written(e.world, keyPath, e.ciphertext.value, Fine).world.files, bs);
            var d := DecryptSpec(v, c, World(kept, []), dst, keyPath, plain, false, false, Works);
              d.ok && src in w.files && d.world.files == kept[plain := w.files[src]]
  {
    assert dst[|dst| - 1] == ".enc"[3];
    EncryptSeals(v, c, w, src, dst, keyPath, request, salt, fault);
    var e := EncryptSpec(v, c, w, src, dst, request, salt, fault);
    var files := Written(e.world, keyPath, e.ciphertext.value, Fine).world.files;
    RewrapsKeepPairs(v, c, files, bs, dst, keyPath);
    DecryptOpens(v, c, World(AfterBatches(v, files, bs), []), dst, keyPath, plain);
  }
}
