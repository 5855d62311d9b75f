/**
 Which files become work items, how their output paths are named, and the two ways they are found:
 a creation event and the scan at start-up.
 */
module Watcher {
  import opened Common
  import opened Paths
  import opened Items
  import opened Queue

  // --- Names ---------------------------------------------------------------------------------

  function EncryptedPath(destDir: string, file: string): string { Join(destDir, Base(file)) + ".enc" }

  function EncryptionKeyPath(destDir: string, file: string): string
  {
    Join(Dir(Join(destDir, Base(file))), Base(file) + ".key")
  }

  /** Where the encryption strategy saves the checksum of `file`. */
  function ChecksumPath(encrypted: string, file: string): string
  {
    Join(Dir(encrypted), Base(file) + ".sha256")
  }

  function DecryptedPath(destDir: string, file: string): string
  {
    TrimSuffix(Join(destDir, Base(file)), ".enc")
  }

  function DecryptionKeyPath(file: string): string { TrimSuffix(file, ".enc") + ".key" }

  /** Where the decryption strategy looks for the checksum: the last four characters are cut off unseen. */
  function VerifyPath(file: string): string
  {
    var name := Base(file);
    Join(Dir(file), (if |name| >= 4 then name[..|name| - 4] else "") + ".sha256")
  }

  /** The checksum file that is disposed of after a successful decryption. */
  function DisposedChecksum(file: string): string { TrimSuffix(file, ".enc") + ".sha256" }

  lemma ExtendedName(n: string, ending: string)
    requires PlainName(n) && '/' !in ending
    ensures PlainName(n + ending)
  {
  }

  lemma EncryptionNames(srcDir: string, destDir: string, n: string)
    requires CleanDir(srcDir) && CleanDir(destDir) && PlainName(n)
    ensures var file := Join(srcDir, n);
              && EncryptedPath(destDir, file) == Join(destDir, n + ".enc")
              && EncryptionKeyPath(destDir, file) == Join(destDir, n + ".key")
              && ChecksumPath(EncryptedPath(destDir, file), file) == Join(destDir, n + ".sha256")
  {
    SplitOfJoin(srcDir, n);
    SplitOfJoin(destDir, n);
    assert Join(destDir, n) + ".enc" == Join(destDir, n + ".enc");
    ExtendedName(n, ".enc");
    SplitOfJoin(destDir, n + ".enc");
  }

  lemma ExtendJoin(d: string, n: string, ending: string)
    ensures Join(d, n) + ending == Join(d, n + ending)
  {
  }

  lemma NameRestored(encDir: string, plainDir: string, n: string)
    requires CleanDir(encDir) && PlainName(n)
    ensures DecryptedPath(plainDir, Join(encDir, n + ".enc")) == Join(plainDir, n)
  {
    ExtendedName(n, ".enc");
    SplitOfJoin(encDir, n + ".enc");
    ExtendJoin(plainDir, n, ".enc");
    SuffixOfConcat(Join(plainDir, n), ".enc");
  }

  lemma CompanionFound(encDir: string, n: string, ending: string)
    ensures TrimSuffix(Join(encDir, n + ".enc"), ".enc") + ending == Join(encDir, n + ending)
  {
    ExtendJoin(encDir, n, ".enc");
    SuffixOfConcat(Join(encDir, n), ".enc");
    ExtendJoin(encDir, n, ending);
  }

  lemma ChecksumFound(encDir: string, n: string)
    requires CleanDir(encDir) && PlainName(n)
    ensures VerifyPath(Join(encDir, n + ".enc")) == Join(encDir, n + ".sha256")
  {
    ExtendedName(n, ".enc");
    SplitOfJoin(encDir, n + ".enc");
    assert (n + ".enc")[..|n|] == n;
  }

  /**
   Feeding the encrypted output through the decryption naming restores the file name, finds the key
   the encryption wrote, and agrees with it on the checksum file, for verifying and for disposal.
   */
  lemma NamesRoundTrip(srcDir: string, destDir: string, plainDir: string, n: string)
    requires CleanDir(srcDir) && CleanDir(destDir) && PlainName(n)
    ensures var file := Join(srcDir, n);
            var enc := EncryptedPath(destDir, file);
              && DecryptedPath(plainDir, enc) == Join(plainDir, n)
              && DecryptionKeyPath(enc) == EncryptionKeyPath(destDir, file)
              && VerifyPath(enc) == DisposedChecksum(enc) == ChecksumPath(enc, file)
  {
    EncryptionNames(srcDir, destDir, n);
    NameRestored(destDir, plainDir, n);
    CompanionFound(destDir, n, ".key");
    CompanionFound(destDir, n, ".sha256");
    ChecksumFound(destDir, n);
  }

  /** The three outputs of encrypting a file. */
  function Outputs(destDir: string, n: string): seq<string>
  {
    [Join(destDir, n + ".enc"), Join(destDir, n + ".key"), Join(destDir, n + ".sha256")]
  }

  const ENDINGS: seq<string> := [".enc", ".key", ".sha256"]

  lemma EndingsDecide(m: string, i: nat, n: string, j: nat)
    requires i < 3 && j < 3 && m + ENDINGS[i] == n + ENDINGS[j]
    ensures i == j && m == n
  {
    var x := m + ENDINGS[i];
    assert x[|x| - 1] == ENDINGS[i][|ENDINGS[i]| - 1] == ENDINGS[j][|ENDINGS[j]| - 1];
    assert i == j;
    assert x[..|m|] == m && x[..|n|] == n;
  }

  /** Output paths are shared by no two source names, and not within one name either. */
  lemma OutputsDisjoint(destDir: string, m: string, i: nat, n: string, j: nat)
    requires CleanDir(destDir) && PlainName(m) && PlainName(n) && i < 3 && j < 3
    ensures Outputs(destDir, m)[i] == Outputs(destDir, n)[j] <==> m == n && i == j
  {
    if Outputs(destDir, m)[i] == Outputs(destDir, n)[j] {
      ExtendedName(m, ENDINGS[i]);
      ExtendedName(n, ENDINGS[j]);
      JoinInjective(destDir, m + ENDINGS[i], destDir, n + ENDINGS[j]);
      EndingsDecide(m, i, n, j);
    }
  }

  // --- Which files become items --------------------------------------------------------------

  datatype Dirs = Dirs(encryptSource: string, encryptDest: string, decryptSource: string, decryptDest: string)

  /** What the watcher learns about a file: whether its key was seen, whether it became stable. */
  datatype Sighting = Sighting(path: string, isFile: bool, size: nat, keySeen: bool, stable: bool, id: string, now: int)

  function ItemFor(d: Dirs, op: Operation, s: Sighting): ItemRec
  {
    var destDir := if op.Encrypt? then d.encryptDest else d.decryptDest;
    var it := NewItem(s.id, op, s.path, Join(destDir, Base(s.path)), s.now).(fileSize := s.size);
    if op.Decrypt? then it.(keyPath := DecryptionKeyPath(s.path), dest := DecryptedPath(destDir, s.path))
    else it.(dest := EncryptedPath(destDir, s.path), keyPath := EncryptionKeyPath(destDir, s.path))
  }

  /** handleFileCreated: the directory of the file decides the operation. */
  function OnCreated(d: Dirs, s: Sighting): Option<ItemRec>
  {
    if !s.isFile then None
    else if Dir(s.path) == d.encryptSource then
      if HasSuffix(s.path, ".enc") || HasSuffix(s.path, ".key") || !s.stable then None
      else Some(ItemFor(d, Encrypt, s))
    else if Dir(s.path) == d.decryptSource then
      if !HasSuffix(s.path, ".enc") || !s.keySeen || !s.stable then None
      else Some(ItemFor(d, Decrypt, s))
    else None
  }

  /** scanDirectory on one entry of the directory of an operation. */
  function OnScanned(d: Dirs, op: Operation, s: Sighting): Option<ItemRec>
  {
    if !s.isFile then None
    else if op.Encrypt?
         && (HasSuffix(s.path, ".enc") || HasSuffix(s.path, ".key") || HasSuffix(s.path, ".sha256")) then None
    else if op.Decrypt? && (!HasSuffix(s.path, ".enc") || !s.keySeen) then None
    else if !s.stable then None
    else Some(ItemFor(d, op, s))
  }

  /**
   The scan and the creation event agree on a file of the scanned directory, except exactly when the
   event would encrypt a checksum file, which only the scan leaves alone.
   */
  lemma ScanAgreesWithEvent(d: Dirs, op: Operation, s: Sighting)
    requires op.Encrypt? || op.Decrypt?
    requires Dir(s.path) == if op.Encrypt? then d.encryptSource else d.decryptSource
    requires d.encryptSource != d.decryptSource
    ensures OnScanned(d, op, s) == OnCreated(d, s)
       <==> !(op.Encrypt? && s.isFile && s.stable && HasSuffix(s.path, ".sha256"))
  {
    assert HasSuffix(s.path, ".sha256") ==> s.path[|s.path| - 1] == ".sha256"[6];
    assert HasSuffix(s.path, ".enc") ==> s.path[|s.path| - 1] == ".enc"[3];
    assert HasSuffix(s.path, ".key") ==> s.path[|s.path| - 1] == ".key"[3];
  }

  function EnqueueFound(q: QueueState, it: Option<ItemRec>): QueueState
  {
    if it.None? then q else EnqueueSpec(q, it.value).q
  }

  function EnqueueScanned(q: QueueState, d: Dirs, op: Operation, entries: seq<Sighting>): QueueState
  {
    if entries == [] then q else
      EnqueueFound(EnqueueScanned(q, d, op, entries[..|entries| - 1]), OnScanned(d, op, entries[|entries| - 1]))
  }

  // --- What is queued, without the functions above -------------------------------------------

  /** The scan wants it: a stable file that is no output, or, for decryption, encrypted and with its key. */
  predicate Wanted(op: Operation, s: Sighting)
  {
    && s.isFile && s.stable
    && if op.Encrypt? then !HasSuffix(s.path, ".enc") && !HasSuffix(s.path, ".key") && !HasSuffix(s.path, ".sha256")
       else HasSuffix(s.path, ".enc") && s.keySeen
  }

  /** The new item for encrypting the file named `n`, field by field. */
  lemma EncryptionItem(d: Dirs, s: Sighting, dir: string, n: string)
    requires CleanDir(dir) && CleanDir(d.encryptDest) && PlainName(n) && s.path == Join(dir, n)
    ensures ItemFor(d, Encrypt, s)
         == ItemRec(s.id, Encrypt, Join(dir, n), Join(d.encryptDest, n + ".enc"), Join(d.encryptDest, n + ".key"), "",
                    Pending, 0, 0, 0, "", s.now, 0, s.size, "")
  {
    EncryptionNames(dir, d.encryptDest, n);
  }

  lemma DecryptionItem(d: Dirs, s: Sighting, dir: string, n: string)
    requires CleanDir(dir) && PlainName(n) && s.path == Join(dir, n + ".enc")
    ensures ItemFor(d, Decrypt, s)
         == ItemRec(s.id, Decrypt, Join(dir, n + ".enc"), Join(d.decryptDest, n), Join(dir, n + ".key"), "",
                    Pending, 0, 0, 0, "", s.now, 0, s.size, "")
  {
    NameRestored(dir, d.decryptDest, n);
    CompanionFound(dir, n, ".key");
  }

  /** The items for the wanted files, in order, but none whose ID is among `ids` or was given before. */
  function Chosen(d: Dirs, op: Operation, ids: set<string>, entries: seq<Sighting>): seq<ItemRec>
  {
    if entries == [] then [] else
      var before, s := Chosen(d, op, ids, entries[..|entries| - 1]), entries[|entries| - 1];
      if Wanted(op, s) && s.id !in ids && (forall it | it in before :: it.id != s.id) then before + [ItemFor(d, op, s)]
      else before
  }

  /** A scan puts exactly those items at the end of the queue, in the order of the entries. */
  lemma {:induction false} ScanQueues(q: QueueState, d: Dirs, op: Operation, entries: seq<Sighting>)
    requires op.Encrypt? || op.Decrypt?
    ensures var z := EnqueueScanned(q, d, op, entries);
            var found := Chosen(d, op, q.index.Keys, entries);
              && ItemsOf(z) == ItemsOf(q) + found
              && z.index.Keys == q.index.Keys + (set it | it in found :: it.id)
  {
    if entries != [] {
      var init, s := entries[..|entries| - 1], entries[|entries| - 1];
      ScanQueues(q, d, op, init);
      ScanQueuesOne(q, EnqueueScanned(q, d, op, init), d, op, s, Chosen(d, op, q.index.Keys, init));
    }
  }

  lemma ScanQueuesOne(q: QueueState, y: QueueState, d: Dirs, op: Operation, s: Sighting, before: seq<ItemRec>)
    requires (op.Encrypt? || op.Decrypt?) && ItemsOf(y) == ItemsOf(q) + before
    requires y.index.Keys == q.index.Keys + (set it | it in before :: it.id)
    ensures var z := EnqueueFound(y, OnScanned(d, op, s));
            var found := if Wanted(op, s) && s.id !in q.index && (forall it | it in before :: it.id != s.id)
                       then before + [ItemFor(d, op, s)] else before;
              && ItemsOf(z) == ItemsOf(q) + found
              && z.index.Keys == q.index.Keys + (set it | it in found :: it.id)
  {
    var it := ItemFor(d, op, s);
    if Wanted(op, s) && s.id !in q.index && (forall it | it in before :: it.id != s.id) {
      assert it.id !in y.index;
      assert ItemsOf(Push(y, it)) == ItemsOf(y) + [it];
      assert (set x | x in before + [it] :: x.id) == (set x | x in before :: x.id) + {it.id};
    }
  }

  /** A creation event makes an item exactly for such files of the two directories; it lets checksum files pass. */
  lemma CreationQueues(d: Dirs, s: Sighting)
    ensures var op := if Dir(s.path) == d.encryptSource then Encrypt else Decrypt;
            var wanted := Wanted(op, s) || (op.Encrypt? && s.isFile && s.stable && HasSuffix(s.path, ".sha256"));
              OnCreated(d, s)
              == if wanted && Dir(s.path) in {d.encryptSource, d.decryptSource} then Some(ItemFor(d, op, s)) else None
  {
    assert HasSuffix(s.path, ".sha256") ==> s.path[|s.path| - 1] == ".sha256"[6];
    assert HasSuffix(s.path, ".enc") ==> s.path[|s.path| - 1] == ".enc"[3];
    assert HasSuffix(s.path, ".key") ==> s.path[|s.path| - 1] == ".key"[3];
  }

  class Watcher {
    const dirs: Dirs
    const queue: Queue

    constructor (dirs: Dirs, queue: Queue)
      ensures this.dirs == dirs && this.queue == queue
    {
      this.dirs, this.queue := dirs, queue;
    }

    /** Builds the item field by field. */
    method MakeItem(op: Operation, s: Sighting) returns (item: Item)
      requires op.Encrypt? || op.Decrypt?
      ensures fresh(item) && item.View() == ItemFor(dirs, op, s)
    {
      var destDir := if op.Encrypt? then dirs.encryptDest else dirs.decryptDest;
      var destPath := Join(destDir, Base(s.path));
      item := new Item(NewItem(s.id, op, s.path, destPath, s.now));
      item.fileSize := s.size;
      if op.Decrypt? {
        item.keyPath := TrimSuffix(s.path, ".enc") + ".key";
        item.dest := TrimSuffix(destPath, ".enc");
      } else {
        item.dest := destPath + ".enc";
        item.keyPath := Join(Dir(destPath), Base(s.path) + ".key");
      }
    }

    method EnqueueFile(op: Operation, s: Sighting)
      requires op.Encrypt? || op.Decrypt?
      modifies queue
      ensures queue.State() == EnqueueSpec(old(queue.State()), ItemFor(dirs, op, s)).q
    {
      ghost var before := queue.State();
      var item := MakeItem(op, s);
      assert queue.State() == before;
      var _ := queue.Enqueue(item);
    }

    method HandleFileCreated(s: Sighting)
      modifies queue
      ensures queue.State() == EnqueueFound(old(queue.State()), OnCreated(dirs, s))
    {
      if !s.isFile { return; }
      var dir := Dir(s.path);
      var op: Operation;
      if dir == dirs.encryptSource {
        if HasSuffix(s.path, ".enc") || HasSuffix(s.path, ".key") { return; }
        op := Encrypt;
      } else if dir == dirs.decryptSource {
        if !HasSuffix(s.path, ".enc") { return; }
        if !s.keySeen { return; }
        op := Decrypt;
      } else {
        return;
      }
      if !s.stable { return; }
      EnqueueFile(op, s);
    }

    method ScanEntry(op: Operation, s: Sighting)
      requires op.Encrypt? || op.Decrypt?
      modifies queue
      ensures queue.State() == EnqueueFound(old(queue.State()), OnScanned(dirs, op, s))
    {
      if !s.isFile { return; }
      if op.Encrypt? {
        if HasSuffix(s.path, ".enc") || HasSuffix(s.path, ".key") || HasSuffix(s.path, ".sha256") { return; }
      } else {
        if !HasSuffix(s.path, ".enc") { return; }
        if !s.keySeen { return; }
      }
      if !s.stable { return; }
      EnqueueFile(op, s);
    }

    method ScanDirectory(op: Operation, entries: seq<Sighting>)
      requires op.Encrypt? || op.Decrypt?
      modifies queue
      ensures queue.State() == EnqueueScanned(old(queue.State()), dirs, op, entries)
    {
      var i := 0;
      while i < |entries|
        invariant i <= |entries|
        invariant queue.State() == EnqueueScanned(old(queue.State()), dirs, op, entries[..i])
      {
        ScanEntry(op, entries[i]);
        i := i + 1;
        assert entries[..i][..i - 1] == entries[..i - 1];
      }
      assert entries[..i] == entries;
    }
  }
}
