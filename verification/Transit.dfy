/**
 The two services outside the program, as parameters: Vault's Transit engine and the file cipher.
 The laws below are what the program relies on; theorems that need one name it.
 */
module Transit {
  import opened Common
  import opened KeyVersion

  datatype DataKey = DataKey(plaintext: string, ciphertext: string)

  /**
   What a ciphertext unwraps to, its re-encryption under a given latest version, and the data key
   handed out for the n-th request (None is a failed request).
   */
  datatype Vault = Vault(
    unwrap: string -> Option<string>,
    rewrap: (nat, string) -> Option<string>,
    generate: nat -> Option<DataKey>)

  /** Rewrapping changes how a data key is wrapped, never which key it is. */
  ghost predicate KeepsKeys(v: Vault)
  {
    forall latest: nat, c: string ::
      v.rewrap(latest, c).Some? ==> v.unwrap(v.rewrap(latest, c).value) == v.unwrap(c)
  }

  /** Vault re-encrypts under its newest key version and says so in the ciphertext. */
  ghost predicate IssuesLatest(v: Vault)
  {
    forall latest: nat, c: string ::
      v.rewrap(latest, c).Some? ==> GetKeyVersion(v.rewrap(latest, c).value) == Some(latest)
  }

  /** A generated key comes with a ciphertext that unwraps to it. */
  ghost predicate WrapsItsKeys(v: Vault)
  {
    forall n: nat :: v.generate(n).Some? ==>
      v.unwrap(v.generate(n).value.ciphertext) == Some(v.generate(n).value.plaintext)
  }

  /** Encryption under a key and a random salt, decryption, and the checksum of a file. */
  datatype Cipher = Cipher(
    enc: (string, nat, string) -> string,
    dec: (string, string) -> Option<string>,
    hash: string -> string)

  ghost predicate Decrypts(c: Cipher)
  {
    forall k: string, salt: nat, m: string :: c.dec(k, c.enc(k, salt, m)) == Some(m)
  }

  /** A toy engine: the payload of a ciphertext is the data key itself. */
  function Payload(c: string): string
  {
    var rest := if PREFIX <= c then c[|PREFIX|..] else c;
    var n := DigitRun(rest);
    if n < |rest| then rest[n + 1..] else ""
  }

  function ToyVault(): Vault
  {
    Vault(
      c => Some(Payload(c)),
      (latest: nat, c: string) =>
        if latest <= MAX_INT then Some(Ciphertext(Decimal(latest), Payload(c))) else None,
      (n: nat) => Some(DataKey(Decimal(n), Ciphertext("1", Decimal(n)))))
  }

  function ToyCipher(): Cipher
  {
    Cipher((k: string, salt: nat, m: string) => m, (k: string, b: string) => Some(b), m => m)
  }

  lemma PayloadOfCiphertext(digits: string, payload: string)
    requires AllDigits(digits)
    ensures Payload(Ciphertext(digits, payload)) == payload
  {
    assert Ciphertext(digits, payload)[|PREFIX|..] == digits + (":" + payload);
    DigitRunOfConcat(digits, ":" + payload);
    assert (digits + (":" + payload))[|digits| + 1..] == payload;
  }

  /** The laws are consistent: there are services that satisfy all of them at once. */
  lemma LawsAreConsistent()
    ensures KeepsKeys(ToyVault()) && IssuesLatest(ToyVault()) && WrapsItsKeys(ToyVault()) && Decrypts(ToyCipher())
  {
    var v := ToyVault();
    forall latest: nat, c: string | v.rewrap(latest, c).Some?
      ensures v.unwrap(v.rewrap(latest, c).value) == v.unwrap(c)
      ensures GetKeyVersion(v.rewrap(latest, c).value) == Some(latest)
    {
      DecimalValue(latest);
      PayloadOfCiphertext(Decimal(latest), Payload(c));
      ParseOfPrint(latest, Payload(c));
    }
    forall n: nat ensures v.unwrap(v.generate(n).value.ciphertext) == Some(v.generate(n).value.plaintext) {
      PayloadOfCiphertext("1", Decimal(n));
    }
  }
}
