/** The version parser for Vault Transit ciphertexts, `vault:v<n>:<payload>`. */
module KeyVersion {
  import opened Common

  const MAX_INT: nat := 0x7FFF_FFFF_FFFF_FFFF
  const TWO_64: nat := 0x1_0000_0000_0000_0000
  // (2^64 - 1) / 10 + 1, the guard of the 64-bit decimal parser.
  const CUTOFF: nat := 1844674407370955162
  const PREFIX: string := "vault:v"

  predicate IsDigit(c: char) { '0' <= c <= '9' }

  predicate AllDigits(s: string) { forall i | 0 <= i < |s| :: IsDigit(s[i]) }

  function DigitOf(c: char): nat
    requires IsDigit(c)
  {
    c as int - '0' as int
  }

  /** The mathematical value of a decimal digit string (leading zeros allowed). */
  function Value(ds: string): nat
    requires AllDigits(ds)
  {
    if ds == "" then 0 else 10 * Value(ds[..|ds| - 1]) + DigitOf(ds[|ds| - 1])
  }

  /** Canonical decimal notation. */
  function Decimal(n: nat): string
  {
    var last := [('0' as int + n % 10) as char];
    if n < 10 then last else Decimal(n / 10) + last
  }

  lemma {:induction false} DecimalValue(n: nat)
    ensures Decimal(n) != "" && AllDigits(Decimal(n)) && Value(Decimal(n)) == n
  {
    var s := Decimal(n);
    if n < 10 {
      assert s[..0] == "";
    } else {
      DecimalValue(n / 10);
      assert s[..|s| - 1] == Decimal(n / 10);
    }
  }

  lemma DecimalInjective(m: nat, n: nat)
    requires Decimal(m) == Decimal(n)
    ensures m == n
  {
    DecimalValue(m);
    DecimalValue(n);
  }

  // --- strconv.Atoi on a digit string, in 64-bit machine arithmetic --------------------------

  function Wrap64(x: nat): nat { x % TWO_64 }

  /** The unguarded loop `n = n*10 + d` used for fewer than 19 digits. */
  function FastFold(ds: string): nat
    requires AllDigits(ds)
  {
    if ds == "" then 0 else Wrap64(Wrap64(10 * FastFold(ds[..|ds| - 1])) + DigitOf(ds[|ds| - 1]))
  }

  /** One guarded digit, in machine arithmetic. */
  function PushDigit(n: nat, d: nat): Option<nat>
  {
    if n >= CUTOFF then None else
      var m := Wrap64(10 * n);
      var n1 := Wrap64(m + d);
      if n1 < m then None else Some(n1)
  }

  /** The guarded unsigned loop used for longer strings; None is the range error. */
  function ParseUint(ds: string): Option<nat>
    requires AllDigits(ds)
  {
    if ds == "" then Some(0) else
      match ParseUint(ds[..|ds| - 1])
      case None => None
      case Some(n) => PushDigit(n, DigitOf(ds[|ds| - 1]))
  }

  function Atoi(ds: string): Option<nat>
    requires AllDigits(ds)
  {
    if |ds| < 19 then Some(FastFold(ds)) else
      match ParseUint(ds)
      case None => None
      case Some(u) => if u > MAX_INT then None else Some(u)
  }

  function Pow10(n: nat): nat { if n == 0 then 1 else 10 * Pow10(n - 1) }

  lemma {:induction false} ValueBound(ds: string)
    requires AllDigits(ds)
    ensures Value(ds) < Pow10(|ds|)
  {
    if ds != "" { ValueBound(ds[..|ds| - 1]); }
  }

  lemma {:induction false} Pow10Monotone(m: nat, n: nat)
    requires m <= n
    ensures Pow10(m) <= Pow10(n)
  {
    if m < n { Pow10Monotone(m, n - 1); }
  }

  lemma Pow10Of18()
    ensures Pow10(18) == 1_000_000_000_000_000_000
  {
    assert Pow10(6) == 1_000_000;
    assert Pow10(12) == 1_000_000_000_000;
  }

  lemma ShortValueFits(ds: string)
    requires AllDigits(ds) && |ds| < 19
    ensures Value(ds) < 1_000_000_000_000_000_000
  {
    ValueBound(ds);
    Pow10Monotone(|ds|, 18);
    Pow10Of18();
  }

  lemma WrapDigit(n: nat, d: nat)
    requires 10 * n + d < 1_000_000_000_000_000_000
    ensures Wrap64(Wrap64(10 * n) + d) == 10 * n + d
  {
  }

  /** Under 19 digits the unguarded fold never wraps. */
  lemma {:induction false} FastFoldNeverWraps(ds: string)
    requires AllDigits(ds) && |ds| < 19
    ensures FastFold(ds) == Value(ds)
  {
    if ds != "" {
      FastFoldNeverWraps(ds[..|ds| - 1]);
      ShortValueFits(ds);
      WrapDigit(Value(ds[..|ds| - 1]), DigitOf(ds[|ds| - 1]));
    }
  }

  lemma PushDigitExact(n: nat, d: nat)
    requires n < TWO_64 && d < 10
    ensures PushDigit(n, d) == if 10 * n + d < TWO_64 then Some(10 * n + d) else None
  {
  }

  /** The guarded fold is exact: it computes the value, or reports that it needs more than 64 bits. */
  lemma {:induction false} ParseUintExact(ds: string)
    requires AllDigits(ds)
    ensures ParseUint(ds) == if Value(ds) < TWO_64 then Some(Value(ds)) else None
  {
    if ds != "" {
      var n := Value(ds[..|ds| - 1]);
      ParseUintExact(ds[..|ds| - 1]);
      if n < TWO_64 { PushDigitExact(n, DigitOf(ds[|ds| - 1])); }
    }
  }

  lemma AtoiExact(ds: string)
    requires AllDigits(ds)
    ensures Atoi(ds) == if Value(ds) <= MAX_INT then Some(Value(ds)) else None
  {
    if |ds| < 19 { FastFoldNeverWraps(ds); ShortValueFits(ds); } else { ParseUintExact(ds); }
  }

  // --- The parser ----------------------------------------------------------------------------

  /** Length of the longest prefix made of digits: what `\d+` matches. */
  function DigitRun(s: string): (n: nat)
    ensures n <= |s| && AllDigits(s[..n])
    ensures n < |s| ==> !IsDigit(s[n])
  {
    if s == "" || !IsDigit(s[0]) then 0 else
      var n := 1 + DigitRun(s[1..]);
      assert s[..n] == [s[0]] + s[1..][..n - 1];
      n
  }

  function GetKeyVersion(ciphertext: string): Option<nat>
  {
    if !(PREFIX <= ciphertext) then None else
      var rest := ciphertext[|PREFIX|..];
      var n := DigitRun(rest);
      if n == 0 || n == |rest| || rest[n] != ':' then None else Atoi(rest[..n])
  }

  function Ciphertext(digits: string, payload: string): string
  {
    PREFIX + digits + ":" + payload
  }

  lemma {:induction false} DigitRunOfConcat(ds: string, tail: string)
    requires AllDigits(ds) && tail != "" && !IsDigit(tail[0])
    ensures DigitRun(ds + tail) == |ds|
  {
    if ds == "" {
      assert ds + tail == tail;
    } else {
      DigitRunOfConcat(ds[1..], tail);
      assert (ds + tail)[1..] == ds[1..] + tail;
    }
  }

  /** On a string of the right shape the parser returns the digits' value, or fails if it exceeds an int. */
  lemma ParsesShape(ds: string, payload: string)
    requires ds != "" && AllDigits(ds)
    ensures GetKeyVersion(Ciphertext(ds, payload))
         == if Value(ds) <= MAX_INT then Some(Value(ds)) else None
  {
    var c := Ciphertext(ds, payload);
    assert c == PREFIX + (ds + (":" + payload));
    assert c[|PREFIX|..] == ds + (":" + payload);
    DigitRunOfConcat(ds, ":" + payload);
    assert (ds + (":" + payload))[..|ds|] == ds;
    AtoiExact(ds);
  }

  /** Parsing undoes printing, for every representable version and every payload. */
  lemma ParseOfPrint(n: nat, payload: string)
    requires n <= MAX_INT
    ensures GetKeyVersion(Ciphertext(Decimal(n), payload)) == Some(n)
  {
    DecimalValue(n);
    ParsesShape(Decimal(n), payload);
  }

  ghost predicate HasShape(c: string, version: nat, ds: string, payload: string)
  {
    ds != "" && AllDigits(ds) && c == Ciphertext(ds, payload) && Value(ds) == version <= MAX_INT
  }

  /** The parser accepts exactly the strings `vault:v<digits>:<anything>` whose digits fit an int. */
  lemma AcceptsExactly(c: string, version: nat)
    ensures GetKeyVersion(c) == Some(version) <==> exists ds, payload :: HasShape(c, version, ds, payload)
  {
    if GetKeyVersion(c) == Some(version) {
      var rest := c[|PREFIX|..];
      var n := DigitRun(rest);
      AtoiExact(rest[..n]);
      assert c == PREFIX + rest;
      assert rest == rest[..n] + ":" + rest[n + 1..];
      assert HasShape(c, version, rest[..n], rest[n + 1..]);
    }
    forall ds, payload | HasShape(c, version, ds, payload)
      ensures GetKeyVersion(c) == Some(version)
    {
      ParsesShape(ds, payload);
    }
  }

  /** GetKeyVersionInfo: the version, and whether it is below the required minimum. */
  datatype KeyVersionInfo = KeyVersionInfo(version: nat, needsRewrap: bool)

  function GetKeyVersionInfo(ciphertext: string, minVersion: int): Option<KeyVersionInfo>
  {
    match GetKeyVersion(ciphertext)
    case None => None
    case Some(v) => Some(KeyVersionInfo(v, v < minVersion))
  }
}
