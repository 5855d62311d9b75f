/** There is an encoding of item lists as text that loses nothing, so what is assumed of JSON can be met. */
module Codecs {
  import opened Common
  import opened KeyVersion
  import opened Items
  import opened Persistence

  /** A text preceded by its length. */
  function Framed(s: string): string { Decimal(|s|) + (":" + s) }

  lemma DigitsSplit(d: string, rest: string, d': string, rest': string)
    requires AllDigits(d) && AllDigits(d') && rest != "" && rest[0] == ':' && rest' != "" && rest'[0] == ':'
    requires d + rest == d' + rest'
    ensures d == d' && rest == rest'
  {
    DigitRunOfConcat(d, rest);
    DigitRunOfConcat(d', rest');
    assert (d + rest)[..|d|] == d && (d' + rest')[..|d'|] == d';
    assert (d + rest)[|d|..] == rest && (d' + rest')[|d'|..] == rest';
  }

  lemma BodySplits(s: string, u: string, s': string, u': string)
    requires |s| == |s'| && ":" + s + u == ":" + s' + u'
    ensures s == s' && u == u'
  {
    var x, x' := ":" + s + u, ":" + s' + u';
    assert x[1..|s| + 1] == s && x'[1..|s| + 1] == s';
    assert x[|s| + 1..] == u && x'[|s| + 1..] == u';
  }

  lemma FramedSplits(s: string, u: string, s': string, u': string)
    requires Framed(s) + u == Framed(s') + u'
    ensures s == s' && u == u'
  {
    DecimalValue(|s|);
    DecimalValue(|s'|);
    assert Framed(s) + u == Decimal(|s|) + (":" + s + u);
    assert Framed(s') + u' == Decimal(|s'|) + (":" + s' + u');
    DigitsSplit(Decimal(|s|), ":" + s + u, Decimal(|s'|), ":" + s' + u');
    DecimalInjective(|s|, |s'|);
    BodySplits(s, u, s', u');
  }

  function AllFramed(ss: seq<string>): string
  {
    if ss == [] then "" else Framed(ss[0]) + AllFramed(ss[1..])
  }

  lemma {:induction false} AllFramedInjective(ss: seq<string>, ss': seq<string>)
    requires AllFramed(ss) == AllFramed(ss')
    ensures ss == ss'
  {
    if ss != [] && ss' != [] {
      FramedSplits(ss[0], AllFramed(ss[1..]), ss'[0], AllFramed(ss'[1..]));
      AllFramedInjective(ss[1..], ss'[1..]);
      assert ss == [ss[0]] + ss[1..] && ss' == [ss'[0]] + ss'[1..];
    }
  }

  function IntText(n: int): string
  {
    if n < 0 then "-" + Decimal(-n) else Decimal(n)
  }

  lemma Unsigned(n: nat)
    ensures Decimal(n) != "" && Decimal(n)[0] != '-'
  {
    DecimalValue(n);
  }

  lemma IntTextInjective(m: int, n: int)
    requires IntText(m) == IntText(n)
    ensures m == n
  {
    if m >= 0 { Unsigned(m); }
    if n >= 0 { Unsigned(n); }
    if m < 0 && n < 0 {
      assert IntText(m)[1..] == Decimal(-m) && IntText(n)[1..] == Decimal(-n);
      DecimalInjective(-m, -n);
    } else if m >= 0 && n >= 0 {
      DecimalInjective(m, n);
    }
  }

  function OperationText(op: Operation): string
  {
    match op case Encrypt => "e" case Decrypt => "d" case Other => "o"
  }

  function StatusText(s: Status): string
  {
    match s case Pending => "p" case Processing => "r" case Completed => "c" case Failed => "f" case Dlq => "q"
  }

  function Texts(it: ItemRec): seq<string>
  {
    [it.id, OperationText(it.operation), it.source, it.dest, it.keyPath, it.checksumPath, StatusText(it.status),
     IntText(it.attempts), IntText(it.lastAttempt), IntText(it.nextRetry), it.error, IntText(it.createdAt),
     IntText(it.completedAt), IntText(it.fileSize), it.checksum]
  }

  lemma TextsInjective(a: ItemRec, b: ItemRec)
    requires Texts(a) == Texts(b)
    ensures a == b
  {
    var x, y := Texts(a), Texts(b);
    assert x[0] == y[0] && x[1] == y[1] && x[2] == y[2] && x[3] == y[3] && x[4] == y[4] && x[5] == y[5] && x[6] == y[6];
    assert x[7] == y[7] && x[8] == y[8] && x[9] == y[9] && x[10] == y[10] && x[11] == y[11] && x[12] == y[12];
    assert x[13] == y[13] && x[14] == y[14];
    IntTextInjective(a.attempts, b.attempts);
    IntTextInjective(a.lastAttempt, b.lastAttempt);
    IntTextInjective(a.nextRetry, b.nextRetry);
    IntTextInjective(a.createdAt, b.createdAt);
    IntTextInjective(a.completedAt, b.completedAt);
    IntTextInjective(a.fileSize, b.fileSize);
  }

  function AllTexts(xs: seq<ItemRec>): seq<string>
  {
    if xs == [] then [] else Texts(xs[0]) + AllTexts(xs[1..])
  }

  lemma {:induction false} AllTextsInjective(xs: seq<ItemRec>, ys: seq<ItemRec>)
    requires AllTexts(xs) == AllTexts(ys)
    ensures xs == ys
  {
    if xs != [] && ys != [] {
      assert AllTexts(xs)[..15] == Texts(xs[0]) && AllTexts(ys)[..15] == Texts(ys[0]);
      assert AllTexts(xs)[15..] == AllTexts(xs[1..]) && AllTexts(ys)[15..] == AllTexts(ys[1..]);
      TextsInjective(xs[0], ys[0]);
      AllTextsInjective(xs[1..], ys[1..]);
      assert xs == [xs[0]] + xs[1..] && ys == [ys[0]] + ys[1..];
    }
  }

  function Marshal(xs: seq<ItemRec>): string { AllFramed(AllTexts(xs)) }

  lemma MarshalInjective(xs: seq<ItemRec>, ys: seq<ItemRec>)
    requires Marshal(xs) == Marshal(ys)
    ensures xs == ys
  {
    AllFramedInjective(AllTexts(xs), AllTexts(ys));
    AllTextsInjective(xs, ys);
  }

  ghost predicate Stands(xs: seq<ItemRec>, t: string) { Marshal(xs) == t }

  ghost function Unmarshal(t: string): Option<seq<ItemRec>>
  {
    if exists xs :: Stands(xs, t) then var xs :| Stands(xs, t); Some(xs) else None
  }

  /** The assumption on the encoding can be met. */
  lemma LosslessIsPossible()
    ensures exists c :: Lossless(c)
  {
    var c := Codec(xs => Marshal(xs), t => Unmarshal(t));
    forall xs: seq<ItemRec> ensures c.unmarshal(c.marshal(xs)) == Some(xs) {
      assert Stands(xs, Marshal(xs));
      MarshalInjective(xs, Unmarshal(Marshal(xs)).value);
    }
    assert Lossless(c);
  }
}
