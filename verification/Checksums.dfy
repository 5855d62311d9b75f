/** Recorded checksums: what the white space around them means, and when verification accepts one. */
module Checksums {
  import opened Common
  import opened Processor

  predicate IsWhite(ch: char) { ch in {' ', '\t', '\n', '\U{000B}', '\U{000C}', '\r'} }

  predicate AllWhite(s: string) { forall i | 0 <= i < |s| :: IsWhite(s[i]) }

  /** Neither the first nor the last character is white space. */
  predicate Bare(s: string) { s != "" ==> !IsWhite(s[0]) && !IsWhite(s[|s| - 1]) }

  /** The text is `h` with white space around it. */
  ghost predicate Records(s: string, h: string)
  {
    Bare(h) && exists a, b :: AllWhite(a) && AllWhite(b) && s == a + h + b
  }

  lemma SpaceIsWhite(ch: char)
    ensures IsSpace(ch) <==> IsWhite(ch)
  {
  }

  lemma RecordsItself(s: string)
    ensures Records(s, s) <==> Bare(s)
  {
    var none: string := [];
    assert AllWhite(none) && s == none + s + none;
  }

  lemma WhiteAround(s: string, h: string, ch: char)
    requires Records(s, h) && IsWhite(ch)
    ensures Records([ch] + s, h) && Records(s + [ch], h)
  {
    var a, b :| AllWhite(a) && AllWhite(b) && s == a + h + b;
    assert AllWhite([ch] + a) && [ch] + s == ([ch] + a) + h + b;
    assert AllWhite(b + [ch]) && s + [ch] == a + h + (b + [ch]);
  }

  lemma {:induction false} TrimmedIsRecorded(s: string)
    ensures Records(s, TrimSpace(s))
  {
    if s == "" {
      RecordsItself(s);
    } else {
      var first, last := s[0], s[|s| - 1];
      SpaceIsWhite(first);
      SpaceIsWhite(last);
      if IsSpace(first) {
        TrimmedIsRecorded(s[1..]);
        WhiteAround(s[1..], TrimSpace(s), first);
        assert s == [first] + s[1..];
      } else if IsSpace(last) {
        TrimmedIsRecorded(s[..|s| - 1]);
        WhiteAround(s[..|s| - 1], TrimSpace(s), last);
        assert s == s[..|s| - 1] + [last];
      } else {
        RecordsItself(s);
      }
    }
  }

  /** A text records one string only. */
  lemma RecordsOne(s: string, h: string, h': string)
    requires Records(s, h) && Records(s, h')
    ensures h == h'
  {
    var a, b :| AllWhite(a) && AllWhite(b) && s == a + h + b;
    var a', b' :| AllWhite(a') && AllWhite(b') && s == a' + h' + b';
    if h != "" { EndsAgree(a, h, b, a', h', b'); }
    if h' != "" { EndsAgree(a', h', b', a, h, b); }
  }

  lemma EndsAgree(a: string, h: string, b: string, a': string, h': string, b': string)
    requires AllWhite(a) && AllWhite(b) && AllWhite(a') && AllWhite(b') && Bare(h) && Bare(h') && h != ""
    requires a + h + b == a' + h' + b'
    ensures h == h'
  {
    var s := a + h + b;
    assert s[|a|] == h[0] && s[|a| + |h| - 1] == h[|h| - 1];
    assert forall i | 0 <= i < |a'| :: s[i] == a'[i];
    assert forall i | |a'| + |h'| <= i < |s| :: s[i] == b'[i - |a'| - |h'|];
    assert |a'| <= |a| && |a| + |h| <= |a'| + |h'|;
    assert s[|a'|] == h'[0] && s[|a'| + |h'| - 1] == h'[|h'| - 1];
    assert forall i | 0 <= i < |a| :: s[i] == a[i];
    assert forall i | |a| + |h| <= i < |s| :: s[i] == b[i - |a| - |h|];
    assert |a| == |a'| && |h| == |h'|;
    assert s[|a|..|a| + |h|] == h && s[|a'|..|a'| + |h'|] == h';
  }

  /** Trimming gives exactly the string that the text records. */
  lemma TrimExactly(s: string, h: string)
    ensures TrimSpace(s) == h <==> Records(s, h)
  {
    TrimmedIsRecorded(s);
    if Records(s, h) { RecordsOne(s, h, TrimSpace(s)); }
  }
}
