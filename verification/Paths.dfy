/** Slash-separated paths, as `path/filepath` splits and joins them for clean directories. */
module Paths {
  /** A single path component. */
  predicate PlainName(n: string) { n != "" && '/' !in n }

  /** A directory written without a trailing slash (so not the root). */
  predicate CleanDir(d: string) { d != "" && d[|d| - 1] != '/' }

  function Join(dir: string, name: string): string { dir + "/" + name }

  /** Index of the last slash, or -1. */
  function LastSlash(p: string): (i: int)
    ensures -1 <= i < |p|
  {
    if p == "" then -1
    else if p[|p| - 1] == '/' then |p| - 1
    else LastSlash(p[..|p| - 1])
  }

  lemma {:induction false} LastSlashIs(p: string)
    ensures LastSlash(p) >= 0 ==> p[LastSlash(p)] == '/'
    ensures forall j | LastSlash(p) < j < |p| :: p[j] != '/'
  {
    if p != "" && p[|p| - 1] != '/' { LastSlashIs(p[..|p| - 1]); }
  }

  function Base(p: string): string { p[LastSlash(p) + 1..] }

  function Dir(p: string): string
  {
    var i := LastSlash(p);
    if i < 0 then "." else if i == 0 then "/" else p[..i]
  }

  lemma BaseOfJoin(d: string, n: string)
    requires PlainName(n)
    ensures Base(Join(d, n)) == n
  {
    var p := Join(d, n);
    LastSlashIs(p);
    assert p[|d|] == '/';
    assert forall j | |d| < j < |p| :: p[j] == n[j - |d| - 1];
    assert LastSlash(p) == |d|;
  }

  lemma SplitOfJoin(d: string, n: string)
    requires CleanDir(d) && PlainName(n)
    ensures Base(Join(d, n)) == n && Dir(Join(d, n)) == d
  {
    var p := Join(d, n);
    var i := LastSlash(p);
    LastSlashIs(p);
    assert p[|d|] == '/';
    assert forall j | |d| < j < |p| :: p[j] == n[j - |d| - 1];
    assert i == |d|;
  }

  lemma JoinInjective(d: string, n: string, d': string, n': string)
    requires CleanDir(d) && PlainName(n) && CleanDir(d') && PlainName(n')
    requires Join(d, n) == Join(d', n')
    ensures d == d' && n == n'
  {
    SplitOfJoin(d, n);
    SplitOfJoin(d', n');
  }

  /** A name without a directory is in the current one ... */
  lemma SplitOfPlain(n: string)
    requires PlainName(n)
    ensures Base(n) == n && Dir(n) == "."
  {
    LastSlashIs(n);
    assert LastSlash(n) == -1;
  }

  /** ... and one right below the root in the root. */
  lemma SplitOfTop(n: string)
    requires PlainName(n)
    ensures Base("/" + n) == n && Dir("/" + n) == "/"
  {
    var p := "/" + n;
    LastSlashIs(p);
    assert p[0] == '/';
    assert forall j | 0 < j < |p| :: p[j] == n[j - 1];
    assert LastSlash(p) == 0 && p[1..] == n;
  }
}
