/** Small shared vocabulary: optional values, suffixes of strings, powers and bounds. */
module Common {

  datatype Option<+T> = None | Some(value: T)

  function Min(a: int, b: int): int { if a <= b then a else b }

  function Max(a: int, b: int): int { if a >= b then a else b }

  function Pow2(n: nat): nat
  {
    if n == 0 then 1 else 2 * Pow2(n - 1)
  }

  /** `strings.HasSuffix`. */
  predicate HasSuffix(s: string, suffix: string)
  {
    |suffix| <= |s| && s[|s| - |suffix|..] == suffix
  }

  /** `strings.TrimSuffix`: the string without the suffix, or unchanged when it does not end in it. */
  function TrimSuffix(s: string, suffix: string): string
  {
    if HasSuffix(s, suffix) then s[..|s| - |suffix|] else s
  }

  lemma SuffixOfConcat(s: string, suffix: string)
    ensures HasSuffix(s + suffix, suffix)
    ensures TrimSuffix(s + suffix, suffix) == s
  {
    assert (s + suffix)[|s|..] == suffix;
    assert (s + suffix)[..|s|] == s;
  }

  /** A string ends in a suffix exactly if it is something followed by it, and otherwise nothing is trimmed. */
  lemma SuffixExactly(s: string, suffix: string)
    ensures HasSuffix(s, suffix) <==> exists t :: s == t + suffix
    ensures !HasSuffix(s, suffix) ==> TrimSuffix(s, suffix) == s
  {
    if HasSuffix(s, suffix) {
      assert s == s[..|s| - |suffix|] + suffix;
    }
  }

  predicate Distinct<T(==)>(xs: seq<T>)
  {
    forall i, j | 0 <= i < j < |xs| :: xs[i] != xs[j]
  }
}
