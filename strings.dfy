/** Character search on strings, as `std::string::find` does it. */
module Strings {
  import opened Options

  /** `c` occurs nowhere in `s[..n]`. */
  predicate AbsentBefore(s: string, c: char, n: nat)
    requires n <= |s|
  {
    forall k | 0 <= k < n :: s[k] != c
  }

  /** The index of the first occurrence of `c` in `s`, or None where
      `std::string::find` would answer `npos`. */
  function Find(s: string, c: char): (r: Option<nat>)
    ensures r.None? ==> AbsentBefore(s, c, |s|)
    ensures r.Some? ==> r.value < |s| && s[r.value] == c && AbsentBefore(s, c, r.value)
    decreases |s|
  {
    if s == [] then None
    else if s[0] == c then Some(0)
    else
      match Find(s[1..], c)
      case None => None
      case Some(i) => Some(i + 1)
  }

  /** A character that does not occur before a given position is found there. */
  lemma FindAfterPrefix(a: string, c: char, b: string)
    requires AbsentBefore(a, c, |a|)
    ensures Find(a + [c] + b, c) == Some(|a|)
  {
    var s := a + [c] + b;
    assert s[|a|] == c;
    assert forall k | 0 <= k < |a| :: s[k] == a[k];
  }
}
