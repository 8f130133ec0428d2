/** String predicates used by the tag filter, the dispatcher and URL normalisation. */
module Text {

  /** Python's `s.startswith(prefix)`. */
  predicate StartsWith(s: string, prefix: string) {
    |prefix| <= |s| && s[..|prefix|] == prefix
  }

  /** Python's `sub in s` on strings: `sub` occurs at some position of `s`. */
  predicate Occurs(sub: string, s: string)
    decreases |s|
  {
    StartsWith(s, sub) || (|s| > 0 && Occurs(sub, s[1..]))
  }

  /** A string always occurs at the end of anything it is appended to. */
  lemma {:induction false} OccursAtEnd(x: string, t: string)
    ensures Occurs(t, x + t)
  {
    if |x| == 0 {
      assert x + t == t;
      assert (x + t)[..|t|] == t;
    } else {
      OccursAtEnd(x[1..], t);
      assert (x + t)[1..] == x[1..] + t;
    }
  }

  /** Only a string at least as long as `sub` can contain it. */
  lemma {:induction false} OccursLength(sub: string, s: string)
    requires Occurs(sub, s)
    ensures |sub| <= |s|
  {
    if !StartsWith(s, sub) {
      OccursLength(sub, s[1..]);
    }
  }

  /** Python's `s.rstrip('/')`: every trailing slash removed. */
  function RStripSlash(s: string): (r: string)
    ensures StartsWith(s, r)
    ensures r == [] || r[|r| - 1] != '/'
    ensures forall i :: |r| <= i < |s| ==> s[i] == '/'
  {
    if |s| > 0 && s[|s| - 1] == '/' then RStripSlash(s[..|s| - 1]) else s
  }
}
