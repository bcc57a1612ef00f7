/** The optional value used by every other module. */
module Basics {

  datatype Option<+T> = None | Some(value: T)

  /** Distinct naturals below `n` are at most `n` many. */
  lemma {:induction false} DistinctBelow(s: seq<nat>, n: nat)
    requires forall i :: 0 <= i < |s| ==> s[i] < n
    requires forall i, j :: 0 <= i < j < |s| ==> s[i] != s[j]
    ensures |s| <= n
  {
    if s == [] {
    } else if k :| 0 <= k < |s| && s[k] == n - 1 {
      DistinctBelow(s[..k] + s[k + 1..], n - 1);
    } else {
      assert s[0] < n;
      DistinctBelow(s, n - 1);
    }
  }
}
