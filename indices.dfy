/** Lists of last-axis indices: the index set a perturbation touches. */
module Indices {

  /** No index occurs twice. */
  predicate Distinct(s: seq<nat>)
  {
    forall i, j :: 0 <= i < j < |s| ==> s[i] != s[j]
  }

  /** Every index addresses one of `n` positions. */
  predicate Below(s: seq<nat>, n: nat)
  {
    forall i :: 0 <= i < |s| ==> s[i] < n
  }

  /** `s` is an arrangement of 0, 1, ..., n-1: n distinct indices below n
      (PermutationCovers shows that each index below n then occurs). */
  predicate IsPermutation(s: seq<nat>, n: nat)
  {
    && |s| == n
    && Distinct(s)
    && Below(s, n)
  }

  /** The indices 0, 1, ..., n-1 in increasing order (a full slice). */
  function Range(n: nat): (s: seq<nat>)
    ensures |s| == n
    ensures forall i :: 0 <= i < n ==> s[i] == i
  {
    seq(n, (i: int) requires 0 <= i < n => i as nat)
  }

  /** A full slice names every position once. */
  lemma RangeIsPermutation(n: nat)
    ensures IsPermutation(Range(n), n)
  {
  }

  /** The set of indices a list names. */
  function Elements(s: seq<nat>): set<nat>
  {
    set v | v in s
  }

  /** A list without repetitions names exactly as many indices as it is long. */
  lemma {:induction false} DistinctCount(s: seq<nat>)
    requires Distinct(s)
    ensures |Elements(s)| == |s|
  {
    if s != [] {
      var n := |s| - 1;
      var init := s[..n];
      assert Distinct(init);
      DistinctCount(init);
      assert s == init + [s[n]];
      assert s[n] !in init;
      assert Elements(s) == Elements(init) + {s[n]};
    }
  }

  /** Pigeonhole: n distinct indices below n name every index below n. */
  lemma PermutationCovers(s: seq<nat>, n: nat)
    requires IsPermutation(s, n)
    ensures Elements(s) == Elements(Range(n))
  {
    var all := Elements(Range(n));
    RangeIsPermutation(n);
    DistinctCount(s);
    DistinctCount(Range(n));
    forall v | v in Elements(s) ensures v in all {
      assert Range(n)[v] == v;
    }
    var missing := all - Elements(s);
    assert all == Elements(s) + missing;
    assert |all| == |Elements(s)| + |missing|;
    assert missing == {};
  }
}
