/** Counting the values of a sequence of naturals. */
module Counting {

  ghost predicate Distinct(s: seq<nat>) {
    forall i, j :: 0 <= i < j < |s| ==> s[i] != s[j]
  }

  ghost function Interval(low: nat, n: nat): (s: set<nat>)
    ensures |s| == n && forall v: nat :: v in s <==> low <= v < low + n
  {
    if n == 0 then {} else Interval(low, n - 1) + {low + n - 1}
  }

  lemma {:induction false} DistinctCount(s: seq<nat>, e: set<nat>)
    requires Distinct(s) && forall v :: v in s <==> v in e
    ensures |s| == |e|
  {
    if s == [] {
      assert e == {};
    } else {
      var r := s[1..];
      forall v ensures v in r <==> v in e - {s[0]} {
        if v in r { assert v != s[0]; }
        if v in e - {s[0]} { assert v in s; }
      }
      DistinctCount(r, e - {s[0]});
    }
  }

  lemma {:induction false} SubsetSize(a: set<nat>, b: set<nat>)
    requires a <= b
    ensures |a| <= |b|
    decreases |a|
  {
    if a != {} {
      var x :| x in a;
      SubsetSize(a - {x}, b - {x});
    }
  }

  /** More than n naturals below n repeat one of them. */
  lemma Pigeonhole(s: seq<nat>, n: nat) returns (i: nat, j: nat)
    requires |s| > n && forall k :: 0 <= k < |s| ==> s[k] < n
    ensures i < j < |s| && s[i] == s[j]
  {
    if Distinct(s) {
      var e := set k | 0 <= k < |s| :: s[k];
      DistinctCount(s, e);
      SubsetSize(e, Interval(0, n));
      assert false;
    }
    i, j :| 0 <= i < j < |s| && s[i] == s[j];
  }
}
