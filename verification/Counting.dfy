// Sizes of finite sets of numbers.
module Counting {
  lemma {:induction false} AtMost(s: set<nat>, n: nat)
    requires forall x :: x in s ==> x < n
    ensures |s| <= n
  {
    if n == 0 {
      assert s == {};
    } else {
      AtMost(s - {n - 1}, n - 1);
    }
  }

  function Members(c: seq<nat>): set<nat> {
    set x | x in c
  }

  lemma {:induction false} DistinctSize(c: seq<nat>)
    requires forall i, j :: 0 <= i < j < |c| ==> c[i] != c[j]
    ensures |Members(c)| == |c|
  {
    if c != [] {
      DistinctSize(c[1..]);
      assert c == [c[0]] + c[1..];
      assert Members(c) == {c[0]} + Members(c[1..]);
    }
  }

  // Distinct numbers below n: at most n of them.
  lemma DistinctBelow(c: seq<nat>, n: nat)
    requires (forall i, j :: 0 <= i < j < |c| ==> c[i] != c[j]) && forall i :: 0 <= i < |c| ==> c[i] < n
    ensures |c| <= n
  {
    DistinctSize(c);
    AtMost(Members(c), n);
  }
}
