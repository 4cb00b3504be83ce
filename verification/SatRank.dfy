// Why the search ends: the trail lengths at the decision levels, read as the digits of a
// number, move in one direction with every decision and every learnt clause.
module SatRank {
  function Pow(b: nat, d: nat): nat {
    if d == 0 then 1 else b * Pow(b, d - 1)
  }

  // The cuts are the trail lengths at the ends of the levels; a level not yet opened has
  // the largest digit.
  function Rank(cuts: seq<nat>, n: nat, d: nat): nat {
    if d == 0 then 0
    else if cuts == [] then (n + 1) * Pow(n + 2, d - 1) + Rank([], n, d - 1)
    else (if cuts[0] <= n then n - cuts[0] else 0) * Pow(n + 2, d - 1) + Rank(cuts[1..], n, d - 1)
  }

  lemma {:induction false} RankBound(cuts: seq<nat>, n: nat, d: nat)
    ensures Rank(cuts, n, d) < Pow(n + 2, d)
  {
    if d > 0 {
      var p := Pow(n + 2, d - 1);
      if cuts == [] {
        RankBound([], n, d - 1);
        assert (n + 1) * p + p == (n + 2) * p;
      } else {
        RankBound(cuts[1..], n, d - 1);
        var digit := if cuts[0] <= n then n - cuts[0] else 0;
        assert digit * p <= n * p by { Monotone(digit, n, p); }
        assert n * p + p <= (n + 2) * p;
      }
    }
  }

  lemma Monotone(a: nat, b: nat, p: nat)
    requires a <= b
    ensures a * p <= b * p
  {
    assert b * p == a * p + (b - a) * p;
  }

  // One more in a digit outweighs all digits after it.
  lemma Digit(a: nat, b: nat, p: nat)
    requires a < b
    ensures a * p + p <= b * p
  {
    Monotone(a + 1, b, p);
    assert (a + 1) * p == a * p + p;
  }

  // A longer trail at level i, whatever happens above it, lowers the rank.
  lemma {:induction false} RankDecreases(c: seq<nat>, e: seq<nat>, n: nat, d: nat, i: nat)
    requires i < d && i <= |c| && i < |e| && c[..i] == e[..i] && e[i] <= n
    requires i < |c| ==> c[i] < e[i]
    ensures Rank(e, n, d) < Rank(c, n, d)
  {
    var p := Pow(n + 2, d - 1);
    if i == 0 {
      RankBound(e[1..], n, d - 1);
      Digit(n - e[0], if c == [] then n + 1 else if c[0] <= n then n - c[0] else 0, p);
    } else {
      assert c[0] == c[..i][0] == e[..i][0] == e[0];
      assert c[1..][..i - 1] == c[..i][1..];
      assert e[1..][..i - 1] == e[..i][1..];
      RankDecreases(c[1..], e[1..], n, d - 1, i - 1);
    }
  }

}
