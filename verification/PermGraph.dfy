// The least graph that contains a given one and has a permutation as an automorphism.
module PermGraph {
  import opened Counting

  type Pair = (nat, nat)

  ghost predicate Permutation(perm: seq<nat>) {
    (forall i :: 0 <= i < |perm| ==> perm[i] < |perm|) && forall i, j :: 0 <= i < j < |perm| ==> perm[i] != perm[j]
  }

  predicate Inside(e: Pair, n: nat) {
    e.0 < n && e.1 < n
  }

  function Image(perm: seq<nat>, e: Pair): Pair
    requires Inside(e, |perm|)
  {
    (perm[e.0], perm[e.1])
  }

  // The k-th image of e.
  ghost function Power(perm: seq<nat>, e: Pair, k: nat): (r: Pair)
    requires Permutation(perm) && Inside(e, |perm|)
    ensures Inside(r, |perm|)
  {
    if k == 0 then e else Image(perm, Power(perm, e, k - 1))
  }

  // The edges lead to edges.
  ghost predicate Invariant(perm: seq<nat>, h: set<Pair>) {
    forall e :: e in h && Inside(e, |perm|) ==> Image(perm, e) in h
  }

  // ---- Orbits ----

  function Number(e: Pair, n: nat): nat { e.0 * n + e.1 }

  lemma NumberBelow(e: Pair, n: nat)
    requires Inside(e, n)
    ensures Number(e, n) < n * n
  {
    Times(n - 1 - e.0, n);
    assert n * n - Number(e, n) == (n - 1 - e.0) * n + n - e.1;
  }

  lemma Times(a: nat, b: nat)
    ensures a * b >= 0 && (a >= 1 ==> a * b >= b)
  {
    if a >= 1 { assert a * b == (a - 1) * b + b; }
  }

  lemma SameNumber(e: Pair, h: Pair, n: nat)
    requires Inside(e, n) && Inside(h, n) && Number(e, n) <= Number(h, n)
    ensures Number(e, n) == Number(h, n) ==> e == h
  {
    if e.0 < h.0 {
      Times(h.0 - e.0, n);
      assert Number(h, n) - Number(e, n) == (h.0 - e.0) * n + h.1 - e.1;
    }
    if h.0 < e.0 {
      Times(e.0 - h.0, n);
      assert Number(e, n) - Number(h, n) == (e.0 - h.0) * n + e.1 - h.1;
    }
  }

  // Two equal images, then an earlier one equals the first.
  lemma {:induction false} Backwards(perm: seq<nat>, e: Pair, i: nat, j: nat)
    requires Permutation(perm) && Inside(e, |perm|) && i <= j && Power(perm, e, i) == Power(perm, e, j)
    ensures Power(perm, e, j - i) == e
  {
    if i > 0 {
      var x, y := Power(perm, e, i - 1), Power(perm, e, j - 1);
      assert Image(perm, x) == Image(perm, y);
      assert x == y;
      Backwards(perm, e, i - 1, j - 1);
    }
  }

  // Every pair comes back.
  lemma Period(perm: seq<nat>, e: Pair) returns (t: nat)
    requires Permutation(perm) && Inside(e, |perm|)
    ensures t > 0 && Power(perm, e, t) == e
  {
    hide Number, Permutation;
    var n := |perm|;
    var m := n * n;
    var i, j := Collision(seq(m + 1, k requires 0 <= k => PowerNumber(perm, e, k)), m);
    SameNumber(Power(perm, e, i), Power(perm, e, j), n);
    Backwards(perm, e, i, j);
    t := j - i;
  }

  ghost function PowerNumber(perm: seq<nat>, e: Pair, k: nat): (r: nat)
    requires Permutation(perm) && Inside(e, |perm|)
    ensures r < |perm| * |perm|
  {
    NumberBelow(Power(perm, e, k), |perm|);
    Number(Power(perm, e, k), |perm|)
  }

  // More numbers than values: two are equal.
  lemma Collision(c: seq<nat>, m: nat) returns (i: nat, j: nat)
    requires |c| > m && forall k :: 0 <= k < |c| ==> c[k] < m
    ensures i < j < |c| && c[i] == c[j]
  {
    if forall i, j :: 0 <= i < j < |c| ==> c[i] != c[j] {
      DistinctBelow(c, m);
      assert false;
    }
    i, j :| 0 <= i < j < |c| && c[i] == c[j];
  }

  lemma {:induction false} PowerIn(perm: seq<nat>, h: set<Pair>, e: Pair, k: nat)
    requires Permutation(perm) && Invariant(perm, h) && e in h && Inside(e, |perm|)
    ensures Power(perm, e, k) in h
  {
    if k > 0 { PowerIn(perm, h, e, k - 1); }
  }

  // On an invariant edge set the permutation is an automorphism.
  lemma InvariantBoth(perm: seq<nat>, h: set<Pair>, e: Pair)
    requires Permutation(perm) && Invariant(perm, h) && Inside(e, |perm|)
    ensures e in h <==> Image(perm, e) in h
  {
    if Image(perm, e) in h {
      var t := Period(perm, e);
      FromImage(perm, e, t - 1);
      PowerIn(perm, h, Image(perm, e), t - 1);
    }
  }

  lemma {:induction false} FromImage(perm: seq<nat>, e: Pair, k: nat)
    requires Permutation(perm) && Inside(e, |perm|)
    ensures Power(perm, Image(perm, e), k) == Power(perm, e, k + 1)
  {
    if k > 0 { FromImage(perm, e, k - 1); }
  }

  // ---- The procedure ----

  ghost function Edges(g: array2<bool>): set<Pair>
    reads g
  {
    set i: nat, j: nat | i < g.Length0 && j < g.Length1 && g[i, j] :: (i, j)
  }

  // Every invariant set with the original edges contains these edges.
  ghost predicate Needed(perm: seq<nat>, orig: set<Pair>, h: set<Pair>) {
    forall s: set<Pair> :: orig <= s && Invariant(perm, s) ==> h <= s
  }

  // The images of the edges before position (i, j) are there, and so are those of new edges.
  ghost predicate Closing(perm: seq<nat>, orig: set<Pair>, h: set<Pair>, i: nat, j: nat) {
    forall e :: e in h && Inside(e, |perm|) && (e.0 < i || (e.0 == i && e.1 < j) || e !in orig) ==> Image(perm, e) in h
  }

  // perminvar: the rows grow while they are scanned.
  method PermInvar(g: array2<bool>, perm: seq<nat>)
    requires g.Length0 == g.Length1 == |perm| && Permutation(perm)
    modifies g
    ensures old(Edges(g)) <= Edges(g) && Invariant(perm, Edges(g)) && Needed(perm, old(Edges(g)), Edges(g))
  {
    hide Invariant, Permutation, Closing, Needed;
    var n := |perm|;
    ghost var orig := Edges(g);
    NothingClosed(perm, orig);
    for i := 0 to n
      invariant orig <= Edges(g) && Needed(perm, orig, Edges(g)) && Closing(perm, orig, Edges(g), i, 0)
    {
      for j := 0 to n
        invariant orig <= Edges(g) && Needed(perm, orig, Edges(g)) && Closing(perm, orig, Edges(g), i, j)
      {
        InRange(perm, i);
        InRange(perm, j);
        if g[i, j] && !g[perm[i], perm[j]] {
          AddOrbit(g, perm, i, j, orig);
        } else {
          ClosingNext(perm, orig, Edges(g), i, j);
        }
      }
      ClosingRow(perm, orig, Edges(g), i);
    }
    AllClosed(perm, orig, Edges(g));
  }

  lemma InRange(perm: seq<nat>, i: nat)
    requires Permutation(perm) && i < |perm|
    ensures perm[i] < |perm|
  {
  }

  lemma NothingClosed(perm: seq<nat>, orig: set<Pair>)
    ensures Needed(perm, orig, orig) && Closing(perm, orig, orig, 0, 0)
  {
  }

  lemma ClosingNext(perm: seq<nat>, orig: set<Pair>, h: set<Pair>, i: nat, j: nat)
    requires Closing(perm, orig, h, i, j) && i < |perm| && j < |perm| && ((i, j) in h ==> Image(perm, (i, j)) in h)
    ensures Closing(perm, orig, h, i, j + 1)
  {
  }

  lemma ClosingRow(perm: seq<nat>, orig: set<Pair>, h: set<Pair>, i: nat)
    requires Closing(perm, orig, h, i, |perm|)
    ensures Closing(perm, orig, h, i + 1, 0)
  {
  }

  lemma AllClosed(perm: seq<nat>, orig: set<Pair>, h: set<Pair>)
    requires Closing(perm, orig, h, |perm|, 0)
    ensures Invariant(perm, h)
  {
  }

  // The images of (i, j) up to the k-th but not the 0-th.
  ghost function Orbit(perm: seq<nat>, e: Pair, k: nat): set<Pair>
    requires Inside(e, |perm|) && Permutation(perm)
  {
    set m: nat | 1 <= m < k :: Power(perm, e, m)
  }

  // Walk along the orbit of (i, j) and add its pairs.
  method AddOrbit(g: array2<bool>, perm: seq<nat>, i: nat, j: nat, ghost orig: set<Pair>)
    requires g.Length0 == g.Length1 == |perm| && Permutation(perm) && i < |perm| && j < |perm| && g[i, j]
    requires Needed(perm, orig, Edges(g)) && Closing(perm, orig, Edges(g), i, j) && orig <= Edges(g)
    modifies g
    ensures orig <= Edges(g) && Needed(perm, orig, Edges(g)) && Closing(perm, orig, Edges(g), i, j + 1)
  {
    hide Invariant, Permutation, Needed, Closing;
    ghost var e, was := (i, j), Edges(g);
    ghost var t := Period(perm, e);
    InRange(perm, i);
    InRange(perm, j);
    var ii, jj := perm[i], perm[j];
    ghost var k := 1;
    OrbitStart(perm, e);
    while ii != i || jj != j
      invariant 1 <= k <= t && ii < |perm| && jj < |perm| && (ii, jj) == Power(perm, e, k)
      invariant Edges(g) == was + Orbit(perm, e, k)
      decreases t - k
    {
      OrbitNext(perm, e, k);
      ghost var h := Edges(g);
      g[ii, jj] := true;
      assert Edges(g) == h + {(ii, jj)};
      InRange(perm, ii);
      InRange(perm, jj);
      ii := perm[ii];
      jj := perm[jj];
      k := k + 1;
    }
    OrbitClosed(perm, orig, was, e, k);
  }

  lemma OrbitStart(perm: seq<nat>, e: Pair)
    requires Permutation(perm) && Inside(e, |perm|)
    ensures Orbit(perm, e, 1) == {} && Power(perm, e, 1) == Image(perm, e)
  {
    assert Power(perm, e, 0) == e;
  }

  lemma OrbitNext(perm: seq<nat>, e: Pair, k: nat)
    requires Permutation(perm) && Inside(e, |perm|) && k >= 1
    ensures Orbit(perm, e, k + 1) == Orbit(perm, e, k) + {Power(perm, e, k)}
    ensures Power(perm, e, k + 1) == Image(perm, Power(perm, e, k))
  {
  }

  // With the whole orbit of e every new edge has its image, and so has e.
  lemma OrbitClosed(perm: seq<nat>, orig: set<Pair>, was: set<Pair>, e: Pair, t: nat)
    requires Permutation(perm) && Inside(e, |perm|) && t >= 1 && Power(perm, e, t) == e && e in was && orig <= was
    requires Needed(perm, orig, was) && Closing(perm, orig, was, e.0, e.1)
    ensures var h := was + Orbit(perm, e, t); orig <= h && Needed(perm, orig, h) && Closing(perm, orig, h, e.0, e.1 + 1)
  {
    hide Power, Permutation;
    var h := was + Orbit(perm, e, t);
    forall s: set<Pair> | orig <= s && Invariant(perm, s) ensures h <= s {
      forall m: nat | 1 <= m < t ensures Power(perm, e, m) in s { PowerIn(perm, s, e, m); }
    }
    forall x | x in h && Inside(x, |perm|) && (x.0 < e.0 || (x.0 == e.0 && x.1 < e.1 + 1) || x !in orig)
      ensures Image(perm, x) in h
    {
      if x in Orbit(perm, e, t) {
        var m: nat :| 1 <= m < t && x == Power(perm, e, m);
        NextIn(perm, was, e, t, m);
      } else if x == e {
        OrbitStart(perm, e);
        PowerIs(perm, e);
        NextIn(perm, was, e, t, 0);
      } else {
        assert x in was && Image(perm, x) in was;
      }
    }
  }

  lemma PowerIs(perm: seq<nat>, e: Pair)
    requires Permutation(perm) && Inside(e, |perm|)
    ensures Power(perm, e, 0) == e
  {
  }

  lemma NextIn(perm: seq<nat>, was: set<Pair>, e: Pair, t: nat, m: nat)
    requires Permutation(perm) && Inside(e, |perm|) && m < t && Power(perm, e, t) == e && e in was
    ensures Image(perm, Power(perm, e, m)) in was + Orbit(perm, e, t)
  {
    assert Power(perm, e, m + 1) == Image(perm, Power(perm, e, m));
    if m + 1 < t { assert Power(perm, e, m + 1) in Orbit(perm, e, t); }
  }
}
