// The two views of a Hamiltonian cycle: a sequence of vertices, and a connected set of edges
// with two edges at every vertex.
module CubCycles {
  import opened Counting
  import opened CubGraph

  // ---- Finite sets of vertices ----

  function Range(n: nat): (r: set<nat>)
    ensures |r| == n && forall x: nat :: x in r <==> x < n
  {
    if n == 0 then {} else Range(n - 1) + {n - 1}
  }

  lemma SameSizeSame(s: set<nat>, t: set<nat>)
    requires s <= t && |s| >= |t|
    ensures s == t
  {
    if s != t {
      var x :| x in t && x !in s;
      assert s + {x} <= t;
      SizeMonotone(s + {x}, t);
    }
  }

  lemma {:induction false} SizeMonotone(s: set<nat>, t: set<nat>)
    requires s <= t
    ensures |s| <= |t|
  {
    if s != {} {
      var x :| x in s;
      SizeMonotone(s - {x}, t - {x});
    }
  }

  // n different vertices below n are all of them.
  lemma AllVisited(c: seq<nat>, n: nat)
    requires |c| == n && (forall i :: 0 <= i < n ==> c[i] < n) && forall i, j :: 0 <= i < j < n ==> c[i] != c[j]
    ensures forall v :: 0 <= v < n ==> v in c
  {
    DistinctSize(c);
    SameSizeSame(Members(c), Range(n));
    forall v | 0 <= v < n ensures v in c { assert v in Members(c); }
  }

  // ---- From the sequence to the set ----

  function Prev(n: nat, i: nat): nat
    requires i < n
  {
    if i == 0 then n - 1 else i - 1
  }

  // Only the edges to the two neighbours on the cycle are cycle edges at c[i].
  lemma OnlyNeighbours(gr: Graph, c: seq<nat>, i: nat, t: nat)
    requires gr.Ok() && gr.HamCycle(c) && i < gr.nv && t < 3 && gr.eno[c[i]][t] in gr.CycleEdges(c)
    ensures gr.g[c[i]][t] == c[gr.Next(i)] || gr.g[c[i]][t] == c[Prev(gr.nv, i)]
  {
    var v := c[i];
    SlotEdge(gr, v, t);
    var e := gr.eno[v][t];
    var j :| 0 <= j < gr.nv && gr.Joins(e, c[j], c[gr.Next(j)]);
    assert j == i || gr.Next(j) == i;
  }

  lemma CycleDegree(gr: Graph, c: seq<nat>, i: nat)
    requires gr.Ok() && gr.HamCycle(c) && i < gr.nv
    ensures gr.Degree(gr.CycleEdges(c), c[i]) == 2
  {
    var v, n, p := c[i], gr.Next(i), Prev(gr.nv, i);
    assert gr.Next(p) == i && c[n] != c[p];
    var a := AdjacentEdge(gr, v, c[n]);
    var k := AdjacentEdge(gr, c[p], v);
    var b := EdgeSlot(gr, gr.eno[c[p]][k], v);
    assert gr.g[v][b] == c[p];
    assert gr.OnCycle(c, gr.eno[v][a]) && gr.OnCycle(c, gr.eno[v][b]);
    TwoSlots(gr, c, i, a, b);
  }

  // The slots of the two neighbours on the cycle are the only ones with an edge of the cycle.
  lemma TwoSlots(gr: Graph, c: seq<nat>, i: nat, a: nat, b: nat)
    requires gr.Ok() && gr.HamCycle(c) && i < gr.nv && a < 3 && b < 3 && a != b
    requires gr.g[c[i]][a] == c[gr.Next(i)] && gr.g[c[i]][b] == c[Prev(gr.nv, i)]
    requires gr.eno[c[i]][a] in gr.CycleEdges(c) && gr.eno[c[i]][b] in gr.CycleEdges(c)
    ensures gr.Degree(gr.CycleEdges(c), c[i]) == 2
  {
    var t := 3 - a - b;
    SlotEdge(gr, c[i], 1);
    SlotEdge(gr, c[i], 2);
    if gr.eno[c[i]][t] in gr.CycleEdges(c) { OnlyNeighbours(gr, c, i, t); }
  }

  lemma {:induction false} CycleSides(gr: Graph, c: seq<nat>, t: set<nat>, i: nat)
    requires gr.Ok() && gr.HamCycle(c) && gr.ClosedUnder(gr.CycleEdges(c), t) && i < gr.nv
    ensures c[i] in t <==> c[0] in t
  {
    if i > 0 {
      CycleSides(gr, c, t, i - 1);
      assert gr.Next(i - 1) == i;
      var k := AdjacentEdge(gr, c[i - 1], c[i]);
      var e := gr.eno[c[i - 1]][k];
      assert gr.Next(i - 1) == i && gr.OnCycle(c, e);
      assert e in gr.CycleEdges(c);
    }
  }

  lemma CycleIsHamSet(gr: Graph, c: seq<nat>)
    requires gr.Ok() && gr.HamCycle(c)
    ensures gr.HamSet(gr.CycleEdges(c))
  {
    var h := gr.CycleEdges(c);
    AllVisited(c, gr.nv);
    forall v | 0 <= v < gr.nv ensures gr.Degree(h, v) == 2 {
      assert v in c;
      var i :| 0 <= i < |c| && c[i] == v;
      CycleDegree(gr, c, i);
    }
    forall t: set<nat> | gr.ClosedUnder(h, t) ensures gr.SameSide(t) {
      forall x, y | 0 <= x < gr.nv && 0 <= y < gr.nv ensures x in t <==> y in t {
        assert x in c && y in c;
        var i :| 0 <= i < |c| && c[i] == x;
        var j :| 0 <= j < |c| && c[j] == y;
        CycleSides(gr, c, t, i);
        CycleSides(gr, c, t, j);
      }
    }
  }

  // ---- From the set to the sequence ----

  // y is a neighbour of x by an edge of h.
  ghost predicate Linked(gr: Graph, h: set<nat>, x: nat, y: nat)
    requires gr.Shape()
  {
    x < gr.nv && exists i :: 0 <= i < 3 && gr.g[x][i] == y && gr.eno[x][i] in h
  }

  lemma LinkedBack(gr: Graph, h: set<nat>, x: nat, y: nat)
    requires gr.Ok() && Linked(gr, h, x, y)
    ensures Linked(gr, h, y, x) && x != y
  {
    var i :| 0 <= i < 3 && gr.g[x][i] == y && gr.eno[x][i] in h;
    SlotEdge(gr, x, i);
    var j := EdgeSlot(gr, gr.eno[x][i], y);
    assert gr.g[y][j] == x;
  }

  lemma TwoNeighbours(gr: Graph, h: set<nat>, x: nat, a: nat, b: nat, y: nat)
    requires gr.Ok() && x < gr.nv && gr.Degree(h, x) == 2
    requires Linked(gr, h, x, a) && Linked(gr, h, x, b) && a != b && Linked(gr, h, x, y)
    ensures y == a || y == b
  {
    var i :| 0 <= i < 3 && gr.g[x][i] == a && gr.eno[x][i] in h;
    var j :| 0 <= j < 3 && gr.g[x][j] == b && gr.eno[x][j] in h;
    var k :| 0 <= k < 3 && gr.g[x][k] == y && gr.eno[x][k] in h;
  }

  lemma EdgeLinks(gr: Graph, h: set<nat>, e: nat, x: nat)
    requires gr.Ok() && e in h && e < gr.ne && (gr.v1[e] == x || gr.v2[e] == x)
    ensures Linked(gr, h, x, gr.v1[e] + gr.v2[e] - x)
  {
    var i := EdgeSlot(gr, e, x);
    assert gr.g[x][i] == gr.v1[e] + gr.v2[e] - x;
  }

  // c is a path from vertex 0 along edges of h.
  ghost predicate Walk(gr: Graph, h: set<nat>, c: seq<nat>)
    requires gr.Shape()
  {
    && 1 <= |c| <= gr.nv && c[0] == 0
    && (forall i :: 0 <= i < |c| ==> c[i] < gr.nv)
    && (forall i, j :: 0 <= i < j < |c| ==> c[i] != c[j])
    && (forall i :: 0 <= i < |c| - 1 ==> Linked(gr, h, c[i], c[i + 1]))
  }

  // A step that does not go back can only return to the start.
  lemma WalkAhead(gr: Graph, h: set<nat>, c: seq<nat>, y: nat, k: nat)
    requires gr.Ok() && gr.HamSet(h) && Walk(gr, h, c) && Linked(gr, h, c[|c| - 1], y)
    requires |c| > 1 ==> y != c[|c| - 2]
    requires k < |c| && c[k] == y
    ensures k == 0 && |c| > 2
  {
    var m := |c| - 1;
    LinkedBack(gr, h, c[m], y);
    if 0 < k {
      assert k < m - 1;
      LinkedBack(gr, h, c[k - 1], c[k]);
      TwoNeighbours(gr, h, y, c[k - 1], c[k + 1], c[m]);
    }
  }

  // A walk that can return to the start has visited everything.
  lemma WalkClosed(gr: Graph, h: set<nat>, c: seq<nat>, x: nat, y: nat)
    requires gr.Ok() && gr.HamSet(h) && Walk(gr, h, c) && |c| > 2 && Linked(gr, h, c[|c| - 1], 0)
    requires x in c && Linked(gr, h, x, y)
    ensures y in c
  {
    var m := |c| - 1;
    var i :| 0 <= i < |c| && c[i] == x;
    LinkedBack(gr, h, c[m], 0);
    if i > 0 { LinkedBack(gr, h, c[i - 1], c[i]); }
    var a := if i == 0 then c[m] else c[i - 1];
    var b := if i == m then c[0] else c[i + 1];
    TwoNeighbours(gr, h, x, a, b, y);
  }

  lemma WalkComplete(gr: Graph, h: set<nat>, c: seq<nat>)
    requires gr.Ok() && gr.HamSet(h) && Walk(gr, h, c) && |c| > 2 && Linked(gr, h, c[|c| - 1], 0)
    ensures |c| == gr.nv
  {
    var t := Members(c);
    forall e | e in h && e < gr.ne ensures gr.v1[e] in t <==> gr.v2[e] in t {
      EdgeLinks(gr, h, e, gr.v1[e]);
      EdgeLinks(gr, h, e, gr.v2[e]);
      if gr.v1[e] in t { WalkClosed(gr, h, c, gr.v1[e], gr.v2[e]); }
      if gr.v2[e] in t { WalkClosed(gr, h, c, gr.v2[e], gr.v1[e]); }
    }
    assert gr.SameSide(t);
    forall v | v in Range(gr.nv) ensures v in t { assert 0 in t <==> v in t; }
    DistinctSize(c);
    SizeMonotone(Range(gr.nv), t);
  }

  // One step of the walk over all but the last vertex.
  lemma WalkStep(gr: Graph, h: set<nat>, c: seq<nat>, y: nat)
    requires gr.Ok() && gr.HamSet(h) && Walk(gr, h, c) && |c| < gr.nv && y < gr.nv
    requires Linked(gr, h, c[|c| - 1], y) && (|c| > 1 ==> y != c[|c| - 2])
    ensures Walk(gr, h, c + [y])
  {
    forall k | 0 <= k < |c| ensures c[k] != y {
      if c[k] == y {
        WalkAhead(gr, h, c, y, k);
        WalkComplete(gr, h, c);
      }
    }
  }

  // There is a step that does not go back.
  lemma StepExists(gr: Graph, h: set<nat>, v: nat, w: int)
    requires gr.Ok() && v < gr.nv && gr.Degree(h, v) == 2 && gr.ne !in h
    ensures exists i :: 0 <= i < 3 && gr.g[v][i] != w && gr.eno[v][i] in h && gr.g[v][i] >= 0
  {
    SlotEdge(gr, v, 0);
    SlotEdge(gr, v, 1);
    SlotEdge(gr, v, 2);
    var i := if gr.eno[v][0] in h && gr.g[v][0] != w then 0 else if gr.eno[v][1] in h && gr.g[v][1] != w then 1 else 2;
    assert gr.g[v][i] != w && gr.eno[v][i] in h;
  }

  lemma AtLeastThree(gr: Graph, h: set<nat>)
    requires gr.Ok() && gr.HamSet(h) && gr.nv > 0
    ensures gr.nv >= 3
  {
    StepExists(gr, h, 0, -1);
    var i :| 0 <= i < 3 && gr.eno[0][i] in h && gr.g[0][i] >= 0;
    SlotEdge(gr, 0, i);
    StepExists(gr, h, 0, gr.g[0][i]);
    var j :| 0 <= j < 3 && gr.g[0][j] != gr.g[0][i] && gr.eno[0][j] in h && gr.g[0][j] >= 0;
    SlotEdge(gr, 0, j);
  }

  // A walk through all vertices closes: it is a Hamiltonian cycle, and h is its edge set.
  lemma WalkIsCycle(gr: Graph, h: set<nat>, c: seq<nat>)
    requires gr.Ok() && gr.HamSet(h) && Walk(gr, h, c) && |c| == gr.nv
    ensures gr.HamCycle(c) && gr.CycleEdges(c) == h
  {
    AtLeastThree(gr, h);
    var m := gr.nv - 1;
    StepExists(gr, h, c[m], c[m - 1]);
    var i :| 0 <= i < 3 && gr.g[c[m]][i] != c[m - 1] && gr.eno[c[m]][i] in h && gr.g[c[m]][i] >= 0;
    SlotEdge(gr, c[m], i);
    var y := gr.g[c[m]][i];
    AllVisited(c, gr.nv);
    assert y in c;
    var k :| 0 <= k < |c| && c[k] == y;
    WalkAhead(gr, h, c, y, k);
    forall j | 0 <= j < gr.nv ensures Linked(gr, h, c[j], c[gr.Next(j)]) && gr.Adjacent(c[j], c[gr.Next(j)]) {
    }
    WalkEdges(gr, h, c);
  }

  lemma WalkEdge(gr: Graph, h: set<nat>, c: seq<nat>, e: nat)
    requires gr.Ok() && gr.HamSet(h) && gr.HamCycle(c)
    requires forall j :: 0 <= j < gr.nv ==> Linked(gr, h, c[j], c[gr.Next(j)])
    requires e in h
    ensures e in gr.CycleEdges(c)
  {
    var x := gr.v1[e];
    EdgeLinks(gr, h, e, x);
    AllVisited(c, gr.nv);
    assert x in c;
    var i :| 0 <= i < |c| && c[i] == x;
    var p := Prev(gr.nv, i);
    assert gr.Next(p) == i;
    LinkedBack(gr, h, c[p], x);
    TwoNeighbours(gr, h, x, c[p], c[gr.Next(i)], gr.v2[e]);
    assert gr.Joins(e, c[p], c[gr.Next(p)]) || gr.Joins(e, c[i], c[gr.Next(i)]);
  }

  lemma StepEdge(gr: Graph, h: set<nat>, e: nat, x: nat, y: nat)
    requires gr.Ok() && e < gr.ne && gr.Joins(e, x, y) && Linked(gr, h, x, y)
    ensures e in h
  {
    var s :| 0 <= s < 3 && gr.g[x][s] == y && gr.eno[x][s] in h;
    SlotEdge(gr, x, s);
    SimpleGraph(gr, e, gr.eno[x][s]);
  }

  lemma WalkEdges(gr: Graph, h: set<nat>, c: seq<nat>)
    requires gr.Ok() && gr.HamSet(h) && gr.HamCycle(c)
    requires forall j :: 0 <= j < gr.nv ==> Linked(gr, h, c[j], c[gr.Next(j)])
    ensures gr.CycleEdges(c) == h
  {
    hide Linked;
    forall e | e in h ensures e in gr.CycleEdges(c) { WalkEdge(gr, h, c, e); }
    forall e | e in gr.CycleEdges(c) ensures e in h {
      var i :| 0 <= i < gr.nv && gr.Joins(e, c[i], c[gr.Next(i)]);
      StepEdge(gr, h, e, c[i], c[gr.Next(i)]);
    }
  }
}
