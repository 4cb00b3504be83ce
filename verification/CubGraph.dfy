// Graphs of maximum degree three with numbered edges, and their Hamiltonian cycles.
module CubGraph {
  datatype Class = No | Dunno | Yes

  // The neighbours of v are g[v][0..3], padded with -1 at the end; eno[v][i] is the number of
  // the edge in slot i, or ne for padding; edge e joins v1[e] and v2[e].
  datatype Graph = Graph(nv: nat, ne: nat, g: seq<seq<int>>, eno: seq<seq<nat>>, v1: seq<nat>, v2: seq<nat>) {
    ghost predicate Shape() {
      && |g| == |eno| == nv && |v1| == |v2| == ne
      && (forall v :: 0 <= v < nv ==> |g[v]| == 3 && |eno[v]| == 3)
    }

    predicate Joins(e: nat, x: int, y: int)
      requires e < |v1| && e < |v2|
    {
      (v1[e] == x && v2[e] == y) || (v1[e] == y && v2[e] == x)
    }

    ghost predicate SlotOk(v: nat, i: nat)
      requires Shape() && v < nv && i < 3
    {
      && g[v][i] < nv && g[v][i] != v
      && (g[v][i] < 0 ==> eno[v][i] == ne && (i < 2 ==> g[v][i + 1] < 0))
      && (g[v][i] >= 0 ==> eno[v][i] < ne && Joins(eno[v][i], v, g[v][i]))
      && (forall j :: 0 <= j < i && g[v][i] >= 0 ==> g[v][j] != g[v][i])
    }

    // Edge e is in slot i of vertex v.
    ghost predicate HasSlot(v: nat, e: nat)
      requires Shape() && v < nv
    {
      eno[v][0] == e || eno[v][1] == e || eno[v][2] == e
    }

    ghost predicate Ok() {
      && Shape()
      && (forall v, i :: 0 <= v < nv && 0 <= i < 3 ==> SlotOk(v, i))
      && (forall e :: 0 <= e < ne ==>
          v1[e] < nv && v2[e] < nv && v1[e] != v2[e] && HasSlot(v1[e], e) && HasSlot(v2[e], e))
    }

    // ---- Edge sets ----

    function Bit(b: bool): nat { if b then 1 else 0 }

    // The number of edges of h at v.
    ghost function Degree(h: set<nat>, v: nat): nat
      requires Shape() && v < nv
    {
      Bit(eno[v][0] in h) + Bit(eno[v][1] in h) + Bit(eno[v][2] in h)
    }

    ghost predicate ClosedUnder(h: set<nat>, t: set<nat>)
      requires Shape()
    {
      forall e :: e in h && e < ne ==> (v1[e] in t <==> v2[e] in t)
    }

    ghost predicate Connected(h: set<nat>)
      requires Shape()
    {
      forall t: set<nat> :: ClosedUnder(h, t) ==> SameSide(t)
    }

    // t holds all vertices or none.
    ghost predicate SameSide(t: set<nat>) {
      forall x, y :: 0 <= x < nv && 0 <= y < nv ==> (x in t <==> y in t)
    }

    // The edge sets of Hamiltonian cycles: connected, and of degree two everywhere.
    ghost predicate HamSet(h: set<nat>)
      requires Shape()
    {
      && (forall e :: e in h ==> e < ne)
      && (forall v :: 0 <= v < nv ==> Degree(h, v) == 2)
      && Connected(h)
    }

    // ---- Cycles as sequences ----

    predicate Adjacent(x: nat, y: nat)
      requires x < |g| && |g[x]| == 3
    {
      g[x][0] == y || g[x][1] == y || g[x][2] == y
    }

    function Next(i: nat): nat
      requires i < nv
    {
      if i == nv - 1 then 0 else i + 1
    }

    ghost predicate HamCycle(c: seq<nat>)
      requires Shape()
    {
      && 3 <= nv == |c|
      && (forall i :: 0 <= i < nv ==> c[i] < nv)
      && (forall i, j :: 0 <= i < j < nv ==> c[i] != c[j])
      && (forall i :: 0 <= i < nv ==> Adjacent(c[i], c[Next(i)]))
    }

    ghost predicate OnCycle(c: seq<nat>, e: nat)
      requires Shape() && |c| == nv && e < ne
    {
      exists i :: 0 <= i < nv && Joins(e, c[i], c[Next(i)])
    }

    ghost function CycleEdges(c: seq<nat>): set<nat>
      requires Shape() && |c| == nv
    {
      set e | 0 <= e < ne && OnCycle(c, e)
    }
  }

  // h contains the edges classified Yes and none classified No.
  ghost predicate Agrees(gr: Graph, cls: seq<Class>, h: set<nat>)
    requires |cls| >= gr.ne
  {
    forall e :: 0 <= e < gr.ne ==> (cls[e] == Yes ==> e in h) && (cls[e] == No ==> e !in h)
  }

  // ---- Simple facts ----

  lemma SlotEdge(gr: Graph, v: nat, i: nat)
    requires gr.Ok() && v < gr.nv && i < 3
    ensures gr.SlotOk(v, i)
  {
  }

  // Two slots of a vertex hold different edges.
  lemma SlotsDiffer(gr: Graph, v: nat, i: nat, j: nat)
    requires gr.Ok() && v < gr.nv && i < j < 3 && gr.eno[v][j] < gr.ne
    ensures gr.eno[v][i] != gr.eno[v][j] && gr.eno[v][i] < gr.ne
  {
    SlotEdge(gr, v, i);
    SlotEdge(gr, v, j);
    if i == 0 && j == 2 { SlotEdge(gr, v, 1); }
  }

  // An edge at v is in exactly one slot of v.
  lemma EdgeSlot(gr: Graph, e: nat, v: nat) returns (i: nat)
    requires gr.Ok() && e < gr.ne && (gr.v1[e] == v || gr.v2[e] == v)
    ensures i < 3 && v < gr.nv && gr.eno[v][i] == e && gr.g[v][i] >= 0 && gr.Joins(e, v, gr.g[v][i])
    ensures forall j :: 0 <= j < 3 && j != i ==> gr.eno[v][j] != e
  {
    i := if gr.eno[v][0] == e then 0 else if gr.eno[v][1] == e then 1 else 2;
    SlotEdge(gr, v, i);
    forall j | 0 <= j < 3 && j != i ensures gr.eno[v][j] != e {
      if gr.eno[v][j] == e { SlotsDiffer(gr, v, if i < j then i else j, if i < j then j else i); }
    }
  }

  // At most one edge joins two vertices.
  lemma SimpleGraph(gr: Graph, e: nat, d: nat)
    requires gr.Ok() && e < gr.ne && d < gr.ne && gr.Joins(d, gr.v1[e], gr.v2[e])
    ensures d == e
  {
    var x := gr.v1[e];
    var i := EdgeSlot(gr, e, x);
    var j := EdgeSlot(gr, d, x);
    assert gr.g[x][i] == gr.v2[e] == gr.g[x][j];
    if i < j { SlotEdge(gr, x, j); } else if j < i { SlotEdge(gr, x, i); }
  }

  lemma SlotAdjacent(gr: Graph, e: nat, x: nat, y: nat)
    requires gr.Ok() && e < gr.ne && gr.Joins(e, x, y)
    ensures x < gr.nv && y < gr.nv && x != y && gr.Adjacent(x, y)
  {
    var i := EdgeSlot(gr, e, x);
  }

  lemma AdjacentEdge(gr: Graph, x: nat, y: nat) returns (i: nat)
    requires gr.Ok() && x < gr.nv && gr.Adjacent(x, y)
    ensures i < 3 && gr.g[x][i] == y && gr.eno[x][i] < gr.ne && gr.Joins(gr.eno[x][i], x, y) && y < gr.nv && y != x
  {
    i := if gr.g[x][0] == y then 0 else if gr.g[x][1] == y then 1 else 2;
    SlotEdge(gr, x, i);
  }
}
