// Numbering the edges of a graph given by its neighbour lists.
module CubInit {
  import opened CubGraph
  import opened CubCycles
  import opened CubStart

  // Neighbour lists of a simple graph of maximum degree three, padded with -1 at the end.
  ghost predicate RowOk(g: seq<seq<int>>, v: nat, i: nat)
    requires v < |g| && |g[v]| == 3 && i < 3
  {
    && g[v][i] < |g| && g[v][i] != v
    && (g[v][i] < 0 && i < 2 ==> g[v][i + 1] < 0)
    && (forall j :: 0 <= j < i && g[v][i] >= 0 ==> g[v][j] != g[v][i])
  }

  ghost predicate Neighbours(g: seq<seq<int>>) {
    && (forall v :: 0 <= v < |g| ==> |g[v]| == 3)
    && (forall v, i :: 0 <= v < |g| && 0 <= i < 3 ==> RowOk(g, v, i))
    && (forall v, i :: 0 <= v < |g| && 0 <= i < 3 && 0 <= g[v][i] < |g| ==> v in g[g[v][i]])
  }

  // The number of the edge in a slot, or pad.
  ghost function Numbered(g: seq<seq<int>>, eno: seq<seq<nat>>, pad: nat): seq<seq<nat>>
    requires |eno| == |g| && forall v :: 0 <= v < |g| ==> |g[v]| == 3 && |eno[v]| == 3
  {
    seq(|g|, v requires 0 <= v < |g| => seq(3, i requires 0 <= i < 3 => if g[v][i] < 0 then pad else eno[v][i]))
  }

  ghost predicate Before(v: int, i: int, x: int, k: int) {
    v < x || (v == x && i < k)
  }

  // Slot i of v has its number: that of its edge, the same as in the slot at the other end.
  ghost predicate SlotDone(g: seq<seq<int>>, eno: seq<seq<nat>>, v1: seq<nat>, v2: seq<nat>, v: nat, i: nat)
    requires Neighbours(g) && |eno| == |g| && v < |g| && i < 3 && forall u :: 0 <= u < |g| ==> |eno[u]| == 3
  {
    var y := g[v][i];
    y >= 0 ==>
      && eno[v][i] < |v1| == |v2|
      && (if y > v then v1[eno[v][i]] == v && v2[eno[v][i]] == y
          else v1[eno[v][i]] == y && v2[eno[v][i]] == v && forall j :: 0 <= j < 3 && g[y][j] == v ==>
              eno[y][j] == eno[v][i])
  }

  // Edge e has been numbered in the row of its smaller vertex.
  ghost predicate EdgeDone(g: seq<seq<int>>, eno: seq<seq<nat>>, v1: seq<nat>, v2: seq<nat>, e: nat, x: nat, k: nat)
    requires Neighbours(g) && |eno| == |g| && e < |v1| == |v2| && forall u :: 0 <= u < |g| ==> |eno[u]| == 3
  {
    v1[e] < v2[e] < |g| && exists i ::
    0 <= i < 3 && Before(v1[e], i, x, k) && g[v1[e]][i] == v2[e] && eno[v1[e]][i] == e
  }

  // All slots before slot k of vertex x have been done.
  ghost predicate Progress(g: seq<seq<int>>, eno: seq<seq<nat>>, v1: seq<nat>, v2: seq<nat>, x: nat, k: nat) {
    && Neighbours(g) && |eno| == |g| && |v1| == |v2| && (forall u :: 0 <= u < |g| ==> |eno[u]| == 3)
    && (forall v, i :: 0 <= v < |g| && 0 <= i < 3 && Before(v, i, x, k) ==> SlotDone(g, eno, v1, v2, v, i))
    && (forall e :: 0 <= e < |v1| ==> EdgeDone(g, eno, v1, v2, e, x, k))
  }

  function Put(eno: seq<seq<nat>>, x: nat, i: nat, e: nat): seq<seq<nat>>
    requires x < |eno| && i < |eno[x]|
  {
    var row: seq<nat> := eno[x];
    eno[x := row[i := e]]
  }

  // All slots done: the numbers make a graph.
  lemma AllDone(g: seq<seq<int>>, eno: seq<seq<nat>>, v1: seq<nat>, v2: seq<nat>)
    requires Progress(g, eno, v1, v2, |g|, 0)
    ensures Graph(|g|, |v1|, g, Numbered(g, eno, |v1|), v1, v2).Ok()
  {
    var gr := Graph(|g|, |v1|, g, Numbered(g, eno, |v1|), v1, v2);
    forall v, i | 0 <= v < gr.nv && 0 <= i < 3 ensures gr.SlotOk(v, i) {
      assert RowOk(g, v, i) && SlotDone(g, eno, v1, v2, v, i);
    }
    forall e | 0 <= e < gr.ne
      ensures v1[e] < gr.nv && v2[e] < gr.nv && v1[e] != v2[e] && gr.HasSlot(v1[e], e) && gr.HasSlot(v2[e], e)
    {
      assert EdgeDone(g, eno, v1, v2, e, |g|, 0);
      var i :| 0 <= i < 3 && g[v1[e]][i] == v2[e] && eno[v1[e]][i] == e;
      assert v1[e] in g[g[v1[e]][i]];
      var j :| 0 <= j < 3 && g[v2[e]][j] == v1[e];
      assert SlotDone(g, eno, v1, v2, v2[e], j);
    }
  }

  lemma Symmetric(g: seq<seq<int>>, x: nat, i: nat) returns (j: nat)
    requires Neighbours(g) && x < |g| && i < 3 && g[x][i] >= 0
    ensures j < 3 && g[x][i] < |g| && g[g[x][i]][j] == x
    ensures forall k :: 0 <= k < 3 && g[g[x][i]][k] == x ==> k == j
  {
    assert RowOk(g, x, i);
    var y := g[x][i];
    assert x in g[y];
    j :| 0 <= j < 3 && g[y][j] == x;
    assert RowOk(g, y, 0) && RowOk(g, y, 1) && RowOk(g, y, 2);
  }

  lemma NextRow(g: seq<seq<int>>, eno: seq<seq<nat>>, v1: seq<nat>, v2: seq<nat>, x: nat)
    requires Progress(g, eno, v1, v2, x, 3)
    ensures Progress(g, eno, v1, v2, x + 1, 0)
  {
    var next := x + 1;
    forall e | 0 <= e < |v1| ensures EdgeDone(g, eno, v1, v2, e, next, 0) { assert EdgeDone(g, eno, v1, v2, e, x, 3); }
  }

  lemma PadStep(g: seq<seq<int>>, eno: seq<seq<nat>>, v1: seq<nat>, v2: seq<nat>, x: nat, i: nat, pad: nat)
    requires Progress(g, eno, v1, v2, x, i) && x < |g| && i < 3 && g[x][i] < 0
    ensures Progress(g, Put(eno, x, i, pad), v1, v2, x, i + 1)
  {
    var t := Put(eno, x, i, pad);
    forall v, k | 0 <= v < |g| && 0 <= k < 3 && Before(v, k, x, i + 1) ensures SlotDone(g, t, v1, v2, v, k) {
      if v != x || k != i { assert SlotDone(g, eno, v1, v2, v, k); }
    }
    var next := i + 1;
    forall e | 0 <= e < |v1| ensures EdgeDone(g, t, v1, v2, e, x, next) { assert EdgeDone(g, eno, v1, v2, e, x, i); }
  }

  lemma NewStep(g: seq<seq<int>>, eno: seq<seq<nat>>, v1: seq<nat>, v2: seq<nat>, x: nat, i: nat)
    requires Progress(g, eno, v1, v2, x, i) && x < |g| && i < 3 && g[x][i] > x
    ensures Progress(g, Put(eno, x, i, |v1|), v1 + [x], v2 + [g[x][i]], x, i + 1)
  {
    var t, w1, w2 := Put(eno, x, i, |v1|), v1 + [x], v2 + [g[x][i]];
    assert RowOk(g, x, i);
    forall v, k | 0 <= v < |g| && 0 <= k < 3 && Before(v, k, x, i + 1) ensures SlotDone(g, t, w1, w2, v, k) {
      if v != x || k != i { assert SlotDone(g, eno, v1, v2, v, k); }
    }
    var next := i + 1;
    forall e | 0 <= e < |w1| ensures EdgeDone(g, t, w1, w2, e, x, next) {
      if e < |v1| { assert EdgeDone(g, eno, v1, v2, e, x, i); } else { assert t[x][i] == e; }
    }
  }

  lemma OldStep(g: seq<seq<int>>, eno: seq<seq<nat>>, v1: seq<nat>, v2: seq<nat>, x: nat, i: nat, j: nat)
    requires Progress(g, eno, v1, v2, x, i) && x < |g| && i < 3 && 0 <= g[x][i] < x && j < 3 && g[g[x][i]][j] == x
    ensures Progress(g, Put(eno, x, i, eno[g[x][i]][j]), v1, v2, x, i + 1)
  {
    var y := g[x][i];
    var t := Put(eno, x, i, eno[y][j]);
    var n := Symmetric(g, x, i);
    assert SlotDone(g, eno, v1, v2, y, j);
    forall v, k | 0 <= v < |g| && 0 <= k < 3 && Before(v, k, x, i + 1) ensures SlotDone(g, t, v1, v2, v, k) {
      if v != x || k != i { assert SlotDone(g, eno, v1, v2, v, k); }
    }
    var next := i + 1;
    forall e | 0 <= e < |v1| ensures EdgeDone(g, t, v1, v2, e, x, next) { assert EdgeDone(g, eno, v1, v2, e, x, i); }
  }

  // The slots that are not padding.
  ghost function Filled(g: seq<seq<int>>): set<nat>
    requires forall v :: 0 <= v < |g| ==> |g[v]| == 3
  {
    set c | c in Range(3 * |g|) && g[c / 3][c % 3] >= 0
  }

  lemma CountEdges(g: seq<seq<int>>, eno: seq<seq<nat>>, v1: seq<nat>, v2: seq<nat>)
    requires Progress(g, eno, v1, v2, |g|, 0)
    ensures |Filled(g)| == 2 * |v1|
  {
    AllDone(g, eno, v1, v2);
    var gr := Graph(|g|, |v1|, g, Numbered(g, eno, |v1|), v1, v2);
    TwoSlotsEach(gr, |v1|);
    forall c ensures c in Filled(g) <==> c in Slots(gr, |v1|) {
      if c in Range(3 * |g|) { SlotEdge(gr, c / 3, c % 3); }
    }
    assert Filled(g) == Slots(gr, |v1|);
  }

  // cubinit: number the edges, in the order of their smaller vertices. The number of edges
  // found is half the number of filled slots, so it is ne when ne is right.
  method CubInit(g: seq<seq<int>>, ne: nat) returns (eno: seq<seq<nat>>, v1: seq<nat>, v2: seq<nat>)
    requires Neighbours(g)
    ensures |Filled(g)| == 2 * |v1| && |v1| == |v2|
    ensures |v1| == ne ==> Graph(|g|, ne, g, eno, v1, v2).Ok()
  {
    eno := seq(|g|, _ => [0, 0, 0]);
    v1, v2 := [], [];
    var x := 0;
    while x < |g|
      invariant 0 <= x <= |g| && Progress(g, eno, v1, v2, x, 0) && Padded(g, eno, ne, x, 0)
    {
      var i := 0;
      while i < 3
        invariant 0 <= i <= 3 && Progress(g, eno, v1, v2, x, i) && Padded(g, eno, ne, x, i)
      {
        eno, v1, v2 := NumberSlot(g, eno, v1, v2, ne, x, i);
        i := i + 1;
      }
      NextRow(g, eno, v1, v2, x);
      x := x + 1;
    }
    CountEdges(g, eno, v1, v2);
    AllDone(g, eno, v1, v2);
    SameNumbers(g, eno, ne);
  }

  ghost predicate Padded(g: seq<seq<int>>, eno: seq<seq<nat>>, pad: nat, x: nat, k: nat) {
    |eno| == |g| && forall v, i ::
    0 <= v < |g| && 0 <= i < 3 && |g[v]| == 3 && |eno[v]| == 3 && Before(v, i, x, k) && g[v][i] < 0 ==>
    eno[v][i] == pad
  }

  lemma SameNumbers(g: seq<seq<int>>, eno: seq<seq<nat>>, pad: nat)
    requires Padded(g, eno, pad, |g|, 0) && forall v :: 0 <= v < |g| ==> |g[v]| == 3 && |eno[v]| == 3
    ensures Numbered(g, eno, pad) == eno
  {
    forall v | 0 <= v < |g| ensures Numbered(g, eno, pad)[v] == eno[v] { }
  }

  // The body of the two loops.
  method NumberSlot(g: seq<seq<int>>, eno0: seq<seq<nat>>, u1: seq<nat>, u2: seq<nat>, ne: nat, x: nat, i: nat)
    returns (eno: seq<seq<nat>>, v1: seq<nat>, v2: seq<nat>)
    requires x < |g| && i < 3 && Progress(g, eno0, u1, u2, x, i) && Padded(g, eno0, ne, x, i)
    ensures Progress(g, eno, v1, v2, x, i + 1) && Padded(g, eno, ne, x, i + 1)
  {
    hide Progress;
    ProgressShape(g, eno0, u1, u2, x, i);
    var y := g[x][i];
    v1, v2 := u1, u2;
    if y < 0 {
      PadStep(g, eno0, v1, v2, x, i, ne);
      eno := Put(eno0, x, i, ne);
    } else if y > x {
      NewStep(g, eno0, v1, v2, x, i);
      eno := Put(eno0, x, i, |v1|);
      v1, v2 := v1 + [x], v2 + [y];
    } else {
      assert RowOk(g, x, i);
      ghost var n := Symmetric(g, x, i);
      var j := 0;
      while g[y][j] != x
        invariant 0 <= j <= n
        decreases n - j
      {
        j := j + 1;
      }
      OldStep(g, eno0, v1, v2, x, i, j);
      eno := Put(eno0, x, i, eno0[y][j]);
    }
  }

  lemma ProgressShape(g: seq<seq<int>>, eno: seq<seq<nat>>, v1: seq<nat>, v2: seq<nat>, x: nat, k: nat)
    requires Progress(g, eno, v1, v2, x, k)
    ensures Neighbours(g) && |eno| == |g| && |v1| == |v2| && (forall u :: 0 <= u < |g| ==> |eno[u]| == 3)
  {
  }
}
