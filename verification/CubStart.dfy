// The start of the search and the reading of its answer.
module CubStart {
  import opened CubGraph
  import opened CubCycles
  import opened CubState
  import opened CubSteps

  // ---- Counting slots ----

  // Slot i of vertex v has number 3 * v + i.
  ghost predicate InSlot(gr: Graph, c: nat, k: nat)
    requires gr.Shape()
  {
    c / 3 < gr.nv && gr.eno[c / 3][c % 3] < k
  }

  // The slots that hold one of the first k edges.
  ghost function Slots(gr: Graph, k: nat): set<nat>
    requires gr.Shape()
  {
    set c | c in Range(3 * gr.nv) && InSlot(gr, c, k)
  }

  lemma OneMoreEdge(gr: Graph, k: nat, i: nat, j: nat, c: nat)
    requires gr.Ok() && k < gr.ne && i < 3 && j < 3 && gr.eno[gr.v1[k]][i] == k && gr.eno[gr.v2[k]][j] == k
    ensures InSlot(gr, c, k + 1) <==> InSlot(gr, c, k) || c == 3 * gr.v1[k] + i || c == 3 * gr.v2[k] + j
  {
    if c / 3 < gr.nv && gr.eno[c / 3][c % 3] == k {
      SlotEdge(gr, c / 3, c % 3);
      var n := EdgeSlot(gr, k, c / 3);
    }
  }

  lemma NewSlots(gr: Graph, k: nat, i: nat, j: nat)
    requires gr.Ok() && k < gr.ne && i < 3 && j < 3 && gr.eno[gr.v1[k]][i] == k && gr.eno[gr.v2[k]][j] == k
    ensures |Slots(gr, k + 1)| == |Slots(gr, k)| + 2
  {
    var a, b := 3 * gr.v1[k] + i, 3 * gr.v2[k] + j;
    assert a / 3 == gr.v1[k] && a % 3 == i && b / 3 == gr.v2[k] && b % 3 == j;
    forall c: nat
      ensures InSlot(gr, c, k + 1) <==> InSlot(gr, c, k) || c == a || c == b
    { OneMoreEdge(gr, k, i, j, c); }
    assert !InSlot(gr, a, k) && !InSlot(gr, b, k);
    hide InSlot;
    assert Slots(gr, k + 1) == Slots(gr, k) + {a, b};
  }

  // Every edge is in two slots.
  lemma {:induction false} TwoSlotsEach(gr: Graph, k: nat)
    requires gr.Ok() && k <= gr.ne
    ensures |Slots(gr, k)| == 2 * k
  {
    if k == 0 {
      assert Slots(gr, 0) == {};
    } else {
      TwoSlotsEach(gr, k - 1);
      var i := EdgeSlot(gr, k - 1, gr.v1[k - 1]);
      var j := EdgeSlot(gr, k - 1, gr.v2[k - 1]);
      NewSlots(gr, k - 1, i, j);
    }
  }

  // A padded slot makes the number of edges smaller than in a cubic graph.
  lemma Handshake(gr: Graph, v: nat)
    requires gr.Ok() && v < gr.nv && gr.g[v][2] < 0
    ensures 3 * gr.nv > 2 * gr.ne
  {
    TwoSlotsEach(gr, gr.ne);
    SlotEdge(gr, v, 2);
    var c := 3 * v + 2;
    assert c / 3 == v && c % 3 == 2;
    assert Slots(gr, gr.ne) + {c} <= Range(3 * gr.nv);
    SizeMonotone(Slots(gr, gr.ne) + {c}, Range(3 * gr.nv));
  }

  // ---- The first state ----

  // Vertices of degree at most one are on no cycle.
  lemma LowDegree(gr: Graph, v: nat)
    requires gr.Ok() && v < gr.nv && gr.g[v][1] < 0
    ensures forall h :: !gr.HamSet(h)
  {
    SlotEdge(gr, v, 1);
    SlotEdge(gr, v, 2);
    forall h ensures !gr.HamSet(h) {
      if forall e :: e in h ==> e < gr.ne { assert gr.Degree(h, v) < 2; }
    }
  }

  // Nothing classified but padding; degree-two vertices have one slot out and wait.
  ghost predicate Blank(gr: Graph, s: Node) {
    && gr.Ok() && Sized(gr, s)
    && (forall e :: 0 <= e < gr.ne ==> s.cls[e] == Dunno)
    && (3 * gr.nv > 2 * gr.ne ==> s.cls[gr.ne] == No)
    && (forall v :: 0 <= v < gr.nv ==> s.din[v] == 0 && s.farend[v] == v)
  }

  lemma BlankTally(gr: Graph, s: Node, waiting: set<nat>)
    requires gr.nv > 0 && Blank(gr, s)
    requires forall v :: 0 <= v < gr.nv ==> gr.g[v][1] >= 0 && s.dout[v] == if gr.g[v][2] < 0 then 1 else 0
    requires forall v :: 0 <= v < gr.nv && gr.g[v][2] < 0 ==> v in waiting
    ensures Tally(gr, s) && Live(gr, s, seq(gr.nv, (i: nat) => i), 0) && Pending(gr, s, waiting)
  {
    StartPaths(gr, s);
    forall v | 0 <= v < gr.nv ensures TallyAt(gr, s, v) {
      SlotEdge(gr, v, 0);
      SlotEdge(gr, v, 1);
      SlotEdge(gr, v, 2);
      if gr.g[v][2] < 0 { Handshake(gr, v); }
    }
  }

  // ---- Initial classes ----

  // Every Hamiltonian cycle that agrees with init agrees with s.
  ghost predicate SoundFrom(gr: Graph, init: seq<Class>, s: Node) {
    && gr.Shape() && |init| >= gr.ne && |s.cls| == gr.ne + 1
    && forall h :: gr.HamSet(h) && Agrees(gr, init, h) ==> Agrees(gr, s.cls, h)
  }

  // No Hamiltonian cycle agrees with init.
  ghost predicate Impossible(gr: Graph, init: seq<Class>) {
    gr.Shape() && |init| >= gr.ne && forall h :: gr.HamSet(h) ==> !Agrees(gr, init, h)
  }

  // The first i classes of init have been given.
  ghost predicate Given(gr: Graph, init: seq<Class>, s: Node, i: int) {
    && |init| >= gr.ne && |s.cls| == gr.ne + 1 && i <= gr.ne
    && forall e :: 0 <= e < i && init[e] != Dunno ==> s.cls[e] == init[e]
  }

  lemma GivenKept(gr: Graph, init: seq<Class>, s: Node, t: Node, i: int)
    requires Given(gr, init, s, i) && Extends(s, t)
    ensures Given(gr, init, t, i)
  {
  }

  lemma GivenMore(gr: Graph, init: seq<Class>, s: Node, i: nat)
    requires Given(gr, init, s, i) && i < gr.ne && (init[i] == Dunno || s.cls[i] == init[i])
    ensures Given(gr, init, s, i + 1)
  {
  }

  lemma BlankSound(gr: Graph, init: seq<Class>, s: Node)
    requires Blank(gr, s) && |init| >= gr.ne
    ensures SoundFrom(gr, init, s) && Given(gr, init, s, 0)
  {
  }

  lemma Clash(gr: Graph, init: seq<Class>, s: Node, i: nat)
    requires SoundFrom(gr, init, s) && i < gr.ne && init[i] != Dunno && s.cls[i] != Dunno && s.cls[i] != init[i]
    ensures Impossible(gr, init)
  {
    forall h | gr.HamSet(h) ensures !Agrees(gr, init, h) {
      assert Agrees(gr, s.cls, h) ==> (i in h <==> s.cls[i] == Yes);
    }
  }

  // A forbidden edge at a vertex with an edge out, or a forced one at a vertex with two in.
  lemma NoRoomOut(gr: Graph, init: seq<Class>, s: Node, v: nat, w: nat, i: nat)
    requires SoundFrom(gr, init, s) && Tally(gr, s) && OpenEdge(gr, s, v, w, i) && init[i] == No && s.dout[v] != 0
    ensures Impossible(gr, init)
  {
    TallyRange(gr, s, v);
    forall h | gr.HamSet(h) ensures !Agrees(gr, init, h) {
      if Agrees(gr, init, h) { ForcedIn(gr, s, h, v, i); }
    }
  }

  lemma NoRoomIn(gr: Graph, init: seq<Class>, s: Node, v: nat, w: nat, i: nat)
    requires SoundFrom(gr, init, s) && Tally(gr, s) && OpenEdge(gr, s, v, w, i) && init[i] == Yes && s.din[v] >= 2
    ensures Impossible(gr, init)
  {
    forall h | gr.HamSet(h) ensures !Agrees(gr, init, h) {
      if Agrees(gr, init, h) {
        AgreeSlots(gr, s, h, v);
        ForcedOut(gr, s, h, v, i);
      }
    }
  }

  lemma SoundIn(gr: Graph, init: seq<Class>, s: Node, t: Node, i: nat)
    requires SoundFrom(gr, init, s) && SoundIf(gr, s, t, i) && i < gr.ne && init[i] == Yes
    ensures SoundFrom(gr, init, t)
  {
  }

  lemma SoundOut(gr: Graph, init: seq<Class>, s: Node, v: nat, w: nat, i: nat)
    requires SoundFrom(gr, init, s) && OpenEdge(gr, s, v, w, i) && init[i] == No
    ensures SoundFrom(gr, init, OutNode(s, v, w, i))
  {
  }

  lemma HopelessImpossible(gr: Graph, init: seq<Class>, s: Node)
    requires SoundFrom(gr, init, s) && Hopeless(gr, s)
    ensures Impossible(gr, init)
  {
  }

  // A change at v and w only keeps everything unsettled waiting once they wait.
  lemma PendingEnds(gr: Graph, s: Node, t: Node, v: nat, w: nat, was: set<nat>, now: set<nat>, next: set<nat>)
    requires Pending(gr, s, was) && Changed(gr, s, t, {v, w}, now) && was <= now && next == now + {v} + {w}
    ensures Pending(gr, t, next)
  {
    forall u | 0 <= u < gr.nv && Unsettled(t, u) ensures u in next {
      if t.dout[u] == s.dout[u] && t.din[u] == s.din[u] { assert Unsettled(s, u); }
    }
  }

  lemma OutEnds(gr: Graph, s: Node, v: nat, w: nat, en: nat, was: set<nat>, next: set<nat>)
    requires Pending(gr, s, was) && OpenEdge(gr, s, v, w, en) && next == was + {v} + {w}
    ensures Pending(gr, OutNode(s, v, w, en), next)
  {
    forall u | 0 <= u < gr.nv && Unsettled(OutNode(s, v, w, en), u) ensures u in next {
      if u != v && u != w { assert Unsettled(s, u); }
    }
  }

  // ---- The answer ----

  // The classes of the edges are consistent with the cycle c.
  ghost predicate Consistent(gr: Graph, init: seq<Class>, c: seq<nat>) {
    gr.Shape() && |init| >= gr.ne && |c| == gr.nv && Agrees(gr, init, gr.CycleEdges(c))
  }

  lemma NoCycle(gr: Graph, init: seq<Class>)
    requires gr.Ok() && Impossible(gr, init)
    ensures forall c :: gr.HamCycle(c) ==> !Consistent(gr, init, c)
  {
    forall c | gr.HamCycle(c) ensures !Consistent(gr, init, c) { CycleIsHamSet(gr, c); }
  }

  lemma LowImpossible(gr: Graph, init: seq<Class>, v: nat)
    requires gr.Ok() && v < gr.nv && gr.g[v][1] < 0 && |init| >= gr.ne
    ensures Impossible(gr, init)
  {
    LowDegree(gr, v);
  }

  lemma AllClassified(gr: Graph, s: Node, nin: int)
    requires Tally(gr, s) && CycleFormed(gr, s, nin) && Pending(gr, s, {})
    ensures forall e :: 0 <= e < gr.ne ==> s.cls[e] != Dunno
  {
    forall e | 0 <= e < gr.ne ensures s.cls[e] != Dunno {
      var v := gr.v1[e];
      var i := EdgeSlot(gr, e, v);
      assert TallyAt(gr, s, v) && !Unsettled(s, v);
      SlotEdge(gr, v, 0);
      SlotEdge(gr, v, 1);
      SlotEdge(gr, v, 2);
    }
  }

  // The walked cycle and the final classes say the same, and respect the initial classes.
  lemma Answer(gr: Graph, init: seq<Class>, s: Node, nin: int, c: seq<nat>)
    requires Tally(gr, s) && CycleFormed(gr, s, nin) && Pending(gr, s, {}) && Given(gr, init, s, gr.ne)
    requires Walk(gr, YesSet(gr, s.cls), c) && |c| == gr.nv
    ensures gr.HamCycle(c) && Consistent(gr, init, c)
    ensures forall e :: 0 <= e < gr.ne ==> s.cls[e] == if gr.OnCycle(c, e) then Yes else No
  {
    FormedIsHam(gr, s, nin);
    WalkIsCycle(gr, YesSet(gr, s.cls), c);
    AllClassified(gr, s, nin);
    forall e | 0 <= e < gr.ne ensures s.cls[e] == if gr.OnCycle(c, e) then Yes else No {
      assert e in gr.CycleEdges(c) <==> gr.OnCycle(c, e);
    }
  }

  lemma WalkFrom(gr: Graph, s: Node, nin: int)
    requires Tally(gr, s) && CycleFormed(gr, s, nin) && gr.nv > 0
    ensures gr.HamSet(YesSet(gr, s.cls)) && Walk(gr, YesSet(gr, s.cls), [0])
  {
    FormedIsHam(gr, s, nin);
  }

  // Slot i of v leads on and not back to w.
  predicate TakesSlot(gr: Graph, s: Node, v: nat, i: nat, w: int)
    requires v < |gr.g| && v < |gr.eno| && i < |gr.g[v]| && i < |gr.eno[v]|
  {
    gr.g[v][i] != w && gr.eno[v][i] < |s.cls| && s.cls[gr.eno[v][i]] == Yes
  }

  // The slot the walk takes next.
  lemma WalkSlot(gr: Graph, s: Node, c: seq<nat>, v: nat, w: int)
    requires |c| > 0 && v == c[|c| - 1]
    requires gr.Ok() && |s.cls| == gr.ne + 1 && gr.HamSet(YesSet(gr, s.cls)) && Walk(gr, YesSet(gr, s.cls), c)
    ensures exists i :: 0 <= i < 3 && TakesSlot(gr, s, v, i, w)
    ensures v < gr.nv && forall k :: 0 <= k < 3 ==> gr.eno[v][k] <= gr.ne
  {
    SlotEdge(gr, v, 0);
    SlotEdge(gr, v, 1);
    SlotEdge(gr, v, 2);
    StepExists(gr, YesSet(gr, s.cls), v, w);
    var i :| 0 <= i < 3 && gr.g[v][i] != w && gr.eno[v][i] in YesSet(gr, s.cls) && gr.g[v][i] >= 0;
    assert TakesSlot(gr, s, v, i, w);
  }

  lemma WalkOn(gr: Graph, s: Node, c: seq<nat>, j: nat, w: int)
    requires Tally(gr, s) && gr.HamSet(YesSet(gr, s.cls)) && Walk(gr, YesSet(gr, s.cls), c) && |c| < gr.nv
    requires j < 3 && w == if |c| > 1 then c[|c| - 2] else -1
    requires TakesSlot(gr, s, c[|c| - 1], j, w)
    ensures 0 <= gr.g[c[|c| - 1]][j] && Walk(gr, YesSet(gr, s.cls), c + [gr.g[c[|c| - 1]][j]])
  {
    var v := c[|c| - 1];
    SlotEdge(gr, v, j);
    SlotEdge(gr, v, 1);
    assert TallyAt(gr, s, v);
    assert gr.eno[v][j] in YesSet(gr, s.cls);
    WalkStep(gr, YesSet(gr, s.cls), c, gr.g[v][j]);
  }
}
