// Classified edges: counts, path ends, and which Hamiltonian cycles a classification leaves.
module CubState {
  import opened Counting
  import opened CubGraph
  import opened CubCycles

  // class, din, dout and farend of the source.
  datatype Node = Node(cls: seq<Class>, din: seq<int>, dout: seq<int>, farend: seq<int>)

  ghost predicate Sized(gr: Graph, s: Node) {
    gr.Shape() && |s.cls| == gr.ne + 1 && |s.din| == |s.dout| == |s.farend| == gr.nv
  }

  // The number of slots of v whose edges have class k; padding counts as edge ne.
  ghost function Count(gr: Graph, cls: seq<Class>, v: nat, k: Class): nat
    requires gr.Ok() && |cls| == gr.ne + 1 && v < gr.nv
  {
    SlotEdge(gr, v, 0);
    SlotEdge(gr, v, 1);
    SlotEdge(gr, v, 2);
    gr.Bit(cls[gr.eno[v][0]] == k) + gr.Bit(cls[gr.eno[v][1]] == k) + gr.Bit(cls[gr.eno[v][2]] == k)
  }

  ghost predicate TallyAt(gr: Graph, s: Node, v: nat)
    requires gr.Ok() && Sized(gr, s) && v < gr.nv
  {
    && s.din[v] == Count(gr, s.cls, v, Yes) && s.dout[v] == Count(gr, s.cls, v, No)
    && 0 <= s.farend[v] < gr.nv
    && (gr.g[v][2] < 0 ==> s.cls[gr.ne] == No)
  }

  ghost predicate Tally(gr: Graph, s: Node) {
    gr.Ok() && Sized(gr, s) && forall v :: 0 <= v < gr.nv ==> TallyAt(gr, s, v)
  }

  // ---- Classifying an edge ----

  function OutNode(s: Node, v: nat, w: nat, en: nat): Node
    requires v < |s.dout| && w < |s.dout| && en < |s.cls|
  {
    s.(dout := s.dout[v := s.dout[v] + 1][w := s.dout[w] + 1], cls := s.cls[en := No])
  }

  function InNode(s: Node, v: nat, w: nat, en: nat): Node
    requires v < |s.din| && w < |s.din| && en < |s.cls|
  {
    s.(din := s.din[v := s.din[v] + 1][w := s.din[w] + 1], cls := s.cls[en := Yes])
  }

  function FarNode(s: Node, x: nat, y: nat): Node
    requires x < |s.farend| && y < |s.farend|
  {
    s.(farend := s.farend[x := y][y := x])
  }

  // An unclassified edge between v and w.
  ghost predicate OpenEdge(gr: Graph, s: Node, v: nat, w: nat, en: nat) {
    Sized(gr, s) && v < gr.nv && w < gr.nv && v != w && en < gr.ne && gr.Joins(en, v, w) && s.cls[en] == Dunno
  }

  lemma CountNew(gr: Graph, cls: seq<Class>, en: nat, u: nat, c: Class, k: Class)
    requires gr.Ok() && |cls| == gr.ne + 1 && en < gr.ne && cls[en] == Dunno && u < gr.nv && c != Dunno && k != Dunno
    ensures Count(gr, cls[en := c], u, k) ==
      Count(gr, cls, u, k) + if c == k && (gr.v1[en] == u || gr.v2[en] == u) then 1 else 0
  {
    SlotEdge(gr, u, 0);
    SlotEdge(gr, u, 1);
    SlotEdge(gr, u, 2);
    if gr.v1[en] == u || gr.v2[en] == u {
      var i := EdgeSlot(gr, en, u);
    }
  }

  lemma TallyOut(gr: Graph, s: Node, v: nat, w: nat, en: nat)
    requires Tally(gr, s) && OpenEdge(gr, s, v, w, en)
    ensures Tally(gr, OutNode(s, v, w, en))
  {
    hide Count;
    var t := OutNode(s, v, w, en);
    forall u | 0 <= u < gr.nv ensures TallyAt(gr, t, u) {
      assert TallyAt(gr, s, u);
      CountNew(gr, s.cls, en, u, No, Yes);
      CountNew(gr, s.cls, en, u, No, No);
    }
  }

  lemma TallyIn(gr: Graph, s: Node, v: nat, w: nat, en: nat)
    requires Tally(gr, s) && OpenEdge(gr, s, v, w, en)
    ensures Tally(gr, InNode(s, v, w, en))
  {
    hide Count;
    var t := InNode(s, v, w, en);
    forall u | 0 <= u < gr.nv ensures TallyAt(gr, t, u) {
      assert TallyAt(gr, s, u);
      CountNew(gr, s.cls, en, u, Yes, Yes);
      CountNew(gr, s.cls, en, u, Yes, No);
    }
  }

  lemma TallyFar(gr: Graph, s: Node, x: nat, y: nat)
    requires Tally(gr, s) && x < gr.nv && y < gr.nv
    ensures Tally(gr, FarNode(s, x, y))
  {
    hide Count;
    forall u | 0 <= u < gr.nv ensures TallyAt(gr, FarNode(s, x, y), u) { assert TallyAt(gr, s, u); }
  }

  // The counts are those of the three slots.
  lemma TallyRange(gr: Graph, s: Node, v: nat)
    requires Tally(gr, s) && v < gr.nv
    ensures 0 <= s.din[v] && 0 <= s.dout[v] && s.din[v] + s.dout[v] <= 3
  {
    assert TallyAt(gr, s, v);
  }

  // ---- Cycles that agree with the classes ----

  lemma AgreeSlots(gr: Graph, s: Node, h: set<nat>, v: nat)
    requires Tally(gr, s) && gr.HamSet(h) && Agrees(gr, s.cls, h) && v < gr.nv
    ensures s.din[v] <= 2 && s.dout[v] <= 1
    ensures s.din[v] == 2 ==> forall i :: 0 <= i < 3 && gr.eno[v][i] in h ==> s.cls[gr.eno[v][i]] == Yes
  {
    assert TallyAt(gr, s, v) && gr.Degree(h, v) == 2;
    SlotEdge(gr, v, 0);
    SlotEdge(gr, v, 1);
    SlotEdge(gr, v, 2);
  }

  // A vertex with one edge in has one more edge of the cycle.
  lemma OneMore(gr: Graph, s: Node, h: set<nat>, v: nat, i: nat, j: nat)
    requires Tally(gr, s) && gr.HamSet(h) && Agrees(gr, s.cls, h) && v < gr.nv && s.din[v] >= 1
    requires i < 3 && j < 3 && gr.eno[v][i] in h && s.cls[gr.eno[v][i]] != Yes && gr.eno[v][j] in h
    requires s.cls[gr.eno[v][j]] != Yes
    ensures i == j
  {
    assert TallyAt(gr, s, v) && gr.Degree(h, v) == 2;
    SlotEdge(gr, v, 0);
    SlotEdge(gr, v, 1);
    SlotEdge(gr, v, 2);
  }

  // The third edge at a vertex with two edges in is out; the others at a vertex with one edge out are in.
  lemma ForcedOut(gr: Graph, s: Node, h: set<nat>, v: nat, en: nat)
    requires Tally(gr, s) && gr.HamSet(h) && Agrees(gr, s.cls, h) && v < gr.nv && s.din[v] == 2
    requires en < gr.ne && s.cls[en] == Dunno && (gr.v1[en] == v || gr.v2[en] == v)
    ensures en !in h
  {
    AgreeSlots(gr, s, h, v);
    var i := EdgeSlot(gr, en, v);
  }

  lemma ForcedIn(gr: Graph, s: Node, h: set<nat>, v: nat, en: nat)
    requires Tally(gr, s) && gr.HamSet(h) && Agrees(gr, s.cls, h) && v < gr.nv && s.dout[v] >= 1
    requires en < gr.ne && s.cls[en] == Dunno && (gr.v1[en] == v || gr.v2[en] == v)
    ensures en in h
  {
    assert TallyAt(gr, s, v) && gr.Degree(h, v) == 2;
    SlotEdge(gr, v, 0);
    SlotEdge(gr, v, 1);
    SlotEdge(gr, v, 2);
    var i := EdgeSlot(gr, en, v);
  }

  // A vertex with an unclassified edge and no edge out excludes one of its unclassified edges.
  lemma OneExcluded(gr: Graph, s: Node, h: set<nat>, v: nat)
    requires Tally(gr, s) && gr.HamSet(h) && Agrees(gr, s.cls, h) && v < gr.nv && s.dout[v] == 0
    ensures exists i :: 0 <= i < 3 && gr.eno[v][i] < gr.ne && s.cls[gr.eno[v][i]] == Dunno && gr.eno[v][i] !in h
  {
    assert TallyAt(gr, s, v) && gr.Degree(h, v) == 2;
    SlotEdge(gr, v, 0);
    SlotEdge(gr, v, 1);
    SlotEdge(gr, v, 2);
    var i := if gr.eno[v][0] !in h then 0 else if gr.eno[v][1] !in h then 1 else 2;
    assert gr.eno[v][i] !in h && gr.eno[v][i] < gr.ne && s.cls[gr.eno[v][i]] == Dunno;
  }

  // ---- The paths formed by the edges in ----

  ghost function YesSet(gr: Graph, cls: seq<Class>): set<nat>
    requires |cls| == gr.ne + 1
  {
    set e | 0 <= e < gr.ne && cls[e] == Yes
  }

  // comp names the component of every vertex by one of its ends.
  ghost predicate LabelOk(gr: Graph, s: Node, comp: seq<nat>, v: nat)
    requires Sized(gr, s) && |comp| == gr.nv && v < gr.nv
  {
    comp[v] < gr.nv && comp[comp[v]] == comp[v] && s.din[comp[v]] <= 1
  }

  // v is inside a path, alone, or an end whose partner is farend[v].
  ghost predicate EndOk(gr: Graph, s: Node, comp: seq<nat>, v: nat)
    requires Sized(gr, s) && |comp| == gr.nv && v < gr.nv
  {
    var f := s.farend[v];
    && s.din[v] <= 2 && 0 <= f < gr.nv
    && (s.din[v] == 0 ==> f == v)
    && (s.din[v] == 1 ==> f != v && s.din[f] == 1 && s.farend[f] == v && comp[f] == comp[v])
    && (s.din[v] < 2 ==> forall u :: 0 <= u < gr.nv && comp[u] == comp[v] && (s.din[v] == 0 || s.din[u] < 2) ==>
        u == v || u == f)
  }

  ghost predicate Spanned(gr: Graph, cls: seq<Class>, comp: seq<nat>)
    requires gr.Shape() && |cls| == gr.ne + 1 && |comp| == gr.nv
  {
    && (forall e :: 0 <= e < gr.ne && cls[e] == Yes ==>
        gr.v1[e] < gr.nv && gr.v2[e] < gr.nv && comp[gr.v1[e]] == comp[gr.v2[e]])
    && (forall t: set<nat> :: gr.ClosedUnder(YesSet(gr, cls), t) ==> Respects(comp, t))
  }

  ghost predicate Respects(comp: seq<nat>, t: set<nat>) {
    forall x, y :: 0 <= x < |comp| && 0 <= y < |comp| && comp[x] == comp[y] ==> (x in t <==> y in t)
  }

  // The nin edges in form vertex-disjoint paths.
  ghost predicate Paths(gr: Graph, s: Node, comp: seq<nat>, nin: int) {
    && Sized(gr, s) && |comp| == gr.nv && nin + |Members(comp)| == gr.nv
    && (forall v :: 0 <= v < gr.nv ==> LabelOk(gr, s, comp, v) && EndOk(gr, s, comp, v))
    && Spanned(gr, s.cls, comp)
  }

  ghost predicate SamePath(gr: Graph, comp: seq<nat>, e: nat)
    requires gr.Shape() && e < gr.ne && |comp| == gr.nv
  {
    gr.v1[e] < gr.nv && gr.v2[e] < gr.nv && comp[gr.v1[e]] == comp[gr.v2[e]]
  }

  // No unclassified edge but possibly x-y joins the two ends of a path.
  ghost predicate Unjoined(gr: Graph, s: Node, comp: seq<nat>, x: int, y: int)
    requires Sized(gr, s) && |comp| == gr.nv
  {
    forall e :: 0 <= e < gr.ne && s.cls[e] == Dunno && !gr.Joins(e, x, y) && SamePath(gr, comp, e) ==>
      s.din[gr.v1[e]] == 2 || s.din[gr.v2[e]] == 2
  }

  // The edges in form a Hamiltonian cycle.
  ghost predicate CycleFormed(gr: Graph, s: Node, nin: int) {
    && Sized(gr, s) && nin == gr.nv && gr.Connected(YesSet(gr, s.cls))
    && forall v :: 0 <= v < gr.nv ==> s.din[v] == 2
  }

  ghost predicate Live(gr: Graph, s: Node, comp: seq<nat>, nin: int) {
    (Paths(gr, s, comp, nin) && Unjoined(gr, s, comp, -1, -1)) || CycleFormed(gr, s, nin)
  }

  // Some vertex has three edges in: no Hamiltonian cycle agrees with the classes.
  ghost predicate Doomed(s: Node) {
    exists v :: 0 <= v < |s.din| && s.din[v] >= 3
  }

  lemma DoomedNone(gr: Graph, s: Node, h: set<nat>)
    requires Tally(gr, s) && Doomed(s) && gr.HamSet(h)
    ensures !Agrees(gr, s.cls, h)
  {
    var v :| 0 <= v < |s.din| && s.din[v] >= 3;
    if Agrees(gr, s.cls, h) { AgreeSlots(gr, s, h, v); }
  }

  // ---- Joining two paths ----

  function Merged(comp: seq<nat>, a: nat, b: nat, c: nat): (r: seq<nat>)
    ensures |r| == |comp| && forall u :: 0 <= u < |r| ==> r[u] == if comp[u] == a || comp[u] == b then c else comp[u]
  {
    seq(|comp|, u requires 0 <= u < |comp| => if comp[u] == a || comp[u] == b then c else comp[u])
  }

  // The state after edge en has joined the paths that end in v and in w.
  ghost predicate Joining(gr: Graph, s: Node, comp: seq<nat>, nin: int, v: nat, w: nat, en: nat) {
    Tally(gr, s) && Paths(gr, s, comp, nin) && OpenEdge(gr, s, v, w, en) && s.din[v] < 2 && s.din[w] < 2 &&
    comp[v] != comp[w]
  }

  function Joined(s: Node, v: nat, w: nat, en: nat): Node
    requires v < |s.din| && w < |s.din| && en < |s.cls| && v < |s.farend| && w < |s.farend|
    requires 0 <= s.farend[v] < |s.farend| && 0 <= s.farend[w] < |s.farend|
  {
    FarNode(InNode(s, v, w, en), s.farend[v], s.farend[w])
  }

  lemma JoinEnds(gr: Graph, s: Node, comp: seq<nat>, nin: int, v: nat, w: nat, en: nat)
    requires Joining(gr, s, comp, nin, v, w, en)
    ensures 0 <= s.farend[v] < gr.nv && 0 <= s.farend[w] < gr.nv
    ensures comp[s.farend[v]] == comp[v] && comp[s.farend[w]] == comp[w] && s.farend[v] != s.farend[w]
    ensures s.farend[v] != w && s.farend[w] != v && 0 <= s.din[v] && 0 <= s.din[w]
    ensures var t := Joined(s, v, w, en); t.din[s.farend[v]] == 1 && t.din[s.farend[w]] == 1
    ensures forall u :: 0 <= u < gr.nv && comp[u] == comp[v] && s.din[u] < 2 ==> u == v || u == s.farend[v]
    ensures forall u :: 0 <= u < gr.nv && comp[u] == comp[w] && s.din[u] < 2 ==> u == w || u == s.farend[w]
    ensures s.din[v] == 0 ==> forall u :: 0 <= u < gr.nv && comp[u] == comp[v] ==> u == v
    ensures s.din[w] == 0 ==> forall u :: 0 <= u < gr.nv && comp[u] == comp[w] ==> u == w
  {
    hide Spanned, gr.Ok;
    TallyRange(gr, s, v);
    TallyRange(gr, s, w);
    assert EndOk(gr, s, comp, v) && EndOk(gr, s, comp, w);
  }

  // What merging does to the names of the components.
  lemma JoinLabels(gr: Graph, s: Node, comp: seq<nat>, nin: int, v: nat, w: nat, en: nat)
    requires Joining(gr, s, comp, nin, v, w, en)
    ensures 0 <= s.farend[v] < gr.nv && 0 <= s.farend[w] < gr.nv
    ensures var comp' := Merged(comp, comp[v], comp[w], s.farend[v]);
      && (forall u :: 0 <= u < gr.nv ==> LabelOk(gr, Joined(s, v, w, en), comp', u))
      && (forall x :: 0 <= x < gr.nv ==> (comp'[x] == s.farend[v] <==> comp[x] == comp[v] || comp[x] == comp[w]))
      && nin + 1 + |Members(comp')| == gr.nv
  {
    hide Spanned, EndOk, Tally;
    JoinEnds(gr, s, comp, nin, v, w, en);
    var fv := s.farend[v];
    var comp' := Merged(comp, comp[v], comp[w], fv);
    forall x | 0 <= x < gr.nv ensures comp'[x] == fv <==> comp[x] == comp[v] || comp[x] == comp[w] {
      assert LabelOk(gr, s, comp, x);
    }
    forall u | 0 <= u < gr.nv ensures LabelOk(gr, Joined(s, v, w, en), comp', u) {
      assert LabelOk(gr, s, comp, u);
    }
    JoinCount(gr, s, comp, nin, v, w, en);
  }

  lemma JoinCount(gr: Graph, s: Node, comp: seq<nat>, nin: int, v: nat, w: nat, en: nat)
    requires Joining(gr, s, comp, nin, v, w, en)
    ensures 0 <= s.farend[v] < gr.nv && 0 <= s.farend[w] < gr.nv
    ensures nin + 1 + |Members(Merged(comp, comp[v], comp[w], s.farend[v]))| == gr.nv
  {
    hide Spanned, EndOk, Tally, Members, Merged;
    JoinEnds(gr, s, comp, nin, v, w, en);
    forall x | 0 <= x < |comp| && comp[x] == s.farend[v] ensures comp[x] == comp[v] || comp[x] == comp[w] {
      assert LabelOk(gr, s, comp, x);
    }
    MergedCount(comp, v, w, s.farend[v]);
  }

  // Two names become one.
  lemma MergedCount(comp: seq<nat>, v: nat, w: nat, f: nat)
    requires v < |comp| && w < |comp| && comp[v] != comp[w]
    requires forall x :: 0 <= x < |comp| && comp[x] == f ==> comp[x] == comp[v] || comp[x] == comp[w]
    ensures |Members(Merged(comp, comp[v], comp[w], f))| + 1 == |Members(comp)|
  {
    var comp' := Merged(comp, comp[v], comp[w], f);
    forall l ensures l in Members(comp') <==> l in Members(comp) - {comp[v], comp[w]} + {f} {
      if l in Members(comp') {
        var x :| 0 <= x < |comp'| && comp'[x] == l;
        assert comp[x] in comp;
      }
      if l in Members(comp) - {comp[v], comp[w]} {
        var x :| 0 <= x < |comp| && comp[x] == l;
        assert comp'[x] == l;
      }
      if l == f { assert comp'[v] == f; }
    }
    assert Members(comp') == Members(comp) - {comp[v], comp[w]} + {f};
    assert comp[v] in Members(comp) && comp[w] in Members(comp) && f !in Members(comp) - {comp[v], comp[w]};
  }

  lemma JoinEndOk(gr: Graph, s: Node, comp: seq<nat>, nin: int, v: nat, w: nat, en: nat, u: nat)
    requires Joining(gr, s, comp, nin, v, w, en) && u < gr.nv
    ensures 0 <= s.farend[v] < gr.nv && 0 <= s.farend[w] < gr.nv
    ensures EndOk(gr, Joined(s, v, w, en), Merged(comp, comp[v], comp[w], s.farend[v]), u)
  {
    hide Spanned, LabelOk, Tally;
    JoinEnds(gr, s, comp, nin, v, w, en);
    JoinLabels(gr, s, comp, nin, v, w, en);
    TallyRange(gr, s, u);
    assert EndOk(gr, s, comp, u);
    var t, comp' := Joined(s, v, w, en), Merged(comp, comp[v], comp[w], s.farend[v]);
    if comp[u] == comp[v] || comp[u] == comp[w] {
      assert t.din[u] < 2 ==> u == s.farend[v] || u == s.farend[w];
    } else {
      var f := s.farend[u];
      assert s.din[u] < 2 ==> t.farend[u] == f && t.din[f] == s.din[f];
    }
  }

  lemma JoinSpanned(gr: Graph, s: Node, comp: seq<nat>, nin: int, v: nat, w: nat, en: nat)
    requires Joining(gr, s, comp, nin, v, w, en)
    ensures 0 <= s.farend[v] < gr.nv && 0 <= s.farend[w] < gr.nv
    ensures Spanned(gr, Joined(s, v, w, en).cls, Merged(comp, comp[v], comp[w], s.farend[v]))
  {
    hide LabelOk, EndOk, Tally;
    JoinEnds(gr, s, comp, nin, v, w, en);
    JoinLabels(gr, s, comp, nin, v, w, en);
    var t, comp' := Joined(s, v, w, en), Merged(comp, comp[v], comp[w], s.farend[v]);
    forall q: set<nat> | gr.ClosedUnder(YesSet(gr, t.cls), q) ensures Respects(comp', q) {
      assert forall e :: e in YesSet(gr, s.cls) ==> e in YesSet(gr, t.cls);
      assert gr.ClosedUnder(YesSet(gr, s.cls), q);
      assert Respects(comp, q);
      assert en in YesSet(gr, t.cls);
      assert v in q <==> w in q;
    }
  }

  lemma JoinUnjoined(gr: Graph, s: Node, comp: seq<nat>, nin: int, v: nat, w: nat, en: nat)
    requires Joining(gr, s, comp, nin, v, w, en) && Unjoined(gr, s, comp, -1, -1)
    ensures 0 <= s.farend[v] < gr.nv && 0 <= s.farend[w] < gr.nv
    ensures Unjoined(gr, Joined(s, v, w, en), Merged(comp, comp[v], comp[w], s.farend[v]), s.farend[v], s.farend[w])
  {
    JoinEnds(gr, s, comp, nin, v, w, en);
    JoinLabels(gr, s, comp, nin, v, w, en);
    var t, comp' := Joined(s, v, w, en), Merged(comp, comp[v], comp[w], s.farend[v]);
    forall e | 0 <= e < gr.ne && t.cls[e] == Dunno && !gr.Joins(e, s.farend[v], s.farend[w]) && SamePath(gr, comp', e)
      ensures t.din[gr.v1[e]] == 2 || t.din[gr.v2[e]] == 2
    {
      JoinEndOk(gr, s, comp, nin, v, w, en, gr.v1[e]);
      JoinEndOk(gr, s, comp, nin, v, w, en, gr.v2[e]);
      hide Spanned, LabelOk, Tally;
      var x, y := gr.v1[e], gr.v2[e];
      if comp[x] == comp[v] || comp[x] == comp[w] {
        assert t.din[x] < 2 ==> x == s.farend[v] || x == s.farend[w];
        assert t.din[y] < 2 ==> y == s.farend[v] || y == s.farend[w];
      }
    }
  }

  lemma JoinPaths(gr: Graph, s: Node, comp: seq<nat>, nin: int, v: nat, w: nat, en: nat)
    requires Joining(gr, s, comp, nin, v, w, en)
    ensures 0 <= s.farend[v] < gr.nv && 0 <= s.farend[w] < gr.nv
    ensures Paths(gr, Joined(s, v, w, en), Merged(comp, comp[v], comp[w], s.farend[v]), nin + 1)
  {
    JoinEnds(gr, s, comp, nin, v, w, en);
    JoinLabels(gr, s, comp, nin, v, w, en);
    JoinSpanned(gr, s, comp, nin, v, w, en);
    forall u | 0 <= u < gr.nv ensures EndOk(gr, Joined(s, v, w, en), Merged(comp, comp[v], comp[w], s.farend[v]), u) {
      JoinEndOk(gr, s, comp, nin, v, w, en, u);
    }
    hide Spanned, EndOk, LabelOk, Tally, Members;
  }

  // ---- The edge between the two ends of a new path ----

  lemma OneComponent(comp: seq<nat>, x: nat, y: nat)
    requires |Members(comp)| == 1 && x < |comp| && y < |comp|
    ensures comp[x] == comp[y]
  {
    assert comp[x] in Members(comp) && comp[y] in Members(comp);
    if comp[x] != comp[y] {
      SizeMonotone({comp[x], comp[y]}, Members(comp));
    }
  }

  lemma OneMember(comp: seq<nat>)
    requires |comp| > 0 && forall x, y :: 0 <= x < |comp| && 0 <= y < |comp| ==> comp[x] == comp[y]
    ensures |Members(comp)| == 1
  {
    assert Members(comp) == {comp[0]};
  }

  // The ends of a path and an unclassified edge between them.
  ghost predicate Chord(gr: Graph, s: Node, comp: seq<nat>, nin: int, x: nat, y: nat, c: nat) {
    && Tally(gr, s) && Paths(gr, s, comp, nin) && OpenEdge(gr, s, x, y, c)
    && comp[x] == comp[y] && s.din[x] == 1 && s.din[y] == 1
  }

  // A cycle that contains the edge leaves the path only at its ends, so the path is everything.
  lemma ChordClosed(gr: Graph, s: Node, comp: seq<nat>, nin: int, x: nat, y: nat, c: nat, h: set<nat>, t: set<nat>,
                    e: nat)
    requires Chord(gr, s, comp, nin, x, y, c) && gr.HamSet(h) && Agrees(gr, s.cls, h) && c in h
    requires forall v: nat :: v in t <==> v < gr.nv && comp[v] == comp[x]
    requires e in h && e < gr.ne
    ensures gr.v1[e] in t <==> gr.v2[e] in t
  {
    assert EndOk(gr, s, comp, x);
    if s.cls[e] != Yes && e != c {
      ChordEnd(gr, s, comp, nin, x, y, c, h, e, gr.v1[e]);
      ChordEnd(gr, s, comp, nin, x, y, c, h, e, gr.v2[e]);
    }
  }

  lemma ChordEnd(gr: Graph, s: Node, comp: seq<nat>, nin: int, x: nat, y: nat, c: nat, h: set<nat>, e: nat, u: nat)
    requires Chord(gr, s, comp, nin, x, y, c) && gr.HamSet(h) && Agrees(gr, s.cls, h) && c in h
    requires e in h && e < gr.ne && s.cls[e] != Yes && e != c && (gr.v1[e] == u || gr.v2[e] == u) && u < gr.nv
    ensures comp[u] != comp[x]
  {
    AgreeSlots(gr, s, h, u);
    TallyRange(gr, s, u);
    var i := EdgeSlot(gr, e, u);
    assert s.din[u] < 2;
    if comp[u] == comp[x] {
      assert EndOk(gr, s, comp, x);
      assert u == x || u == y;
      var j := EdgeSlot(gr, c, u);
      OneMore(gr, s, h, u, i, j);
    }
  }

  lemma ChordOut(gr: Graph, s: Node, comp: seq<nat>, nin: int, x: nat, y: nat, c: nat, h: set<nat>)
    requires Chord(gr, s, comp, nin, x, y, c) && gr.HamSet(h) && Agrees(gr, s.cls, h) && nin != gr.nv - 1
    ensures c !in h
  {
    if c in h {
      var t := set v: nat | v in Range(gr.nv) && comp[v] == comp[x];
      forall e | e in h && e < gr.ne ensures gr.v1[e] in t <==> gr.v2[e] in t {
        ChordClosed(gr, s, comp, nin, x, y, c, h, t, e);
      }
      assert gr.ClosedUnder(h, t);
      assert gr.SameSide(t) && x in t;
      forall v | 0 <= v < gr.nv ensures comp[v] == comp[x] { assert v in t; }
      OneMember(comp);
    }
  }

  // On a path through all vertices the cycle has to use it.
  lemma ChordIn(gr: Graph, s: Node, comp: seq<nat>, nin: int, x: nat, y: nat, c: nat, h: set<nat>)
    requires Chord(gr, s, comp, nin, x, y, c) && gr.HamSet(h) && Agrees(gr, s.cls, h) && nin == gr.nv - 1
    ensures c in h
  {
    var i := SecondSlot(gr, s, h, x);
    SlotEdge(gr, x, i);
    var e := gr.eno[x][i];
    var z := gr.g[x][i];
    AgreeSlots(gr, s, h, z);
    TallyRange(gr, s, z);
    var j := EdgeSlot(gr, e, z);
    assert s.din[z] < 2;
    OneComponent(comp, x, z);
    assert EndOk(gr, s, comp, x);
    assert z == y;
    SimpleGraph(gr, c, e);
  }

  lemma SecondSlot(gr: Graph, s: Node, h: set<nat>, x: nat) returns (i: nat)
    requires Tally(gr, s) && gr.HamSet(h) && Agrees(gr, s.cls, h) && x < gr.nv && s.din[x] == 1
    ensures i < 3 && gr.eno[x][i] in h && gr.eno[x][i] < gr.ne && s.cls[gr.eno[x][i]] != Yes
  {
    assert TallyAt(gr, s, x) && gr.Degree(h, x) == 2;
    SlotEdge(gr, x, 0);
    SlotEdge(gr, x, 1);
    SlotEdge(gr, x, 2);
    i := if gr.eno[x][0] in h && s.cls[gr.eno[x][0]] != Yes then 0
         else if gr.eno[x][1] in h && s.cls[gr.eno[x][1]] != Yes then 1 else 2;
  }

  // Taking it out leaves no unclassified edge between two ends of a path.
  lemma ChordTakenOut(gr: Graph, s: Node, comp: seq<nat>, nin: int, x: nat, y: nat, c: nat)
    requires Chord(gr, s, comp, nin, x, y, c) && Unjoined(gr, s, comp, x, y)
    ensures Live(gr, OutNode(s, x, y, c), comp, nin)
  {
    OutPaths(gr, s, comp, nin, x, y, c);
    var t := OutNode(s, x, y, c);
    forall e | 0 <= e < gr.ne && t.cls[e] == Dunno && SamePath(gr, comp, e)
      ensures t.din[gr.v1[e]] == 2 || t.din[gr.v2[e]] == 2
    {
      if gr.Joins(e, x, y) { SimpleGraph(gr, c, e); }
    }
  }

  lemma OutPaths(gr: Graph, s: Node, comp: seq<nat>, nin: int, v: nat, w: nat, en: nat)
    requires Paths(gr, s, comp, nin) && OpenEdge(gr, s, v, w, en)
    ensures Paths(gr, OutNode(s, v, w, en), comp, nin)
  {
    hide Members;
    var t := OutNode(s, v, w, en);
    assert YesSet(gr, t.cls) == YesSet(gr, s.cls);
    assert forall u :: 0 <= u < gr.nv && LabelOk(gr, s, comp, u) ==> LabelOk(gr, t, comp, u);
    assert forall u :: 0 <= u < gr.nv && EndOk(gr, s, comp, u) ==> EndOk(gr, t, comp, u);
  }

  lemma OutLive(gr: Graph, s: Node, comp: seq<nat>, nin: int, v: nat, w: nat, en: nat)
    requires Live(gr, s, comp, nin) && OpenEdge(gr, s, v, w, en)
    ensures Live(gr, OutNode(s, v, w, en), comp, nin)
  {
    var t := OutNode(s, v, w, en);
    assert YesSet(gr, t.cls) == YesSet(gr, s.cls);
    if !CycleFormed(gr, s, nin) {
      OutPaths(gr, s, comp, nin, v, w, en);
      hide Paths;
      assert Unjoined(gr, t, comp, -1, -1);
    }
  }

  // Without such an edge, or when it is classified already, there is nothing to do.
  lemma NoChord(gr: Graph, s: Node, comp: seq<nat>, nin: int, x: nat, y: nat)
    requires gr.Ok() && Paths(gr, s, comp, nin) && Unjoined(gr, s, comp, x, y)
    requires forall e :: 0 <= e < gr.ne && gr.Joins(e, x, y) ==> s.cls[e] != Dunno
    ensures Live(gr, s, comp, nin)
  {
    hide Paths;
  }

  // The last edge of the cycle.
  lemma Closing(gr: Graph, s: Node, comp: seq<nat>, nin: int, x: nat, y: nat, c: nat)
    requires Chord(gr, s, comp, nin, x, y, c) && nin == gr.nv - 1
    ensures CycleFormed(gr, InNode(s, x, y, c), nin + 1)
  {
    var t := InNode(s, x, y, c);
    forall u | 0 <= u < gr.nv ensures t.din[u] == 2 {
      OneComponent(comp, x, u);
      TallyRange(gr, s, u);
      assert EndOk(gr, s, comp, x) && EndOk(gr, s, comp, u);
    }
    forall q: set<nat> | gr.ClosedUnder(YesSet(gr, t.cls), q) ensures gr.SameSide(q) {
      assert forall e :: e in YesSet(gr, s.cls) ==> e in YesSet(gr, t.cls);
      assert gr.ClosedUnder(YesSet(gr, s.cls), q);
      assert Respects(comp, q);
      forall a, b | 0 <= a < gr.nv && 0 <= b < gr.nv ensures a in q <==> b in q { OneComponent(comp, a, b); }
    }
  }

  // With no unclassified edge between path ends, an edge in joins two paths or spoils a vertex.
  lemma JoinsOrDooms(gr: Graph, s: Node, comp: seq<nat>, nin: int, v: nat, w: nat, en: nat)
    requires Tally(gr, s) && Live(gr, s, comp, nin) && OpenEdge(gr, s, v, w, en)
    ensures (Joining(gr, s, comp, nin, v, w, en) && Unjoined(gr, s, comp, -1, -1) && nin + 1 < gr.nv) ||
      Doomed(InNode(s, v, w, en))
  {
    var t := InNode(s, v, w, en);
    if CycleFormed(gr, s, nin) || s.din[v] >= 2 {
      assert t.din[v] >= 3;
    } else if s.din[w] >= 2 {
      assert t.din[w] >= 3;
    } else {
      assert comp[v] != comp[w];
      SizeMonotone({comp[v], comp[w]}, Members(comp));
    }
  }

  lemma DoomedStays(gr: Graph, s: Node, v: nat, w: nat, en: nat)
    requires Doomed(s) && OpenEdge(gr, s, v, w, en)
    ensures Doomed(InNode(s, v, w, en)) && Doomed(OutNode(s, v, w, en))
  {
    var u :| 0 <= u < |s.din| && s.din[u] >= 3;
    assert InNode(s, v, w, en).din[u] >= 3 && OutNode(s, v, w, en).din[u] >= 3;
  }

  // ---- Reading off the answer ----

  lemma FormedIsHam(gr: Graph, s: Node, nin: int)
    requires Tally(gr, s) && CycleFormed(gr, s, nin)
    ensures gr.HamSet(YesSet(gr, s.cls)) && Agrees(gr, s.cls, YesSet(gr, s.cls))
  {
    var h := YesSet(gr, s.cls);
    forall v | 0 <= v < gr.nv ensures gr.Degree(h, v) == 2 {
      assert TallyAt(gr, s, v);
      SlotEdge(gr, v, 0);
      SlotEdge(gr, v, 1);
      SlotEdge(gr, v, 2);
    }
  }

  // With all vertices settled and no end of a path, nothing has been put in.
  lemma NoEnds(gr: Graph, s: Node, comp: seq<nat>, nin: int, v: nat)
    requires Tally(gr, s) && Paths(gr, s, comp, nin) && v < gr.nv
    requires forall u :: 0 <= u < gr.nv ==> s.din[u] != 1
    ensures s.din[v] == 0
  {
    assert LabelOk(gr, s, comp, v);
    TallyRange(gr, s, comp[v]);
    assert EndOk(gr, s, comp, comp[v]);
  }

  lemma StartPaths(gr: Graph, s: Node)
    requires gr.Ok() && Sized(gr, s) && forall e :: 0 <= e < gr.ne ==> s.cls[e] == Dunno
    requires forall v :: 0 <= v < gr.nv ==> s.din[v] == 0 && s.farend[v] == v
    ensures Live(gr, s, seq(gr.nv, (i: nat) => i), 0)
  {
    var comp := seq(gr.nv, (i: nat) => i);
    DistinctSize(comp);
    forall v | 0 <= v < gr.nv ensures LabelOk(gr, s, comp, v) && EndOk(gr, s, comp, v) {
      assert comp[v] == v;
    }
  }
}
