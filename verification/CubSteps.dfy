// What the search needs to know about each of its steps.
module CubSteps {
  import opened Counting
  import opened CubGraph
  import opened CubCycles
  import opened CubState
  import opened CubUndo

  // Classes once given are kept.
  ghost predicate Extends(s: Node, t: Node) {
    |s.cls| == |t.cls| && forall e :: 0 <= e < |s.cls| && s.cls[e] != Dunno ==> t.cls[e] == s.cls[e]
  }

  function OpenEdges(gr: Graph, s: Node): set<nat>
    requires |s.cls| == gr.ne + 1
  {
    set e | e in Range(gr.ne) && s.cls[e] == Dunno
  }

  lemma FewerOpen(gr: Graph, s: Node, t: Node, en: nat)
    requires Extends(s, t) && |s.cls| == gr.ne + 1 && en < gr.ne && s.cls[en] == Dunno && t.cls[en] != Dunno
    ensures |OpenEdges(gr, t)| < |OpenEdges(gr, s)|
  {
    assert OpenEdges(gr, t) <= OpenEdges(gr, s) - {en};
    assert en in OpenEdges(gr, s);
    SizeMonotone(OpenEdges(gr, t), OpenEdges(gr, s) - {en});
  }

  lemma NoMoreOpen(gr: Graph, s: Node, t: Node)
    requires Extends(s, t) && |s.cls| == gr.ne + 1
    ensures |OpenEdges(gr, t)| <= |OpenEdges(gr, s)|
  {
    SizeMonotone(OpenEdges(gr, t), OpenEdges(gr, s));
  }

  // Every Hamiltonian cycle that agrees with s and contains en agrees with t.
  ghost predicate SoundIf(gr: Graph, s: Node, t: Node, en: nat) {
    && gr.Shape() && |s.cls| == |t.cls| == gr.ne + 1
    && forall h :: gr.HamSet(h) && Agrees(gr, s.cls, h) && en in h ==> Agrees(gr, t.cls, h)
  }

  ghost predicate Sound(gr: Graph, s: Node, t: Node) {
    && gr.Shape() && |s.cls| == |t.cls| == gr.ne + 1
    && forall h :: gr.HamSet(h) && Agrees(gr, s.cls, h) ==> Agrees(gr, t.cls, h)
  }

  ghost predicate Hopeless(gr: Graph, s: Node) {
    gr.Shape() && |s.cls| >= gr.ne && forall h :: gr.HamSet(h) ==> !Agrees(gr, s.cls, h)
  }

  lemma HopelessBack(gr: Graph, s: Node, t: Node)
    requires Sound(gr, s, t) && Hopeless(gr, t)
    ensures Hopeless(gr, s)
  {
  }

  lemma SoundTwice(gr: Graph, s: Node, t: Node, u: Node)
    requires Sound(gr, s, t) && Sound(gr, t, u)
    ensures Sound(gr, s, u)
  {
  }

  // A vertex that propagation has something to do or to object to.
  ghost predicate Unsettled(s: Node, u: nat)
    requires u < |s.din| && u < |s.dout|
  {
    (s.dout[u] == 0 && s.din[u] >= 2) || (s.dout[u] == 1 && s.din[u] != 2) || s.dout[u] > 1
  }

  ghost predicate Pending(gr: Graph, s: Node, waiting: set<nat>) {
    Sized(gr, s) && forall u :: 0 <= u < gr.nv && Unsettled(s, u) ==> u in waiting
  }

  // Which counts a step may have changed.
  ghost predicate Changed(gr: Graph, s: Node, t: Node, ends: set<nat>, waiting: set<nat>) {
    && Sized(gr, s) && Sized(gr, t)
    && forall u :: 0 <= u < gr.nv ==>
         (t.dout[u] != s.dout[u] ==> u in waiting) && (t.din[u] != s.din[u] ==> u in ends + waiting)
  }

  // ---- Putting an edge in ----

  ghost predicate Ready(gr: Graph, s: Node, comp: seq<nat>, nin: int, v: nat, w: nat, en: nat) {
    && Tally(gr, s) && OpenEdge(gr, s, v, w, en)
    && (Doomed(s) || Live(gr, s, comp, nin) || (Chord(gr, s, comp, nin, v, w, en) && nin == gr.nv - 1))
  }

  lemma InStep(gr: Graph, s: Node, comp: seq<nat>, nin: int, v: nat, w: nat, en: nat)
    requires Ready(gr, s, comp, nin, v, w, en)
    ensures var t := InNode(s, v, w, en);
      && Tally(gr, t)
      && (nin + 1 == gr.nv ==> Doomed(t) || CycleFormed(gr, t, nin + 1))
      && (nin + 1 != gr.nv ==> Doomed(t) || (Joining(gr, s, comp, nin, v, w, en) && Unjoined(gr, s, comp, -1, -1)))
  {
    hide Paths, Live, Tally, CycleFormed;
    TallyIn(gr, s, v, w, en);
    if Doomed(s) {
      DoomedStays(gr, s, v, w, en);
    } else if Live(gr, s, comp, nin) {
      JoinsOrDooms(gr, s, comp, nin, v, w, en);
    } else {
      Closing(gr, s, comp, nin, v, w, en);
    }
  }

  lemma InIf(gr: Graph, s: Node, t: Node, v: nat, w: nat, en: nat)
    requires OpenEdge(gr, s, v, w, en) && t.cls == InNode(s, v, w, en).cls
    ensures SoundIf(gr, s, t, en) && Extends(s, t)
  {
  }

  lemma InChanged(gr: Graph, s: Node, t: Node, v: nat, w: nat, en: nat, waiting: set<nat>)
    requires OpenEdge(gr, s, v, w, en) && Sized(gr, t)
    requires t.din == InNode(s, v, w, en).din && t.dout == s.dout
    ensures Changed(gr, s, t, {v, w}, waiting)
  {
  }

  lemma OutChanged(gr: Graph, s: Node, v: nat, w: nat, en: nat, waiting: set<nat>)
    requires OpenEdge(gr, s, v, w, en) && v in waiting && w in waiting
    ensures Changed(gr, s, OutNode(s, v, w, en), {}, waiting) && Extends(s, OutNode(s, v, w, en))
  {
  }

  lemma ExtendsTwice(s: Node, t: Node, u: Node)
    requires Extends(s, t) && Extends(t, u)
    ensures Extends(s, u)
  {
  }

  lemma ChangedTwice(gr: Graph, s: Node, t: Node, u: Node, ends: set<nat>, was: set<nat>, now: set<nat>)
    requires Changed(gr, s, t, ends, was) && Changed(gr, t, u, {}, now) && was <= now
    ensures Changed(gr, s, u, ends, now)
  {
  }

  // Changing only the path ends changes nothing that is asked of a step.
  lemma SameClasses(gr: Graph, t: Node, u: Node, w: Node, waiting: set<nat>)
    requires u.cls == t.cls && u.din == t.din && u.dout == t.dout && Sized(gr, t)
    requires Extends(u, w) && Changed(gr, u, w, {}, waiting) && Sound(gr, u, w)
    ensures Extends(t, w) && Changed(gr, t, w, {}, waiting) && Sound(gr, t, w)
  {
  }

  lemma EndsWaiting(gr: Graph, s: Node, t: Node, ends: set<nat>, waiting: set<nat>)
    requires Changed(gr, s, t, ends, waiting) && ends <= waiting
    ensures Changed(gr, s, t, {}, waiting)
  {
  }

  lemma SoundIfTwice(gr: Graph, s: Node, t: Node, u: Node, en: nat)
    requires SoundIf(gr, s, t, en) && Sound(gr, t, u)
    ensures SoundIf(gr, s, u, en)
  {
  }

  lemma FormedLive(gr: Graph, s: Node, comp: seq<nat>, nin: int)
    requires CycleFormed(gr, s, nin)
    ensures Live(gr, s, comp, nin)
  {
  }

  // After the path ends have been set: only the edge between them is left to look at.
  ghost predicate Linking(gr: Graph, s: Node, comp: seq<nat>, nin: int, x: nat, y: nat) {
    && Tally(gr, s) && x < gr.nv && y < gr.nv
    && (Doomed(s) ||
        (Paths(gr, s, comp, nin) && Unjoined(gr, s, comp, x, y) && comp[x] == comp[y] &&
         s.din[x] == 1 && s.din[y] == 1))
  }

  lemma FarStep(gr: Graph, s: Node, comp: seq<nat>, nin: int, v: nat, w: nat, en: nat)
    requires Ready(gr, s, comp, nin, v, w, en) && nin + 1 != gr.nv
    ensures 0 <= s.farend[v] < gr.nv && 0 <= s.farend[w] < gr.nv
    ensures var t := FarNode(InNode(s, v, w, en), s.farend[v], s.farend[w]);
      var comp' := if Doomed(t) then comp else Merged(comp, comp[v], comp[w], s.farend[v]);
      Linking(gr, t, comp', nin + 1, s.farend[v], s.farend[w])
    requires |comp| == gr.nv
  {
    InStep(gr, s, comp, nin, v, w, en);
    assert TallyAt(gr, s, v) && TallyAt(gr, s, w);
    TallyFar(gr, InNode(s, v, w, en), s.farend[v], s.farend[w]);
    var t := FarNode(InNode(s, v, w, en), s.farend[v], s.farend[w]);
    if !Doomed(t) {
      assert !Doomed(InNode(s, v, w, en));
      hide Paths, Unjoined, Tally;
      JoinEnds(gr, s, comp, nin, v, w, en);
      JoinPaths(gr, s, comp, nin, v, w, en);
      JoinUnjoined(gr, s, comp, nin, v, w, en);
    }
  }

  lemma FarInRange(gr: Graph, s: Node)
    requires Tally(gr, s)
    ensures forall v :: 0 <= v < gr.nv ==> 0 <= s.farend[v] < gr.nv
  {
    forall v | 0 <= v < gr.nv ensures 0 <= s.farend[v] < gr.nv { assert TallyAt(gr, s, v); }
  }

  lemma LinkingRange(gr: Graph, s: Node, comp: seq<nat>, nin: int, x: nat, y: nat)
    requires Linking(gr, s, comp, nin, x, y)
    ensures x < gr.nv && y < gr.nv && Tally(gr, s)
  {
  }

  lemma LinkingEdge(gr: Graph, s: Node, comp: seq<nat>, nin: int, x: nat, y: nat, e: nat)
    requires Linking(gr, s, comp, nin, x, y) && OpenEdge(gr, s, x, y, e)
    ensures Doomed(s) || (Chord(gr, s, comp, nin, x, y, e) && Unjoined(gr, s, comp, x, y))
  {
    hide Paths, Tally, Unjoined;
  }

  lemma LinkingForced(gr: Graph, s: Node, comp: seq<nat>, nin: int, x: nat, y: nat, e: nat, h: set<nat>)
    requires Linking(gr, s, comp, nin, x, y) && OpenEdge(gr, s, x, y, e) && gr.HamSet(h) && Agrees(gr, s.cls, h)
    ensures e in h <==> nin == gr.nv - 1
  {
    hide Tally, Paths;
    LinkingEdge(gr, s, comp, nin, x, y, e);
    if Doomed(s) {
      DoomedNone(gr, s, h);
    } else if nin == gr.nv - 1 {
      ChordIn(gr, s, comp, nin, x, y, e, h);
    } else {
      ChordOut(gr, s, comp, nin, x, y, e, h);
    }
  }

  lemma LinkingOut(gr: Graph, s: Node, comp: seq<nat>, nin: int, x: nat, y: nat, e: nat)
    requires Linking(gr, s, comp, nin, x, y) && OpenEdge(gr, s, x, y, e)
    ensures var t := OutNode(s, x, y, e); Tally(gr, t) && (Doomed(t) || Live(gr, t, comp, nin))
  {
    hide Tally, Paths, Live;
    TallyOut(gr, s, x, y, e);
    LinkingEdge(gr, s, comp, nin, x, y, e);
    if Doomed(s) { DoomedStays(gr, s, x, y, e); } else { ChordTakenOut(gr, s, comp, nin, x, y, e); }
  }

  // The decision on the edge between the ends, when it is in only if the path is complete.
  lemma LinkingSound(gr: Graph, s: Node, comp: seq<nat>, nin: int, x: nat, y: nat, e: nat, t: Node)
    requires Linking(gr, s, comp, nin, x, y) && OpenEdge(gr, s, x, y, e)
    requires if nin == gr.nv - 1 then SoundIf(gr, s, t, e) else t == OutNode(s, x, y, e)
    ensures Sound(gr, s, t)
  {
    forall h | gr.HamSet(h) && Agrees(gr, s.cls, h) ensures Agrees(gr, t.cls, h) {
      LinkingForced(gr, s, comp, nin, x, y, e, h);
    }
  }

  lemma LinkingReady(gr: Graph, s: Node, comp: seq<nat>, nin: int, x: nat, y: nat, e: nat)
    requires Linking(gr, s, comp, nin, x, y) && OpenEdge(gr, s, x, y, e) && nin == gr.nv - 1
    ensures Ready(gr, s, comp, nin, x, y, e)
  {
    LinkingEdge(gr, s, comp, nin, x, y, e);
  }

  lemma NoSlot(gr: Graph, x: nat, y: nat)
    requires gr.Ok() && x < gr.nv && gr.g[x][0] != y && gr.g[x][1] != y && gr.g[x][2] != y
    ensures forall e :: 0 <= e < gr.ne ==> !gr.Joins(e, x, y)
  {
    forall e | 0 <= e < gr.ne ensures !gr.Joins(e, x, y) {
      if gr.Joins(e, x, y) { SlotAdjacent(gr, e, x, y); }
    }
  }

  // The slot in which x looks for y holds the only edge between them.
  lemma FoundSlot(gr: Graph, x: nat, y: nat, i: nat, e: nat)
    requires gr.Ok() && x < gr.nv && i < 3 && gr.g[x][i] == y && e < gr.ne && gr.Joins(e, x, y)
    ensures gr.eno[x][i] == e
  {
    SlotEdge(gr, x, i);
    SimpleGraph(gr, e, gr.eno[x][i]);
  }

  lemma LinkingDone(gr: Graph, s: Node, comp: seq<nat>, nin: int, x: nat, y: nat)
    requires Linking(gr, s, comp, nin, x, y)
    requires forall e :: 0 <= e < gr.ne && gr.Joins(e, x, y) ==> s.cls[e] != Dunno
    ensures Doomed(s) || Live(gr, s, comp, nin)
  {
    if !Doomed(s) { NoChord(gr, s, comp, nin, x, y); }
  }

  // ---- Propagation ----

  // An unclassified slot of a vertex holds a real edge.
  lemma SlotOpen(gr: Graph, s: Node, v: nat, i: nat)
    requires Tally(gr, s) && v < gr.nv && i < 3
    ensures gr.eno[v][i] <= gr.ne
    ensures s.cls[gr.eno[v][i]] == Dunno ==> 0 <= gr.g[v][i] && OpenEdge(gr, s, v, gr.g[v][i], gr.eno[v][i])
  {
    assert TallyAt(gr, s, v);
    SlotEdge(gr, v, 0);
    SlotEdge(gr, v, 1);
    SlotEdge(gr, v, i);
  }

  // Two edges in and none out leave exactly one slot unclassified.
  lemma ThirdSlot(gr: Graph, s: Node, v: nat)
    requires Tally(gr, s) && v < gr.nv && s.dout[v] == 0 && s.din[v] == 2
    ensures gr.eno[v][0] <= gr.ne && gr.eno[v][1] <= gr.ne && gr.eno[v][2] <= gr.ne
    ensures s.cls[gr.eno[v][0]] == Dunno || s.cls[gr.eno[v][1]] == Dunno || s.cls[gr.eno[v][2]] == Dunno
  {
    assert TallyAt(gr, s, v);
    SlotEdge(gr, v, 0);
    SlotEdge(gr, v, 1);
    SlotEdge(gr, v, 2);
  }

  // With every slot classified the counts add up.
  lemma AllSlots(gr: Graph, s: Node, v: nat)
    requires Tally(gr, s) && v < gr.nv
    ensures gr.eno[v][0] <= gr.ne && gr.eno[v][1] <= gr.ne && gr.eno[v][2] <= gr.ne
    ensures s.cls[gr.eno[v][0]] != Dunno && s.cls[gr.eno[v][1]] != Dunno && s.cls[gr.eno[v][2]] != Dunno ==>
      s.din[v] + s.dout[v] == 3
  {
    assert TallyAt(gr, s, v);
    SlotEdge(gr, v, 0);
    SlotEdge(gr, v, 1);
    SlotEdge(gr, v, 2);
  }

  lemma TooMany(gr: Graph, s: Node, v: nat)
    requires Tally(gr, s) && v < gr.nv && (s.dout[v] >= 2 || s.din[v] >= 3)
    ensures Hopeless(gr, s)
  {
    forall h | gr.HamSet(h) ensures !Agrees(gr, s.cls, h) {
      if Agrees(gr, s.cls, h) { AgreeSlots(gr, s, h, v); }
    }
  }

  lemma OutSound(gr: Graph, s: Node, v: nat, w: nat, en: nat)
    requires Tally(gr, s) && OpenEdge(gr, s, v, w, en) && s.din[v] == 2
    ensures Sound(gr, s, OutNode(s, v, w, en))
  {
    forall h | gr.HamSet(h) && Agrees(gr, s.cls, h) ensures Agrees(gr, OutNode(s, v, w, en).cls, h) {
      ForcedOut(gr, s, h, v, en);
    }
  }

  lemma InSound(gr: Graph, s: Node, t: Node, v: nat, w: nat, en: nat)
    requires Tally(gr, s) && OpenEdge(gr, s, v, w, en) && s.dout[v] >= 1 && SoundIf(gr, s, t, en)
    ensures Sound(gr, s, t)
  {
    forall h | gr.HamSet(h) && Agrees(gr, s.cls, h) ensures Agrees(gr, t.cls, h) {
      ForcedIn(gr, s, h, v, en);
    }
  }

  // v has been settled by an edge out, whose other end waits.
  lemma OutPending(gr: Graph, s: Node, v: nat, w: nat, en: nat, was: set<nat>, now: set<nat>)
    requires OpenEdge(gr, s, v, w, en) && Pending(gr, s, {v} + was) && s.dout[v] == 0 && s.din[v] == 2
    requires now == was + {w}
    ensures Pending(gr, OutNode(s, v, w, en), {} + now)
  {
    var t := OutNode(s, v, w, en);
    forall u | 0 <= u < gr.nv && Unsettled(t, u) ensures u in {} + now {
      if u != v && u != w { assert Unsettled(s, u); }
    }
  }

  lemma Settle(gr: Graph, s: Node, v: nat, waiting: set<nat>)
    requires Pending(gr, s, {v} + waiting) && v < gr.nv && (!Unsettled(s, v) || v in waiting)
    ensures Pending(gr, s, {} + waiting)
  {
  }

  lemma InPending(gr: Graph, s: Node, t: Node, v: nat, w: nat, was: set<nat>, now: set<nat>, next: set<nat>)
    requires Pending(gr, s, {v} + was) && Changed(gr, s, t, {v, w}, now) && was <= now && next == now + {w}
    ensures Pending(gr, t, {v} + next)
  {
    forall u | 0 <= u < gr.nv && Unsettled(t, u) ensures u in {v} + next {
      if t.dout[u] == s.dout[u] && t.din[u] == s.din[u] { assert Unsettled(s, u); }
    }
  }

  // Counts only grow.
  lemma CountsGrow(gr: Graph, s: Node, t: Node, v: nat)
    requires Tally(gr, s) && Tally(gr, t) && Extends(s, t) && v < gr.nv
    ensures s.dout[v] <= t.dout[v] && s.din[v] <= t.din[v]
  {
    assert TallyAt(gr, s, v) && TallyAt(gr, t, v);
    SlotEdge(gr, v, 0);
    SlotEdge(gr, v, 1);
    SlotEdge(gr, v, 2);
  }

  lemma OutStanding(gr: Graph, s: Node, comp: seq<nat>, nin: int, v: nat, w: nat, en: nat)
    requires OpenEdge(gr, s, v, w, en) && Tally(gr, s) && (Doomed(s) || Live(gr, s, comp, nin))
    ensures var t := OutNode(s, v, w, en); Tally(gr, t) && Extends(s, t) && (Doomed(t) || Live(gr, t, comp, nin))
  {
    TallyOut(gr, s, v, w, en);
    if Doomed(s) { DoomedStays(gr, s, v, w, en); } else { OutLive(gr, s, comp, nin, v, w, en); }
  }

  // Nothing pending, so no vertex is spoiled.
  lemma SettledLive(gr: Graph, s: Node)
    requires Tally(gr, s) && Pending(gr, s, {})
    ensures !Doomed(s)
  {
    forall v | 0 <= v < |s.din| ensures s.din[v] < 3 {
      TallyRange(gr, s, v);
      assert !Unsettled(s, v);
    }
  }

  // ---- Branching ----

  // Every cycle that agrees contains the unclassified ones among the first i edges at v.
  ghost predicate SlotsTried(gr: Graph, s: Node, v: nat, i: int) {
    gr.Ok() && |s.cls| == gr.ne + 1 && v < gr.nv && i <= 3 &&
    forall k, h ::
      0 <= k < i && gr.eno[v][k] <= gr.ne && s.cls[gr.eno[v][k]] == Dunno && gr.HamSet(h) && Agrees(gr, s.cls, h) ==>
      gr.eno[v][k] in h
  }

  lemma SlotTried(gr: Graph, s: Node, v: nat, i: nat)
    requires Tally(gr, s) && SlotsTried(gr, s, v, i) && i < 3 && 0 <= gr.g[v][i]
    requires OpenEdge(gr, s, v, gr.g[v][i], gr.eno[v][i])
    requires Hopeless(gr, OutNode(s, v, gr.g[v][i], gr.eno[v][i]))
    ensures SlotsTried(gr, s, v, i + 1)
  {
    ChildNone(gr, s, v, gr.g[v][i], gr.eno[v][i]);
  }

  lemma SlotSkipped(gr: Graph, s: Node, v: nat, i: nat)
    requires SlotsTried(gr, s, v, i) && i < 3 && gr.eno[v][i] <= gr.ne && s.cls[gr.eno[v][i]] != Dunno
    ensures SlotsTried(gr, s, v, i + 1)
    ensures SlotsGiven(gr, s, v, i) ==> SlotsGiven(gr, s, v, i + 1)
  {
  }

  // All three have been tried: no cycle is left.
  lemma AllTried(gr: Graph, s: Node, v: nat)
    requires Tally(gr, s) && v < gr.nv && s.dout[v] == 0 && SlotsTried(gr, s, v, 3)
    ensures Hopeless(gr, s)
  {
    forall h | gr.HamSet(h) ensures !Agrees(gr, s.cls, h) {
      if Agrees(gr, s.cls, h) { OneExcluded(gr, s, h, v); }
    }
  }

  lemma SlotsLeft(gr: Graph, s: Node, v: nat)
    requires Tally(gr, s) && v < gr.nv && s.dout[v] == 0 && s.din[v] <= 1
    ensures !SlotsGiven(gr, s, v, 3)
  {
    AllSlots(gr, s, v);
  }

  lemma ChildNone(gr: Graph, s: Node, v: nat, w: nat, en: nat)
    requires Tally(gr, s) && OpenEdge(gr, s, v, w, en) && Hopeless(gr, OutNode(s, v, w, en))
    ensures forall h :: gr.HamSet(h) && Agrees(gr, s.cls, h) ==> en in h
  {
    forall h ensures gr.HamSet(h) && Agrees(gr, s.cls, h) ==> en in h { OutAgrees(gr, s, v, w, en, h); }
  }

  lemma OutAgrees(gr: Graph, s: Node, v: nat, w: nat, en: nat, h: set<nat>)
    requires Tally(gr, s) && OpenEdge(gr, s, v, w, en) && gr.Ok()
    ensures Agrees(gr, s.cls, h) && en !in h ==> Agrees(gr, OutNode(s, v, w, en).cls, h)
  {
  }

  lemma OutWaits(gr: Graph, s: Node, v: nat, w: nat, en: nat, waiting: set<nat>)
    requires OpenEdge(gr, s, v, w, en) && Pending(gr, s, {}) && v in waiting && w in waiting
    ensures Pending(gr, OutNode(s, v, w, en), waiting)
  {
    forall u | 0 <= u < gr.nv && Unsettled(OutNode(s, v, w, en), u) ensures u in waiting {
      if u != v && u != w { assert Unsettled(s, u); }
    }
  }

  lemma LiveFull(gr: Graph, s: Node, comp: seq<nat>)
    requires Live(gr, s, comp, gr.nv) && |comp| == gr.nv > 0
    ensures CycleFormed(gr, s, gr.nv)
  {
    assert comp[0] in Members(comp);
  }

  // The vertex to branch at has no edge out and at most one in.
  lemma ChoiceOpen(gr: Graph, s: Node, comp: seq<nat>, nin: int, v: nat)
    requires Tally(gr, s) && Live(gr, s, comp, nin) && Pending(gr, s, {}) && v < gr.nv && nin != gr.nv
    requires s.din[v] == 1 || forall u :: 0 <= u < gr.nv ==> s.din[u] != 1
    ensures s.dout[v] == 0 && s.din[v] <= 1
  {
    if s.din[v] != 1 { NoEnds(gr, s, comp, nin, v); }
    TallyRange(gr, s, v);
    assert !Unsettled(s, v);
  }

  // ---- Bookkeeping ----

  // The first i slots of v are classified.
  ghost predicate SlotsGiven(gr: Graph, s: Node, v: nat, i: int) {
    gr.Ok() && |s.cls| == gr.ne + 1 && v < gr.nv && i <= 3 &&
    forall k :: 0 <= k < i ==> gr.eno[v][k] <= gr.ne && s.cls[gr.eno[v][k]] != Dunno
  }

  lemma SlotsKept(gr: Graph, s: Node, t: Node, v: nat, i: nat)
    requires Extends(s, t) && SlotsGiven(gr, s, v, i)
    ensures SlotsGiven(gr, t, v, i)
  {
  }

  lemma Stacked(stack: seq<nat>, was: set<nat>, v: nat)
    requires was <= Members(stack)
    ensures v in was ==> v in stack
  {
  }

  lemma StartRun(gr: Graph, s: Node, a: seq<int>, waiting: set<nat>)
    requires Tally(gr, s) && StackOk(gr, a) && Pending(gr, s, waiting)
    ensures Undoable(gr, s, a, s, a) && Extends(s, s) && Sound(gr, s, s) && Pending(gr, s, {} + waiting)
  {
  }

  lemma PendingPopped(gr: Graph, s: Node, v: nat, waiting: set<nat>)
    requires Pending(gr, s, {} + (waiting + {v}))
    ensures Pending(gr, s, {v} + waiting)
  {
  }

  lemma EmptyMembers(stack: seq<nat>)
    ensures stack == [] ==> {} + Members(stack) == {}
  {
  }

  lemma NothingPending(gr: Graph, s: Node)
    ensures Pending(gr, s, {} + {}) ==> Pending(gr, s, {})
  {
  }
}
