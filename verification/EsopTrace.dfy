// The record of a whole reduction: passes over the queues, and the pairs that each pass reads and tries.
module EsopTrace {
  import opened EsopRules
  import opened EsopCube
  import opened EsopLink
  import opened EsopStore
  import opened EsopCheck
  import opened EsopCost
  import opened EsopQueue
  import opened EsopPass
  import opened EsopGain
  import opened EsopApply

  // What stays the same over a run.
  datatype Setting = Setting(no: nat, places: nat, quantum: bool)

  // What trying the pair p1, p2 at distance d + 2 comes to.
  ghost predicate Tried(d: nat, counting: bool, c: Setting, e: Store, t: Store, p1: nat, p2: nat) {
    exists taken :: Handled(e, t, c.no, taken) && Outcome(d, counting, c, e, t, p1, p2, taken)
  }

  ghost predicate Outcome(d: nat, counting: bool, c: Setting, e: Store, t: Store, p1: nat, p2: nat, taken: bool) {
    if d == 0 then TriedTwo(e, t, p1, p2, taken, counting, c.quantum)
    else if d == 1 then TriedThree(e, t, p1, p2, taken, counting, c.quantum)
    else TriedFour(e, t, p1, p2, taken)
  }

  // The pair read next is tried when both cubes still have their IDs, and then they are in the cover; otherwise
  // it is skipped. The queues change only when the cubes still have their distance.
  ghost predicate Read(d: nat, counting: bool, c: Setting, v: View, w: View) {
    && d < |v.outs| && d < |v.que| && w.outs == Past(v, d, c.places).outs && |w.que| == |v.que|
    && if Matching(v, d) then
         var p1, p2 := v.que[d].c1[v.outs[d]], v.que[d].c2[v.outs[d]];
         && p1 in v.st.cover && p2 in v.st.cover && Tried(d, counting, c, v.st, w.st, p1, p2)
         && (!Linkable(v.st, p1, p2, d) ==> w.que == v.que)
       else w == Past(v, d, c.places)
  }

  // A pass over the queue of distance d + 2, by the views between two reads; on: the distances whose pairs are
  // enqueued meanwhile.
  datatype Pass = Pass(d: nat, on: seq<bool>, counting: bool, views: seq<View>)
  datatype Kind = Kind(d: nat, on: seq<bool>)

  ghost predicate ViewsOk(d: nat, counting: bool, c: Setting, stop: nat, views: seq<View>) {
    && views != [] && (forall i :: 0 <= i < |views| ==> d < |views[i].outs| && d < |views[i].que|)
    && forall i :: 0 <= i < |views| - 1 ==> views[i].outs[d] != stop && Read(d, counting, c, views[i], views[i + 1])
  }

  // Every place from the one read next to the end of the queue at the start of the pass is read.
  ghost predicate PassOk(p: Pass, c: Setting) {
    && p.d < 3 && p.views != [] && p.d < |p.views[0].que| && var stop := p.views[0].que[p.d].posIn;
    && ViewsOk(p.d, p.counting, c, stop, p.views) && p.views[|p.views| - 1].outs[p.d] == stop
  }

  ghost function Entry(p: Pass): View
    requires p.views != []
  {
    p.views[0]
  }

  ghost function Exit(p: Pass): View
    requires p.views != []
  {
    p.views[|p.views| - 1]
  }

  // Passes one after the other, from v to w.
  ghost predicate Run(passes: seq<Pass>, counting: bool, c: Setting, v: View, w: View) {
    && (forall i :: 0 <= i < |passes| ==> PassOk(passes[i], c) && passes[i].counting == counting)
    && (forall i :: 0 <= i < |passes| - 1 ==> Exit(passes[i]) == Entry(passes[i + 1]))
    && if passes == [] then v == w else Entry(passes[0]) == v && Exit(passes[|passes| - 1]) == w
  }

  ghost function Kinds(passes: seq<Pass>): (r: seq<Kind>)
    ensures |r| == |passes|
  {
    seq(|passes|, i requires 0 <= i < |passes| => Kind(passes[i].d, passes[i].on))
  }

  ghost predicate Did(passes: seq<Pass>, kinds: seq<Kind>, counting: bool, c: Setting, v: View, w: View) {
    Run(passes, counting, c, v, w) && Kinds(passes) == kinds
  }

  lemma DidNothing(counting: bool, c: Setting, v: View)
    ensures Did([], [], counting, c, v, v)
  {
  }

  lemma DidOne(p: Pass, c: Setting)
    requires PassOk(p, c)
    ensures Did([p], [Kind(p.d, p.on)], p.counting, c, Entry(p), Exit(p))
  {
    hide ViewsOk;
  }

  lemma DidBoth(p: seq<Pass>, d: seq<Kind>, q: seq<Pass>, e: seq<Kind>, counting: bool, c: Setting, v: View, w: View,
                x: View)
    requires Did(p, d, counting, c, v, w) && Did(q, e, counting, c, w, x)
    ensures Did(p + q, d + e, counting, c, v, x)
  {
    hide ViewsOk;
    var r := p + q;
    forall i | 0 <= i < |r| - 1 ensures Exit(r[i]) == Entry(r[i + 1]) {
      if i == |p| - 1 { assert r[i + 1] == q[0]; }
    }
    assert Kinds(r) == Kinds(p) + Kinds(q);
  }

  // ---- The order of the passes ----

  // Distance two or three; four: pairs at distance four are enqueued too.
  function Step2(four: bool): Kind { Kind(0, [true, true, four]) }
  function Step3(four: bool): Kind { Kind(1, [true, true, four]) }
  function Step4(four: bool): Kind { Kind(2, [true, true, four]) }

  // n times distance two and three.
  function Shallow(n: nat): seq<Kind> {
    if n == 0 then [] else Shallow(n - 1) + [Step2(false), Step3(false)]
  }

  function Deep(): seq<Kind> {
    Shallow(1) + [Step2(true), Step3(true), Step2(true), Step4(true), Step2(true), Step4(false)]
  }

  // One round of ReduceEsopCover after idle rounds without a gain.
  function RoundOf(quality: int, idle: nat): seq<Kind> {
    if idle > (if quality > 0 then 1 else 0) then Shallow(6) + Deep() + Deep() else Shallow(6)
  }

  function IdleRounds(quality: int, n: nat): seq<Kind> {
    if n == 0 then [] else IdleRounds(quality, n - 1) + RoundOf(quality, n - 1)
  }

  // A whole reduction: the rounds up to the last one with a gain, those without a gain that end it, and the
  // passes in which literals count.
  datatype Reduction = Reduction(early: seq<Pass>, idle: seq<Pass>, last: seq<Pass>, turn: View, mid: View)

  ghost predicate Reduced(r: Reduction, c: Setting, v: View, w: View, quality: int, counted: bool) {
    && Run(r.early, counted, c, v, r.turn) && Run(r.idle, counted, c, r.turn, r.mid)
    && Did(r.last, Shallow(5), true, c, r.mid, w) && |r.mid.st.cover| == |r.turn.st.cover|
    && (if quality < 0 then Kinds(r.early + r.idle) == Shallow(6)
        else Kinds(r.idle) == IdleRounds(quality, 1 + quality))
    && |r.early + r.idle| >= 12 && Kinds(r.early + r.idle)[..12] == Shallow(6)
  }

  // ---- What that says of the cover ----

  lemma ReadShrinks(d: nat, counting: bool, c: Setting, v: View, w: View)
    requires Read(d, counting, c, v, w)
    ensures |w.st.cover| <= |v.st.cover|
    ensures d == 0 && Matching(v, 0) && Improvable(v.st, v.que[0].c1[v.outs[0]], v.que[0].c2[v.outs[0]], 0) ==>
      |w.st.cover| < |v.st.cover|
  {
    hide Improvable, SomeLighter, Lits, Alike, Kin, SameFunction;
  }

  lemma {:induction false} ViewsShrink(d: nat, counting: bool, c: Setting, stop: nat, views: seq<View>, i: nat, j: nat)
    requires ViewsOk(d, counting, c, stop, views) && i <= j < |views|
    ensures |views[j].st.cover| <= |views[i].st.cover|
  {
    hide Read;
    if i < j {
      ViewsShrink(d, counting, c, stop, views, i, j - 1);
      ReadShrinks(d, counting, c, views[j - 1], views[j]);
    }
  }

  lemma {:induction false} RunShrinks(passes: seq<Pass>, counting: bool, c: Setting, v: View, w: View)
    requires Run(passes, counting, c, v, w)
    ensures |w.st.cover| <= |v.st.cover|
  {
    if passes != [] {
      var p := passes[0];
      assert PassOk(p, c);
      ViewsShrink(p.d, p.counting, c, p.views[0].que[p.d].posIn, p.views, 0, |p.views| - 1);
      RunShrinks(passes[1..], counting, c, Exit(p), w);
    }
  }

  // A pair that can be improved is improved when it is read in a pass for distance two.
  ghost predicate ReadAt(passes: seq<Pass>, i: nat, j: nat) {
    i < |passes| && j < |passes[i].views| - 1 && passes[i].d == 0 && Matching(passes[i].views[j], 0)
  }

  ghost predicate ImprovableAt(v: View) {
    Matching(v, 0) && Improvable(v.st, v.que[0].c1[v.outs[0]], v.que[0].c2[v.outs[0]], 0)
  }

  lemma PassImproved(p: Pass, c: Setting, j: nat)
    requires PassOk(p, c) && p.d == 0 && j < |p.views| - 1 && ImprovableAt(p.views[j])
    ensures |Exit(p).st.cover| < |Entry(p).st.cover|
  {
    hide Improvable, Matching, Read;
    var stop := p.views[0].que[0].posIn;
    ViewsShrink(0, p.counting, c, stop, p.views, 0, j);
    ReadShrinks(0, p.counting, c, p.views[j], p.views[j + 1]);
    ViewsShrink(0, p.counting, c, stop, p.views, j + 1, |p.views| - 1);
  }

  lemma {:induction false} Improved(passes: seq<Pass>, counting: bool, c: Setting, v: View, w: View, i: nat, j: nat)
    requires Run(passes, counting, c, v, w) && ReadAt(passes, i, j) && ImprovableAt(passes[i].views[j])
    ensures |w.st.cover| < |v.st.cover|
  {
    hide ImprovableAt, Matching, PassOk;
    if i == 0 {
      PassImproved(passes[0], c, j);
      AfterFirst(passes, counting, c, v, w);
    } else {
      RunShrinks(passes[..1], counting, c, v, PassExit(passes[0], c));
      Improved(passes[1..], counting, c, PassExit(passes[0], c), w, i - 1, j);
    }
  }

  ghost function PassExit(p: Pass, c: Setting): View
    requires PassOk(p, c)
  {
    Exit(p)
  }

  // The rounds that end a reduction have met no pair at distance two that could be improved.
  lemma IdleFound(r: Reduction, c: Setting, v: View, w: View, quality: int, counted: bool, i: nat, j: nat)
    requires Reduced(r, c, v, w, quality, counted) && ReadAt(r.idle, i, j)
    ensures !ImprovableAt(r.idle[i].views[j])
  {
    hide Improvable, Matching;
    if ImprovableAt(r.idle[i].views[j]) {
      Improved(r.idle, counted, c, r.turn, r.mid, i, j);
    }
  }

  // ---- The first pass ----

  // Some two cubes are at distance two, and every such pair could be improved.
  ghost predicate Ripe(s: Store) {
    && (exists g: nat, h: nat :: g in s.cover && h in s.cover && g != h && AtDistance(s, g, h, 0))
    && forall g: nat, h: nat :: g in s.cover && h in s.cover && g != h && AtDistance(s, g, h, 0) ==>
         Improvable(s, g, h, 0)
  }

  // Nothing has changed but the order of the cover.
  ghost predicate Still(v: View, u: View) {
    && u.que == v.que && Alike(v.st, u.st) && Kin(v.st, u.st) && |v.st.data| == |v.st.info|
    && forall h :: h in v.st.cover ==> h < |v.st.data|
  }

  lemma SameImprovable(s: Store, t: Store, p1: nat, p2: nat)
    requires Alike(s, t) && Kin(s, t) && |s.data| == |s.info| && p1 in s.cover && p2 in s.cover
    requires p1 < |s.data| && p2 < |s.data| && Improvable(s, p1, p2, 0)
    ensures Improvable(t, p1, p2, 0)
  {
    hide Distance, RuleProd, FarApart, GroupRule;
    assert Linkable(t, p1, p2, 0);
    var g :| 0 <= g < GroupCount(0) && CloseGroup(s, p1, p2, 0, g);
    var c :| 0 <= c < 2 && !FarRest(s, p1, p2, LinkCube(s, p1, p2, 0, g, c));
    assert LinkCube(s, p1, p2, 0, g, c) == LinkCube(t, p1, p2, 0, g, c);
    assert CloseGroup(t, p1, p2, 0, g);
  }

  lemma StillRead(counting: bool, c: Setting, v: View, u: View, w: View)
    requires Ripe(v.st) && Still(v, u) && Read(0, counting, c, u, w)
    ensures Still(v, w) || |w.st.cover| < |v.st.cover|
    ensures ImprovableAt(u) ==> |w.st.cover| < |v.st.cover|
  {
    hide Improvable, SomeLighter, Lits, SameFunction, Distance;
    ReadShrinks(0, counting, c, u, w);
    if Matching(u, 0) {
      var p1, p2 := u.que[0].c1[u.outs[0]], u.que[0].c2[u.outs[0]];
      if Linkable(u.st, p1, p2, 0) {
        NotItself(u.st.data[p1]);
        assert AtDistance(v.st, p1, p2, 0);
        SameImprovable(v.st, u.st, p1, p2);
      }
    }
  }

  lemma NotItself(p: Prod)
    ensures Distance(p, p) == 0
  {
    NoDiffs(p.lits, |p.lits|);
  }

  // As long as nothing has changed, the pairs are read in order.
  lemma {:induction false} StillViews(counting: bool, c: Setting, stop: nat, views: seq<View>, j: nat)
    requires ViewsOk(0, counting, c, stop, views) && j < |views| && Ripe(views[0].st) && Still(views[0], views[0])
    requires views[0].outs[0] == 0 && stop < c.places
    ensures |views[j].st.cover| < |views[0].st.cover| ||
      (Still(views[0], views[j]) && views[j].outs[0] == j && j <= stop)
  {
    hide Ripe, Still, Read;
    if j > 0 {
      StillViews(counting, c, stop, views, j - 1);
      ReadShrinks(0, counting, c, views[j - 1], views[j]);
      if Still(views[0], views[j - 1]) && views[j - 1].outs[0] == j - 1 {
        StillRead(counting, c, views[0], views[j - 1], views[j]);
        ReadNext(counting, c, views[j - 1], views[j]);
      }
    }
  }

  lemma ReadNext(counting: bool, c: Setting, v: View, w: View)
    requires Read(0, counting, c, v, w)
    ensures |w.outs| > 0 && |v.outs| > 0 && w.outs[0] == NextPlaceOf(v.outs[0], c.places)
  {
    hide Tried, Linkable;
  }

  // A first pass over a complete queue.
  lemma FirstPass(p: Pass, c: Setting)
    requires PassOk(p, c) && p.d == 0 && Ripe(Entry(p).st) && Still(Entry(p), Entry(p)) && Entry(p).outs[0] == 0
    requires Complete(Entry(p).st, Entry(p).que[0], 0) && Entry(p).que[0].posIn < c.places
    ensures |Exit(p).st.cover| < |Entry(p).st.cover|
  {
    hide ViewsOk, Improvable, Distance, Matching, Alike, Kin, Read;
    var v, stop, n := Entry(p), Entry(p).que[0].posIn, |p.views| - 1;
    StillViews(p.counting, c, stop, p.views, n);
    if |Exit(p).st.cover| >= |v.st.cover| {
      var i := SomeEntry(v);
      ViewsShrink(0, p.counting, c, stop, p.views, i, n);
      StillViews(p.counting, c, stop, p.views, i);
      OneView(p.counting, c, stop, p.views, i);
      ViewsShrink(0, p.counting, c, stop, p.views, i + 1, n);
      EntryMatches(v, p.views[i], i);
      StillRead(p.counting, c, v, p.views[i], p.views[i + 1]);
      assert false;
    }
  }

  lemma OneView(counting: bool, c: Setting, stop: nat, views: seq<View>, i: nat)
    requires ViewsOk(0, counting, c, stop, views) && i < |views| - 1
    ensures Read(0, counting, c, views[i], views[i + 1]) && |views[i].outs| > 0
  {
    hide Read;
  }

  // The pair at place i is at distance two.
  ghost predicate PairAt(v: View, i: nat) {
    && |v.que| > 0 && var q := v.que[0];
    && i < q.posIn && i < |q.c1| && i < |q.c2| && i < |q.id1| && i < |q.id2|
    && q.c1[i] in v.st.cover && q.c2[i] in v.st.cover && AtDistance(v.st, q.c1[i], q.c2[i], 0) && q.c1[i] != q.c2[i]
    && EntryIs(q, i, v.st, q.c1[i], q.c2[i])
  }

  lemma SomeEntry(v: View) returns (i: nat)
    requires Ripe(v.st) && |v.que| > 0 && Complete(v.st, v.que[0], 0)
    ensures PairAt(v, i)
  {
    hide Improvable, Distance;
    var g: nat, h: nat :| g in v.st.cover && h in v.st.cover && g != h && AtDistance(v.st, g, h, 0);
    DistanceBack(v.st.data[g], v.st.data[h]);
    i :| 0 <= i < v.que[0].posIn && (EntryIs(v.que[0], i, v.st, g, h) || EntryIs(v.que[0], i, v.st, h, g));
  }

  lemma EntryMatches(v: View, u: View, i: nat)
    requires Still(v, u) && PairAt(v, i) && Ripe(v.st) && |u.outs| > 0 && u.outs[0] == i
    ensures ImprovableAt(u)
  {
    hide Improvable, Distance;
    SameImprovable(v.st, u.st, v.que[0].c1[i], v.que[0].c2[i]);
  }

  // A starting cover with pairs at distance two, all of which could be improved, is made smaller.
  lemma CoverShrinks(r: Reduction, c: Setting, v: View, w: View, quality: int, counted: bool)
    requires Reduced(r, c, v, w, quality, counted) && Ripe(v.st) && Still(v, v) && v.outs == [0, 0, 0]
    requires |v.que| > 0 && Complete(v.st, v.que[0], 0) && v.que[0].posIn < c.places
    ensures |w.st.cover| < |v.st.cover|
  {
    hide Ripe, Still, Complete, PassOk;
    assert Shallow(6)[0] == Shallow(1)[0] == Step2(false);
    var p := (r.early + r.idle)[0];
    assert p.d == 0 by { assert Kinds(r.early + r.idle)[..12][0] == Shallow(6)[0]; }
    RunShrinks(r.early, counted, c, v, r.turn);
    RunShrinks(r.last, true, c, r.mid, w);
    FirstPass(p, c);
    if r.early == [] {
      AfterFirst(r.idle, counted, c, r.turn, r.mid);
    } else {
      AfterFirst(r.early, counted, c, v, r.turn);
    }
  }

  lemma AfterFirst(passes: seq<Pass>, counting: bool, c: Setting, v: View, w: View)
    requires Run(passes, counting, c, v, w) && passes != []
    ensures passes[0].views != [] && |w.st.cover| <= |Exit(passes[0]).st.cover|
  {
    assert PassOk(passes[0], c);
    RunShrinks(passes[1..], counting, c, Exit(passes[0]), w);
  }
}
