// ExorLink applied to one pair of cubes: the groups are tried until one is taken.
module EsopApply {
  import opened EsopRules
  import opened EsopCube
  import opened EsopLink
  import opened EsopPool
  import opened EsopStore
  import opened EsopCheck
  import opened EsopCost
  import opened EsopPair
  import opened EsopQueue
  import opened EsopList
  import opened EsopIter
  import opened EsopPass
  import opened EsopGain

  // The state e before the pair was started, and the state s0 in which it left the cover.
  ghost predicate Origin(e: Store, s0: Store, nv: nat, no: nat) {
    Ok(e, nv, no, -1) && NoneOut(e) && |e.pool| >= 32 && Step(e, s0, no) && Alike(e, s0) && Spread(s0) &&
    |s0.a| == |s0.data|
  }

  // The cover of s without the pair is the cover of s0.
  ghost predicate Missing(l: Link, s0: Store, s: Store) {
    && |s.data| == |s0.data| == |s.a| == |s0.a| && l.pa < |s.data| && l.pb < |s.data| && l.pa != l.pb
    && l.pa !in s.cover && l.pb !in s.cover
    && (forall h: nat :: h in s0.cover <==> h in s.cover || h == l.pa || h == l.pb)
    && (forall h: nat :: h in s.cover && h < |s.data| ==> s.data[h] == s0.data[h] && s.a[h] == s0.a[h])
    && s0.data[l.pa] == l.da && s0.data[l.pb] == l.db && s0.a[l.pa] == Literals(l.da.lits)
    && s0.a[l.pb] == Literals(l.db.lits)
  }

  lemma MissingStill(l: Link, m: Link, s0: Store, s: Store, t: Store)
    requires Missing(l, s0, s) && Alike(s, t) && m.pa == l.pa && m.pb == l.pb && m.da == l.da && m.db == l.db
    ensures Missing(m, s0, t)
  {
  }

  lemma MissingLits(l: Link, s0: Store, s: Store)
    requires Missing(l, s0, s)
    ensures Lits(s0) == Lits(s) + Literals(l.da.lits) + Literals(l.db.lits)
  {
    var c := [l.pa] + s.cover;
    var b := s.a[l.pa := s0.a[l.pa]];
    WeightMore(s.a, s.cover, b, c, l.pa, |s.a|);
    WeightMore(b, c, s0.a, s0.cover, l.pb, |s.a|);
  }

  lemma MissingSpread(l: Link, s0: Store, s: Store)
    requires Missing(l, s0, s) && Spread(s0)
    ensures Spread(s)
  {
    SpreadLess(s0, s);
  }

  // The pair is back.
  lemma MissingBack(l: Link, s0: Store, s: Store, t: Store)
    requires Missing(l, s0, s) && t.cover == [l.pb] + ([l.pa] + s.cover) && t.data == s.data && t.a == s.a
    requires |t.cover| == |s0.cover|
    requires s.data[l.pa] == l.da && s.data[l.pb] == l.db && s.a[l.pa] == Literals(l.da.lits)
    requires s.a[l.pb] == Literals(l.db.lits)
    ensures Alike(s0, t)
  {
  }

  // The pair has left the cover and no cube of the group has been given to it.
  ghost predicate Opened(s: Exorcism, it: LinkIterator, e: Store, s0: Store)
    reads s, it
  {
    && s.Valid() && s.Queues() && s.marked && Origin(e, s0, s.nv, s.no) && Missing(it.L(), s0, s.St())
    && Pairing(it.L(), s0, s.St(), NoFlags(it.dist), 0, s.nv, s.no) && Creating(it.L(), s.St(), true, s.nv, s.no)
    && it.VisitedMade() && it.dist < 3 && Bound(it.L(), e, s.St())
  }

  // Between two pairs, no two cubes of the cover being close.
  ghost predicate Ready(s: Exorcism)
    reads s
  {
    Between(s) && Spread(s.St())
  }

  // What handling one pair does: without a group taken, only the order of the cover changes;
  // a cube that stays keeps its contents and its ID.
  ghost predicate Handled(e: Store, t: Store, no: nat, taken: bool) {
    Step(e, t, no) && (!taken ==> Alike(e, t)) && Kin(e, t)
  }

  // ---- Taking the pair out ----

  // Both cubes have been extracted, one after the other.
  ghost predicate TwoExtracted(s: Store, u: Store, pa: nat, pb: nat, i: nat, j: nat) {
    && i < |s.cover| && s.cover[i] == pa && pa < |s.info| && -1 <= s.info[pa].prev < |s.info|
    && -1 <= s.info[pa].next < |s.info|
    && var t := Extracted(s, i);
      && j < |t.cover| && t.cover[j] == pb && pb < |t.info| && -1 <= t.info[pb].prev < |t.info|
      && -1 <= t.info[pb].next < |t.info|
      && u == Extracted(t, j)
  }

  method ExtractBoth(s: Exorcism, pa: nat, pb: nat) returns (ghost i: nat, ghost j: nat)
    requires s.Valid() && s.Queues() && pa in s.cover && pb in s.cover && pa != pb
    modifies s`info, s`list, s`cover, s`nCubesInUse
    ensures s.Valid() && s.Queues() && TwoExtracted(old(s.St()), s.St(), pa, pb, i, j)
  {
    hide Ok, AfterExtract, QueueOk;
    ghost var s0 := s.St();
    i :| i < |s.cover| && s.cover[i] == pa;
    s.CubeExtract(pa, i);
    j := StillThere(s0, i, pb);
    s.CubeExtract(pb, j);
  }

  // Extract both cubes of the pair, and mark the queues.
  method OpenUp(s: Exorcism, it: LinkIterator, ghost e: Store)
    requires s.Valid() && s.Queues() && Creating(it.L(), s.St(), false, s.nv, s.no) && it.VisitedMade()
    requires it.pa in s.cover && it.pb in s.cover && Origin(e, s.St(), s.nv, s.no) && Fetched(e, s.St()) && NoMarks(e)
    requires Linkable(e, it.pa, it.pb, it.dist) && it.da == e.data[it.pa] && it.db == e.data[it.pb]
    requires e.cover == s.cover
    modifies s`info, s`list, s`cover, s`nCubesInUse, s`que, s`marked
    ensures Opened(s, it, e, old(s.St())) && Marks(it.L(), s.St()) == {}
  {
    hide Marks, Ok, Creating, Pairing, QueueOk, Origin, LinkIterator.VisitedMade, Exorcism.Valid, Exorcism.Queues,
      TwoExtracted, Missing, Bound, Fetched, NoMarks, Linkable;
    CreatingApart(it.L(), s.St(), s.nv, s.no);
    ghost var i, j := ExtractBoth(s, it.pa, it.pb);
    PairOut(it.L(), old(s.St()), s.St(), i, j, s.nv, s.no);
    OriginParts(e, old(s.St()), s.nv, s.no);
    StartBound(it.L(), e, old(s.St()), s.St(), i, j, s.nv, s.no);
    s.MarkSet();
  }

  lemma StartBound(l: Link, e: Store, s: Store, u: Store, i: nat, j: nat, nv: nat, no: nat)
    requires Creating(l, s, false, nv, no) && Creating(l, u, true, nv, no) && TwoExtracted(s, u, l.pa, l.pb, i, j)
    requires Ok(e, nv, no, -1) && Fetched(e, s) && NoMarks(e) && Linkable(e, l.pa, l.pb, l.dist)
    requires l.pa in e.cover && l.pb in e.cover && l.da == e.data[l.pa] && l.db == e.data[l.pb] && e.cover == s.cover
    ensures Bound(l, e, u) && Marks(l, u) == {}
  {
    hide Marks, Ok, Creating, AfterExtract, Without, Linkable, Fetched, NoMarks, Kin, SameIds, MarksIn, SameInfo;
    var t := Extracted(s, i);
    CreatingOk(l, s, false, nv, no);
    ExtractedInfo(s, i, nv, no);
    ExtractedInfo(t, j, nv, no);
    CoverDistinct(l, s, nv, no);
    WithoutMembers(s.cover, i);
    WithoutMembers(t.cover, j);
    Strangers(l, e, u, true, nv, no);
    InCoverNotPool(e, nv, no);
    FirstKin(l, e, s, t, u);
  }

  lemma FirstKin(l: Link, e: Store, s: Store, t: Store, u: Store)
    requires Fetched(e, s) && NoMarks(e) && SameInfo(s, t) && SameInfo(t, u) && u.data == s.data
    requires |e.info| == |e.data| && forall h :: h in e.cover ==> h !in e.pool
    ensures MarksIn(l.el, u, 0) && Kin(e, u) && SameIds(e, u) && Marks(l, u) == {}
  {
  }

  lemma ExtractedInfo(s: Store, i: nat, nv: nat, no: nat)
    requires Ok(s, nv, no, -1) && i < |s.cover|
    ensures s.cover[i] < |s.info| && -1 <= s.info[s.cover[i]].prev < |s.info|
    ensures -1 <= s.info[s.cover[i]].next < |s.info| && SameInfo(s, Extracted(s, i)) && Ok(Extracted(s, i), nv, no, -1)
  {
    ExtractOk(s, i, nv, no);
    hide Ok;
  }

  lemma PairOut(l: Link, s: Store, u: Store, i: nat, j: nat, nv: nat, no: nat)
    requires Creating(l, s, false, nv, no) && TwoExtracted(s, u, l.pa, l.pb, i, j)
    ensures Pairing(l, s, u, NoFlags(l.dist), 0, nv, no) && Creating(l, u, true, nv, no) && Missing(l, s, u)
  {
    hide Ok, Creating, Pairing, AfterExtract;
    OpenPair(l, s, Extracted(s, i), u, i, j, nv, no);
    PairContents(l, s, false, nv, no);
    CoverDistinct(l, s, nv, no);
    WithoutMembers(s.cover, i);
    WithoutMembers(Without(s.cover, i), j);
  }

  lemma CoverDistinct(l: Link, s: Store, nv: nat, no: nat)
    requires Creating(l, s, false, nv, no)
    ensures Distinct(s.cover) && |s.a| == |s.data| && l.pa != l.pb
  {
    ListedDistinct(s.info, s.list, s.cover);
  }

  lemma CreatingApart(l: Link, s: Store, nv: nat, no: nat)
    requires Creating(l, s, false, nv, no)
    ensures l.pa != l.pb && l.dist < 3
  {
  }

  lemma StillThere(s: Store, i: nat, q: nat) returns (j: nat)
    requires i < |s.cover| && q in s.cover && q != s.cover[i]
    ensures j < |Without(s.cover, i)| && Without(s.cover, i)[j] == q
  {
    var k :| 0 <= k < |s.cover| && s.cover[k] == q;
    j := if k < i then k else k - 1;
  }

  // Start ExorLink: false when the cubes no longer have the distance.
  method Begin(s: Exorcism, it: LinkIterator, p1: nat, p2: nat, d: nat) returns (ok: bool, ghost s0: Store)
    requires Ready(s) && d < 3 && p1 in s.cover && p2 in s.cover
    modifies it, s`data, s`info, s`a, s`z, s`free, s`pool, s`nCubesFree, s`cIDs, s`list, s`cover, s`nCubesInUse,
             s`que, s`marked
    ensures ok <==> Linkable(old(s.St()), p1, p2, d)
    ensures ok ==> Marks(it.L(), s.St()) == {}
    ensures ok ==> Opened(s, it, old(s.St()), s0) && it.GroupMade() && it.dist == d && it.pa == p1 && it.pb == p2
    ensures ok ==> it.g < |it.costs| && forall i :: 0 <= i < |it.costs| ==> it.costs[i] <= it.costs[it.g]
    ensures ok ==> it.g < GroupCount(d) == |it.visited| && forall i :: 0 <= i < |it.visited| ==>
      (it.visited[i] <==> i == it.g)
    ensures !ok ==> Ready(s) && Handled(old(s.St()), s.St(), s.no, false) && s.que == old(s.que)
  {
    hide Ok, Creating, Spread, Pairing, QueueOk, SameSum, NoneOut, Exorcism.Queues, Step, Alike, Origin,
      LinkIterator.GroupMade, Kin, Fetched, NoMarks, Missing, Bound, LinkIterator.VisitedMade, Marks;
    ghost var e := s.St();
    Unchanged(e, s.nv, s.no);
    SameOuts(e, p1, p2, s.nv, s.no);
    KinSelf(e);
    ok := it.Start(s, p1, p2, d);
    s0 := s.St();
    if ok {
      OriginOf(e, s0, it.L(), s.nv, s.no);
      VisitedSizes(it);
      OpenUp(s, it, e);
    }
  }

  lemma VisitedSizes(it: LinkIterator)
    requires it.VisitedMade()
    ensures |it.visited| == |it.costs| == GroupCount(it.dist)
  {
  }

  lemma SameOuts(e: Store, p1: nat, p2: nat, nv: nat, no: nat)
    requires Ok(e, nv, no, -1) && p1 in e.cover && p2 in e.cover
    ensures p1 < |e.data| && p2 < |e.data| && |e.data[p1].lits| == |e.data[p2].lits|
    ensures |e.data[p1].outs| == |e.data[p2].outs|
  {
    CoverCube(e, p1, nv, no);
    CoverCube(e, p2, nv, no);
  }

  lemma Unchanged(e: Store, nv: nat, no: nat)
    requires Ok(e, nv, no, -1)
    ensures Step(e, e, no) && Alike(e, e)
  {
    StepSelf(e, nv, no);
  }

  lemma OriginOf(e: Store, s0: Store, l: Link, nv: nat, no: nat)
    requires Ok(e, nv, no, -1) && NoneOut(e) && |e.pool| >= 32 && Spread(e) && SameSum(e, s0) && s0.cover == e.cover
    requires Creating(l, s0, false, nv, no)
    ensures Origin(e, s0, nv, no)
  {
    hide SumOf, Listed, Chained, Spread;
    SpreadSame(e, s0);
  }

  // ---- The cubes of the group ----

  // Their handles.
  function Group(it: LinkIterator): (r: seq<int>)
    reads it
    ensures |r| == it.dist + 2 && forall c :: 0 <= c < |r| ==> r[c] == GroupRuleAt(it, c)
  {
    GroupHandles(it.dist, it.g, it.el)
  }

  function GroupHandles(dist: nat, g: nat, el: seq<int>): (r: seq<int>)
    ensures |r| == dist + 2 && forall c :: 0 <= c < |r| ==> r[c] == HandleAt(dist, g, el, c)
  {
    seq(dist + 2, c requires 0 <= c => HandleAt(dist, g, el, c))
  }

  // The numbers at the first n handles.
  function SumAt(a: seq<int>, hs: seq<int>, n: nat): int
    requires n <= |hs|
  {
    if n == 0 then 0 else SumAt(a, hs, n - 1) + if 0 <= hs[n - 1] < |a| then a[hs[n - 1]] else 0
  }

  // The same without those already inserted.
  function RestAt(a: seq<int>, hs: seq<int>, inserted: seq<bool>, n: nat): int
    requires n <= |hs| == |inserted|
  {
    if n == 0 then 0
    else RestAt(a, hs, inserted, n - 1) + if 0 <= hs[n - 1] < |a| && !inserted[n - 1] then a[hs[n - 1]] else 0
  }

  lemma {:induction false} RestOfOne(a: seq<int>, hs: seq<int>, inserted: seq<bool>, c: nat, n: nat)
    requires n <= |hs| == |inserted| && c < |hs| && 0 <= hs[c] < |a|
    requires forall d :: 0 <= d < |hs| ==> (inserted[d] <==> d == c)
    ensures RestAt(a, hs, inserted, n) == SumAt(a, hs, n) - if c < n then a[hs[c]] else 0
  {
    if n > 0 { RestOfOne(a, hs, inserted, c, n - 1); }
  }

  // Whether the cubes of the group have more literals than the pair and extra, or at least as
  // many; the quantum cost is not modelled.
  method Worse(s: Exorcism, it: LinkIterator, extra: int, atLeast: bool) returns (b: bool)
    requires it.pa < |s.a| && it.pb < |s.a| && forall c :: 0 <= c < it.dist + 2 ==> 0 <= GroupRuleAt(it, c) < |s.a|
    ensures !s.useQCost ==> (b <==>
      var sum, pair := SumAt(s.a, Group(it), it.dist + 2), s.a[it.pa] + s.a[it.pb] + extra;
      sum > pair || (atLeast && sum == pair))
  {
    if s.useQCost {
      b := *;
    } else {
      var sum := 0;
      for c := 0 to it.dist + 2
        invariant sum == SumAt(s.a, Group(it), c)
      {
        sum := sum + s.a[GroupRuleAt(it, c)];
      }
      var pair := s.a[it.pa] + s.a[it.pb] + extra;
      b := if atLeast then sum >= pair else sum > pair;
    }
  }

  // Give the cubes of the group that have not been inserted to the cover, and take the group.
  method TakeGroup(s: Exorcism, it: LinkIterator, inserted: seq<bool>, ghost e: Store, ghost s0: Store,
                   ghost gain: int) returns (ghost total: int)
    requires s.Valid() && s.Queues() && Origin(e, s0, s.nv, s.no) && it.GroupMade() && it.dist < 3
    requires |inserted| == it.dist + 2
    requires Pairing(it.L(), s0, s.St(), inserted, gain, s.nv, s.no) && gain >= it.dist && Spread(s.St())
    requires Held(it.el, e, s.St())
    modifies it`el, s`data, s`info, s`a, s`z, s`list, s`free, s`cover, s`pool, s`nCubesInUse, s`nCubesFree, s`change,
             s`que
    ensures Ready(s) && Handled(e, s.St(), s.no, true) && total >= gain && |s.cover| + total == |e.cover| + it.dist
    ensures total == gain ==> Lits(s.St()) == old(Lits(s.St()) + RestAt(s.a, Group(it), inserted, it.dist + 2))
  {
    hide Ok, Pairing, Origin, QueueOk, LinkIterator.GroupMade, Exorcism.Queues, Step, NoneOut, Spread, Lits, Alike,
      RestAt, Group, Held, Kin, NoMarks;
    ghost var flags;
    flags, total := GiveRest(s, it, inserted, e, s0, gain);
    OriginParts(e, s0, s.nv, s.no);
    AllGiven(it.L(), s0, s.St(), flags, total, s.nv, s.no);
    ghost var t := s.St();
    HeldParts(it.el, e, t);
    Accept(s, it, e, s0, flags, total);
    SameCosts(t, s.St());
    KinAccepted(e, t, s.St());
  }

  lemma HeldParts(el: seq<int>, e: Store, s: Store)
    requires Held(el, e, s)
    ensures MarksIn(el, s, 0) && Kin(e, s)
  {
  }

  lemma KinAccepted(e: Store, s: Store, t: Store)
    requires Kin(e, s) && SameIds(s, t) && t.cover == s.cover && t.data == s.data
    ensures Kin(e, t)
  {
  }

  method GiveRest(s: Exorcism, it: LinkIterator, inserted: seq<bool>, ghost e: Store, ghost s0: Store, ghost gain: int)
    returns (ghost flags: seq<bool>, ghost total: int)
    requires s.Valid() && s.Queues() && it.GroupMade() && it.dist < 3 && |inserted| == it.dist + 2
    requires Pairing(it.L(), s0, s.St(), inserted, gain, s.nv, s.no) && Spread(s.St()) && Held(it.el, e, s.St())
    modifies s`data, s`info, s`a, s`z, s`list, s`free, s`cover, s`pool, s`nCubesInUse, s`nCubesFree, s`change, s`que
    ensures s.Valid() && s.Queues() && Pairing(it.L(), s0, s.St(), flags, total, s.nv, s.no) && Spread(s.St())
    ensures total >= gain && Held(it.el, e, s.St())
    ensures |flags| == it.dist + 2 && forall c :: 0 <= c < |flags| ==> flags[c]
    ensures total == gain ==> Lits(s.St()) == old(Lits(s.St()) + RestAt(s.a, Group(it), inserted, it.dist + 2))
  {
    hide Ok, Pairing, LinkIterator.GroupMade, Exorcism.Valid, Exorcism.Queues, Spread, FarFrom, Merged, Lits,
      HandleAt, GroupHandles, Held, Steady;
    flags, total := inserted, gain;
    for d := 0 to it.dist + 2
      invariant s.Valid() && s.Queues() && it.GroupMade() && |flags| == it.dist + 2 && total >= gain
      invariant Pairing(it.L(), s0, s.St(), flags, total, s.nv, s.no) && Spread(s.St())
      invariant Held(it.el, e, s.St())
      invariant (forall c :: 0 <= c < d ==> flags[c]) && forall c :: d <= c < it.dist + 2 ==> flags[c] == inserted[c]
      invariant total == gain ==>
        s.a == old(s.a) && Lits(s.St()) == old(Lits(s.St()) + RestAt(s.a, Group(it), inserted, d))
    {
      if !inserted[d] {
        ghost var t := s.St();
        var more := Give(s, it, d, true, s0, flags, total);
        HeldGive(it, e, t, s.St(), d);
        flags, total := flags[d := true], total + more;
      }
    }
  }

  lemma HeldGive(it: LinkIterator, e: Store, s: Store, t: Store, c: nat)
    requires Held(it.el, e, s) && GroupRuleAt(it, c) >= 0 && Steady(s, t, GroupRuleAt(it, c))
    ensures Held(it.el, e, t)
  {
    HeldStep(it.el, e, s, t, GroupRule(it.dist, it.g)[c]);
  }

  lemma OriginParts(e: Store, s0: Store, nv: nat, no: nat)
    requires Origin(e, s0, nv, no)
    ensures Ok(e, nv, no, -1) && NoneOut(e) && |e.pool| >= 32 && Step(e, s0, no) && |e.cover| == |s0.cover|
    ensures Spread(s0) && Alike(e, s0)
  {
  }

  lemma AllGiven(l: Link, s0: Store, s: Store, flags: seq<bool>, total: int, nv: nat, no: nat)
    requires Pairing(l, s0, s, flags, total, nv, no) && forall c :: 0 <= c < |flags| ==> flags[c]
    ensures |s.cover| + total == |s0.cover| + l.dist
  {
    WholeGroup(l, s0, s, flags, total, nv, no);
  }

  // The literals and the distances depend on the cover alone.
  lemma SameCosts(s: Store, t: Store)
    requires t.data == s.data && t.a == s.a && t.cover == s.cover
    ensures Lits(t) == Lits(s) && (Spread(s) ==> Spread(t))
  {
  }

  // ---- Giving the pair up ----

  // Once all groups have been visited all cubes of the table exist.
  lemma AllMade(it: LinkIterator)
    requires it.VisitedMade() && forall i :: 0 <= i < |it.visited| ==> it.visited[i]
    ensures it.dist < 3 && |it.el| == 32 && forall k :: 0 <= k < 32 && k < CubeCount(it.dist) ==> it.el[k] != -1
  {
    hide GroupRule;
    forall k: nat | k < 32 && k < CubeCount(it.dist) ensures it.el[k] != -1 {
      EveryCubeInGroup(it.dist, k);
      var u := FirstUse(it.dist, k);
      assert it.visited[u.0] && Placed(GroupRule(it.dist, u.0), |GroupRule(it.dist, u.0)|, it.el);
    }
  }

  method GiveUp(s: Exorcism, it: LinkIterator, ghost e: Store, ghost s0: Store)
    requires Opened(s, it, e, s0) && forall i :: 0 <= i < |it.visited| ==> it.visited[i]
    modifies it`el, s`info, s`list, s`cover, s`nCubesInUse, s`free, s`pool, s`nCubesFree
    ensures Ready(s) && Handled(e, s.St(), s.no, false)
  {
    hide Ok, Pairing, Creating, Origin, Missing, Exorcism.Queues, Step, NoneOut, Spread, LinkIterator.VisitedMade,
      Alike, Bound, Kin, NoMarks;
    AllMade(it);
    OriginParts(e, s0, s.nv, s.no);
    ghost var l, t := it.L(), s.St();
    PairContents(l, t, true, s.nv, s.no);
    BoundHeld(l, e, t);
    Reject(s, it, e, s0);
    GivenUp(l, e, s0, t, s.St());
    KinBack(l, e, t, s.St());
  }

  lemma BoundHeld(l: Link, e: Store, s: Store)
    requires Bound(l, e, s)
    ensures Held(l.el, e, s) && MarksIn(l.el, s, 0) && Linkable(e, l.pa, l.pb, l.dist)
  {
  }

  lemma KinBack(l: Link, e: Store, s: Store, t: Store)
    requires Bound(l, e, s) && t.data == s.data && t.cover == [l.pb] + ([l.pa] + s.cover) && |t.info| == |s.info|
    requires forall h: nat :: h in t.cover && h < |t.info| ==> t.info[h].id == s.info[h].id
    requires l.pa < |s.data| && l.pb < |s.data| && s.data[l.pa] == l.da && s.data[l.pb] == l.db
    ensures Kin(e, t)
  {
  }

  lemma GivenUp(l: Link, e: Store, s0: Store, s: Store, t: Store)
    requires Missing(l, s0, s) && Alike(e, s0) && Spread(s0) && t.cover == [l.pb] + ([l.pa] + s.cover)
    requires t.data == s.data && t.a == s.a && |t.cover| == |s0.cover|
    requires s.data[l.pa] == l.da && s.data[l.pb] == l.db && s.a[l.pa] == Literals(l.da.lits)
    requires s.a[l.pb] == Literals(l.db.lits)
    ensures Alike(e, t) && Spread(t)
  {
    hide Spread;
    MissingBack(l, s0, s, t);
    SpreadSame(s0, t);
  }

  // ---- Distance two ----

  // The contents of the cube at place c of the group.
  function PlaceData(s: Exorcism, it: LinkIterator, c: nat): Prod
    reads it, s`data
  {
    if 0 <= GroupRuleAt(it, c) < |s.data| then s.data[GroupRuleAt(it, c)] else Prod([], [])
  }

  // The cubes of the group are those of the table, and the cover is the rest of that of e.
  lemma PlaceRule(s: Exorcism, it: LinkIterator, e: Store, s0: Store, c: nat)
    requires Opened(s, it, e, s0) && it.GroupMade() && c < it.dist + 2
    ensures Linkable(e, it.pa, it.pb, it.dist) && it.g < GroupCount(it.dist) && 0 <= GroupRuleAt(it, c) < |s.data|
    ensures PlaceData(s, it, c) == LinkCube(e, it.pa, it.pb, it.dist, it.g, c)
    ensures FarFrom(s.St(), PlaceData(s, it, c)) <==>
      FarRest(e, it.pa, it.pb, LinkCube(e, it.pa, it.pb, it.dist, it.g, c))
    ensures |s.a| == |s.data| && s.a[GroupRuleAt(it, c)] == Literals(PlaceData(s, it, c).lits)
  {
    hide Ok, Pairing, Creating, Origin, GroupRule, Missing, Spread, RuleProd, FarFrom, FarRest, Held, SameIds, Linkable,
      LinkIterator.VisitedMade;
    RestFar(it.L(), e, s0, s.St(), PlaceData(s, it, c), s.nv, s.no);
    GroupCube(it, s0, s.St(), NoFlags(it.dist), 0, c, s.nv, s.no);
    TablePlace(it.L(), s0, s.St(), c, s.nv, s.no);
    BoundHeld(it.L(), e, s.St());
  }

  lemma RestFar(l: Link, e: Store, s0: Store, s: Store, x: Prod, nv: nat, no: nat)
    requires Origin(e, s0, nv, no) && Missing(l, s0, s)
    ensures FarFrom(s, x) <==> FarRest(e, l.pa, l.pb, x)
  {
    hide FarApart, Step, Ok, Spread;
  }

  lemma TablePlace(l: Link, s0: Store, s: Store, c: nat, nv: nat, no: nat)
    requires Pairing(l, s0, s, NoFlags(l.dist), 0, nv, no) && c < l.dist + 2
    requires l.dist < 3 && |GroupRule(l.dist, l.g)| == l.dist + 2
    requires GroupRule(l.dist, l.g)[c] < 32 == |l.el| && 0 <= l.el[GroupRule(l.dist, l.g)[c]] < |s.data|
    ensures l.g < GroupCount(l.dist) && GroupRule(l.dist, l.g)[c] < CubeCount(l.dist)
    ensures Apart(l.da, l.db, l.dist, nv, no) && |s.a| == |s.data|
    ensures s.data[l.el[GroupRule(l.dist, l.g)[c]]] == RuleProd(l.da, l.db, l.dist, GroupRule(l.dist, l.g)[c])
    ensures s.a[l.el[GroupRule(l.dist, l.g)[c]]] == Literals(s.data[l.el[GroupRule(l.dist, l.g)[c]]].lits)
  {
    var k := GroupRule(l.dist, l.g)[c];
    GroupShape(l.dist, l.g);
    NoneUsed(l, k);
    hide GroupRule, RuleProd, OpenSum, Outside;
    assert RuleHeld(l, s, k, nv, no);
    assert CubeOk(s, l.el[k], nv, no);
  }

  // Check the two cubes of the group: with a gain the group is taken.
  method TryBoth(s: Exorcism, it: LinkIterator, ghost e: Store, ghost s0: Store) returns (taken: bool)
    requires Opened(s, it, e, s0) && it.GroupMade() && it.dist == 0
    modifies it`el, s`data, s`info, s`a, s`z, s`list, s`free, s`cover, s`pool, s`nCubesInUse, s`nCubesFree, s`change,
             s`que
    ensures taken ==> Ready(s) && Handled(e, s.St(), s.no, true) && |s.cover| < |e.cover|
    ensures !taken ==> Opened(s, it, e, s0) && it.GroupMade() && it.el == old(it.el)
    ensures !taken ==> FarFrom(s.St(), PlaceData(s, it, 0)) && FarFrom(s.St(), PlaceData(s, it, 1))
    ensures Linkable(e, it.pa, it.pb, 0) && it.g < 2 && (taken <==> CloseGroup(e, it.pa, it.pb, 0, it.g))
  {
    hide Linkable, LinkCube, FarRest, Ok, Pairing, Creating, Origin, Missing, Exorcism.Queues, Spread,
      LinkIterator.VisitedMade,
      LinkIterator.GroupMade, Alike, FarFrom, Merged, HandleAt, Step,
      NoneOut, Lits, RestAt, NoFlags, Bound, Held, Steady, Kin;
    FlagsTwo();
    OpenedSpread(s, it, e, s0);
    BoundHeld(it.L(), e, s.St());
    PlaceRule(s, it, e, s0, 0);
    PlaceRule(s, it, e, s0, 1);
    ghost var t := s.St();
    ghost var total;
    var more := Give(s, it, 0, false, s0, NoFlags(it.dist), 0);
    if more > 0 {
      HeldGive(it, e, t, s.St(), 0);
      total := TakeGroup(s, it, [true, false], e, s0, more);
      return true;
    }
    more := Give(s, it, 1, false, s0, NoFlags(it.dist), 0);
    if more > 0 {
      HeldGive(it, e, t, s.St(), 1);
      total := TakeGroup(s, it, [false, true], e, s0, more);
      return true;
    }
    taken := false;
  }

  lemma FlagsTwo()
    ensures NoFlags(0) == [false, false] && NoFlags(0)[0 := true] == [true, false]
    ensures NoFlags(0)[1 := true] == [false, true] && [true, false][1 := true] == [true, true]
  {
  }

  lemma OpenedSpread(s: Exorcism, it: LinkIterator, e: Store, s0: Store)
    requires Opened(s, it, e, s0)
    ensures Spread(s.St()) && Lits(s0) == Lits(s.St()) + Literals(it.da.lits) + Literals(it.db.lits)
    ensures Lits(e) == Lits(s0)
    ensures it.pa < |s.a| && it.pb < |s.a| && s.a[it.pa] == Literals(it.da.lits) && s.a[it.pb] == Literals(it.db.lits)
  {
    MissingSpread(it.L(), s0, s.St());
    MissingLits(it.L(), s0, s.St());
    OriginSizes(e, s0, s.nv, s.no);
    LitsSame(e, s0);
    PairContents(it.L(), s.St(), true, s.nv, s.no);
  }

  lemma OriginSizes(e: Store, s0: Store, nv: nat, no: nat)
    requires Origin(e, s0, nv, no)
    ensures |e.a| == |e.data| && Alike(e, s0)
  {
  }

  // Put the cube at place c into the cover without checking it again.
  method InsertOne(s: Exorcism, it: LinkIterator, c: nat, ghost s0: Store, ghost flags: seq<bool>)
    requires s.Valid() && s.Queues() && Pairing(it.L(), s0, s.St(), flags, 0, s.nv, s.no) && it.GroupMade()
    requires c < |flags| && !flags[c]
    modifies s`info, s`list, s`cover, s`nCubesInUse
    ensures s.Valid() && s.Queues() && Pairing(it.L(), s0, s.St(), flags[c := true], 0, s.nv, s.no)
    ensures 0 <= GroupRuleAt(it, c) < |s.data| == |s.a| && s.cover == [GroupRuleAt(it, c) as nat] + old(s.cover)
    ensures Spread(old(s.St())) && FarFrom(old(s.St()), s.data[GroupRuleAt(it, c)]) ==> Spread(s.St())
    ensures Lits(s.St()) == Lits(old(s.St())) + s.a[GroupRuleAt(it, c)]
    ensures Steady(old(s.St()), s.St(), GroupRuleAt(it, c))
  {
    hide Ok, Pairing, Exorcism.Queues, Spread, LinkIterator.GroupMade, FarFrom, Lits, GroupRule, Added, Kept,
      AfterInsert, Steady;
    GroupCube(it, s0, s.St(), flags, 0, c, s.nv, s.no);
    ghost var t := s.St();
    var p := it.el[GroupRule(it.dist, it.g)[c]];
    SteadyInsert(t, p, s.nv, s.no);
    s.CubeInsert(p);
    GiveCube(it.L(), s0, t, s.St(), flags, c, 0, 0, s.nv, s.no);
    LitsInserted(t, p);
    if Spread(t) && FarFrom(t, t.data[p]) { SpreadMore(t, s.St(), p); }
  }

  lemma PlacesFar(l: Link, s: Store, it: LinkIterator, s0: Store, nv: nat, no: nat)
    requires l == it.L() && l.dist == 0 && Pairing(l, s0, s, NoFlags(0), 0, nv, no) && it.GroupMade()
    ensures 0 <= GroupRuleAt(it, 0) < |s.data| && 0 <= GroupRuleAt(it, 1) < |s.data|
    ensures FarApart(s.data[GroupRuleAt(it, 1)], s.data[GroupRuleAt(it, 0)])
  {
    hide Ok, GroupRule, CubeRule, RuleProd, SumOf, PartSum, Value, FarApart, Used;
    GroupFar(l.da, l.db, l.g, nv, no);
    NotUsed(l, NoFlags(0), 0, nv, no);
    NotUsed(l, NoFlags(0), 1, nv, no);
    assert RuleHeld(l, s, GroupRule(0, l.g)[0], nv, no) && RuleHeld(l, s, GroupRule(0, l.g)[1], nv, no);
    FarBack(s.data[GroupRuleAt(it, 0)], s.data[GroupRuleAt(it, 1)]);
  }

  lemma FarMore(s: Store, t: Store, p: nat, d: Prod)
    requires FarFrom(s, d) && t.data == s.data && t.cover == [p] + s.cover && p < |s.data| && FarApart(d, s.data[p])
    ensures FarFrom(t, d)
  {
    hide FarApart;
  }

  // The handles that the literal counts are read from.
  lemma Countable(s: Exorcism, it: LinkIterator, e: Store, s0: Store)
    requires Opened(s, it, e, s0)
    ensures it.pa < |s.a| && it.pb < |s.a|
    ensures it.GroupMade() ==> forall c :: 0 <= c < it.dist + 2 ==> 0 <= GroupRuleAt(it, c) < |s.a|
  {
    hide Ok, Pairing, Creating, Origin, GroupRule;
    if it.GroupMade() {
      forall c: nat | c < it.dist + 2
        ensures 0 <= GroupRuleAt(it, c) < |s.a|
      { GroupCube(it, s0, s.St(), NoFlags(it.dist), 0, c, s.nv, s.no); }
    }
  }

  lemma SumTwo(a: seq<int>, hs: seq<int>)
    requires |hs| >= 2 && 0 <= hs[0] < |a| && 0 <= hs[1] < |a|
    ensures SumAt(a, hs, 2) == a[hs[0]] + a[hs[1]]
  {
    assert SumAt(a, hs, 1) == SumAt(a, hs, 0) + a[hs[0]];
  }

  // Take the last group without a gain.
  method InsertBoth(s: Exorcism, it: LinkIterator, ghost e: Store, ghost s0: Store)
    requires Opened(s, it, e, s0) && it.GroupMade() && it.dist == 0
    requires FarFrom(s.St(), PlaceData(s, it, 0)) && FarFrom(s.St(), PlaceData(s, it, 1))
    modifies it`el, s`info, s`list, s`free, s`cover, s`pool, s`nCubesInUse, s`nCubesFree
    ensures Ready(s) && Handled(e, s.St(), s.no, true) && |s.cover| == |e.cover|
    ensures Lits(s.St()) == Lits(e) - s.a[it.pa] - s.a[it.pb] + old(SumAt(s.a, Group(it), 2))
  {
    hide Ok, Pairing, Creating, Origin, Missing, Exorcism.Queues, Spread, LinkIterator.VisitedMade,
      LinkIterator.GroupMade, Alike, FarFrom, FarApart, HandleAt, Step,
      NoneOut, Lits, NoFlags, Bound, Held, Steady, Kin, NoMarks;
    FlagsTwo();
    OpenedSpread(s, it, e, s0);
    PlacesFar(it.L(), s.St(), it, s0, s.nv, s.no);
    OriginParts(e, s0, s.nv, s.no);
    Countable(s, it, e, s0);
    SumTwo(s.a, Group(it));
    ghost var t := s.St();
    BoundHeld(it.L(), e, t);
    InsertOne(s, it, 0, s0, NoFlags(0));
    HeldGive(it, e, t, s.St(), 0);
    ghost var v := s.St();
    FarMore(t, s.St(), GroupRuleAt(it, 0), PlaceData(s, it, 1));
    InsertOne(s, it, 1, s0, [true, false]);
    HeldGive(it, e, v, s.St(), 1);
    AllGiven(it.L(), s0, s.St(), [true, true], 0, s.nv, s.no);
    ghost var u := s.St();
    HeldParts(it.el, e, u);
    Accept(s, it, e, s0, [true, true], 0);
    SameCosts(u, s.St());
    KinAccepted(e, u, s.St());
  }

  // MarkRewind and ExorLinkCubeIteratorNext.
  method Rewind(s: Exorcism, it: LinkIterator, ghost e: Store, ghost s0: Store)
    requires Opened(s, it, e, s0)
    modifies s`que
    ensures Opened(s, it, e, s0)
  {
    hide Ok, Pairing, Creating, Origin, Missing, QueueOk, LinkIterator.VisitedMade, Bound;
    s.MarkRewind();
  }

  method NextGroup(s: Exorcism, it: LinkIterator, ghost e: Store, ghost s0: Store) returns (more: bool)
    requires Opened(s, it, e, s0)
    modifies it`el, it`g, it`visited, s`data, s`info, s`a, s`z, s`free, s`pool, s`nCubesFree, s`cIDs
    ensures Opened(s, it, e, s0) && |it.visited| == |old(it.visited)| == GroupCount(it.dist)
    ensures Marks(it.L(), s.St()) == old(Marks(it.L(), s.St()))
    ensures more ==>
      it.GroupMade() && it.g < |it.visited| && !old(it.visited)[it.g] && it.visited == old(it.visited)[it.g := true]
    ensures !more ==> it.visited == old(it.visited) && forall i :: 0 <= i < |it.visited| ==> it.visited[i]
  {
    hide Ok, Pairing, Creating, Origin, Missing, Exorcism.Queues, SameSum, GroupRule, LinkIterator.GroupMade, Placed,
      Bound, Fetched, Grown, Marks;
    ghost var l, t := it.L(), s.St();
    more := it.Next(s, s0);
    AlikeOf(t, s.St());
    MissingStill(l, it.L(), s0, t, s.St());
    OriginParts(e, s0, s.nv, s.no);
    NextBound(l, it.L(), e, s0, t, s.St(), s.nv, s.no);
  }

  // More cubes have been created.
  lemma NextBound(l: Link, m: Link, e: Store, s0: Store, s: Store, t: Store, nv: nat, no: nat)
    requires Bound(l, e, s) && m == l.(el := m.el, g := m.g) && Grown(l.el, m.el) && Fetched(s, t)
    requires Creating(l, s, true, nv, no) && Creating(m, t, true, nv, no) && Missing(l, s0, s) && Alike(e, s0)
    requires t.cover == s.cover
    ensures Bound(m, e, t) && Marks(m, t) == Marks(l, s)
  {
    hide Creating, Linkable, Ok, Marks, MarksIn, Kin, SameIds, Fetched, Grown;
    CreatingCubes(m, t, nv, no);
    FetchedMarks(s, t);
    GrownStays(l.el, m.el);
    MarksMade(l, m, s, t, NoFlags(m.dist), nv, no);
    assert forall h: nat :: h in e.cover ==> h in s.cover || h == l.pa || h == l.pb;
    Strangers(m, e, t, true, nv, no);
    NotFree(l, s, nv, no);
    FetchedKin(e, s, t);
  }

  lemma FetchedMarks(s: Store, t: Store)
    requires Fetched(s, t)
    ensures SameMarks(s, t)
  {
  }

  lemma GrownStays(e: seq<int>, f: seq<int>)
    requires Grown(e, f)
    ensures |e| == |f| && forall k :: 0 <= k < |e| && e[k] != -1 ==> f[k] == e[k]
  {
  }

  lemma FetchedKin(e: Store, s: Store, t: Store)
    requires Kin(e, s) && SameIds(e, s) && Fetched(s, t) && t.cover == s.cover
    requires forall h: nat :: h in e.cover ==> h !in s.pool
    ensures Kin(e, t) && SameIds(e, t)
  {
  }

  lemma CreatingCubes(l: Link, s: Store, nv: nat, no: nat)
    requires Creating(l, s, true, nv, no)
    ensures Cubes(l, s, NoFlags(l.dist), nv, no)
  {
  }

  lemma NotFree(l: Link, s: Store, nv: nat, no: nat)
    requires Creating(l, s, true, nv, no)
    ensures l.pa !in s.pool && l.pb !in s.pool && forall h :: h in s.cover ==> h !in s.pool
  {
  }

  lemma AlikeOf(s: Store, t: Store)
    requires SameSum(s, t)
    ensures Alike(s, t)
  {
  }

  // The last group has the fewest literals: it is lighter than the pair when any group is.
  lemma LastLighter(s: Exorcism, it: LinkIterator, e: Store, s0: Store, g: nat)
    requires Opened(s, it, e, s0) && it.GroupMade() && it.dist == 0 && g < 2 && g != it.g
    requires g < |it.costs| && forall i :: 0 <= i < |it.costs| ==> it.costs[i] <= it.costs[g]
    ensures Linkable(e, it.pa, it.pb, 0) && it.g < 2 && it.pa < |s.a| && it.pb < |s.a|
    ensures SomeLighter(e, it.pa, it.pb, 0) <==> SumAt(s.a, Group(it), 2) < s.a[it.pa] + s.a[it.pb]
  {
    hide Ok, Pairing, Creating, Origin, GroupRule, Missing, Spread, RuleProd, FarFrom, FarRest, Held, SameIds,
      Linkable, GroupRuleAt, Literals, GroupLiterals, Counts, Costs, Apart;
    OpenedSpread(s, it, e, s0);
    PlaceRule(s, it, e, s0, 0);
    PlaceRule(s, it, e, s0, 1);
    SumTwo(s.a, Group(it));
    PairContents(it.L(), s.St(), true, s.nv, s.no);
    GroupOrder(it, g, s.nv, s.no);
    LiteralsOfTwo(e, it.pa, it.pb, it.g);
    BoundHeld(it.L(), e, s.St());
    assert Lighter(e, it.pa, it.pb, 0, g) ==> Lighter(e, it.pa, it.pb, 0, it.g);
    assert Lighter(e, it.pa, it.pb, 0, it.g) <==> SumAt(s.a, Group(it), 2) < s.a[it.pa] + s.a[it.pb];
    OnlyTwo(e, it.pa, it.pb, g, it.g);
  }

  lemma OnlyTwo(e: Store, p1: nat, p2: nat, g: nat, g': nat)
    requires Linkable(e, p1, p2, 0) && g < 2 && g' < 2 && g != g'
    ensures SomeLighter(e, p1, p2, 0) <==> Lighter(e, p1, p2, 0, g) || Lighter(e, p1, p2, 0, g')
  {
    hide Lighter, Linkable;
  }

  // Costs order the groups by their literals.
  lemma GroupOrder(it: LinkIterator, g: nat, nv: nat, no: nat)
    requires it.Counted() && it.dist == 0 && it.g < 2 && g < 2 && Apart(it.da, it.db, 0, nv, no)
    requires |it.costs| == 2 && it.costs[it.g] <= it.costs[g]
    ensures GroupLiterals(it.da, it.db, 0, it.g, 2) <= GroupLiterals(it.da, it.db, 0, g, 2)
  {
    hide Counts, Apart, GroupLiterals, GroupCost;
    CostIsLiterals(it.da, it.db, 0, it.g, 2, it.starting, it.counts, nv, no);
    CostIsLiterals(it.da, it.db, 0, g, 2, it.starting, it.counts, nv, no);
  }

  lemma LiteralsOfTwo(e: Store, p1: nat, p2: nat, g: nat)
    requires Linkable(e, p1, p2, 0) && g < 2
    ensures GroupLiterals(e.data[p1], e.data[p2], 0, g, 2) ==
      Literals(LinkCube(e, p1, p2, 0, g, 0).lits) + Literals(LinkCube(e, p1, p2, 0, g, 1).lits)
  {
    hide Literals, RuleProd;
    GroupShape(0, g);
    assert GroupLiterals(e.data[p1], e.data[p2], 0, g, 1) == Literals(LinkCube(e, p1, p2, 0, g, 0).lits);
  }

  // A group that gains nothing is taken, unless literals count and it is not lighter than the pair.
  method TakeLast(s: Exorcism, it: LinkIterator, ghost g: nat, ghost e: Store, ghost s0: Store) returns (taken: bool)
    requires Opened(s, it, e, s0) && it.GroupMade() && it.dist == 0 && g < 2 && g != it.g
    requires g < |it.costs| && forall i :: 0 <= i < |it.costs| ==> it.costs[i] <= it.costs[g]
    requires forall i :: 0 <= i < |it.visited| ==> it.visited[i]
    requires FarFrom(s.St(), PlaceData(s, it, 0)) && FarFrom(s.St(), PlaceData(s, it, 1))
    modifies it`el, s`info, s`list, s`free, s`cover, s`pool, s`nCubesInUse, s`nCubesFree, s`que
    ensures Ready(s) && Handled(e, s.St(), s.no, taken) && |s.cover| == |e.cover|
    ensures Linkable(e, it.pa, it.pb, 0) && (!s.decreaseLiterals ==> taken)
    ensures s.decreaseLiterals && !s.useQCost ==> (taken <==> SomeLighter(e, it.pa, it.pb, 0))
    ensures taken && s.decreaseLiterals && !s.useQCost ==> Lits(s.St()) < Lits(e)
  {
    hide Opened, Ready, Handled, Lits, FarFrom, LinkIterator.GroupMade, LinkIterator.VisitedMade, GroupRuleAt, SumAt,
      Linkable, SomeLighter;
    LastLighter(s, it, e, s0, g);
    if s.decreaseLiterals {
      Countable(s, it, e, s0);
      var worse := Worse(s, it, 0, true);
      if worse {
        Rewind(s, it, e, s0);
        GiveUp(s, it, e, s0);
        HandledSize(e, s.St(), s.no);
        return false;
      }
    }
    InsertBoth(s, it, e, s0);
    taken := true;
  }

  lemma HandledSize(e: Store, t: Store, no: nat)
    requires Handled(e, t, no, false)
    ensures |t.cover| == |e.cover|
  {
  }

  // The second group, when the first one has gained nothing.
  method TrySecond(s: Exorcism, it: LinkIterator, ghost e: Store, ghost s0: Store) returns (taken: bool)
    requires Opened(s, it, e, s0) && it.dist == 0 && it.g < 2 == |it.visited| && it.g < |it.costs|
    requires forall i :: 0 <= i < |it.costs| ==> it.costs[i] <= it.costs[it.g]
    requires forall i :: 0 <= i < |it.visited| ==> (it.visited[i] <==> i == it.g)
    modifies it`el, it`g, it`visited, s`data, s`info, s`a, s`z, s`list, s`free, s`cover, s`pool, s`nCubesInUse,
             s`nCubesFree, s`change, s`que, s`cIDs
    ensures Ready(s) && Handled(e, s.St(), s.no, taken) && Linkable(e, it.pa, it.pb, 0) && it.g == 1 - old(it.g)
    ensures |s.cover| < |e.cover| <==> CloseGroup(e, it.pa, it.pb, 0, it.g)
    ensures |s.cover| < |e.cover| || !s.decreaseLiterals ==> taken
    ensures |s.cover| >= |e.cover| && s.decreaseLiterals && !s.useQCost ==>
      (taken <==> SomeLighter(e, it.pa, it.pb, 0))
    ensures taken && s.decreaseLiterals && !s.useQCost ==>
      |s.cover| < |e.cover| || (|s.cover| == |e.cover| && Lits(s.St()) < Lits(e))
  {
    hide Opened, Ready, Handled, Lits, FarFrom, LinkIterator.GroupMade, LinkIterator.VisitedMade, GroupRuleAt, SumAt,
      Linkable, CloseGroup, SomeLighter;
    Rewind(s, it, e, s0);
    ghost var g := it.g;
    assert !it.visited[1 - it.g];
    var more := NextGroup(s, it, e, s0);
    taken := TryBoth(s, it, e, s0);
    if !taken {
      taken := TakeLast(s, it, g, e, s0);
    }
  }

  // One round of IterativelyApplyExorLink2. The cover shrinks exactly when the pair has the distance and some
  // cube of its two groups is close to the rest of the cover. Without such a cube the last group is taken, or
  // if literals count, only when some group is lighter than the pair.
  method TryTwo(s: Exorcism, it: LinkIterator, p1: nat, p2: nat) returns (taken: bool)
    requires Ready(s) && p1 in s.cover && p2 in s.cover
    modifies it, s`data, s`info, s`a, s`z, s`list, s`free, s`cover, s`pool, s`nCubesInUse, s`nCubesFree, s`change,
             s`que, s`cIDs, s`marked
    ensures Ready(s) && Handled(old(s.St()), s.St(), s.no, taken)
    ensures TriedTwo(old(s.St()), s.St(), p1, p2, taken, s.decreaseLiterals, s.useQCost)
    ensures !Linkable(old(s.St()), p1, p2, 0) ==> s.que == old(s.que)
  {
    hide Opened, Ready, Handled, Lits, LinkIterator.GroupMade, LinkIterator.VisitedMade, Linkable, CloseGroup,
      SomeLighter, TriedTwo, Improvable;
    ghost var e, s0 := s.St(), s.St();
    var ok;
    ok, s0 := Begin(s, it, p1, p2, 0);
    if !ok {
      HandledSize(e, s.St(), s.no);
      NotLinked(e, s.St(), p1, p2, s.decreaseLiterals, s.useQCost);
      return false;
    }
    taken := TryGroups(s, it, p1, p2, e, s0);
  }

  // The two groups of a pair that has been taken out.
  method TryGroups(s: Exorcism, it: LinkIterator, p1: nat, p2: nat, ghost e: Store, ghost s0: Store)
    returns (taken: bool)
    requires Opened(s, it, e, s0) && it.GroupMade() && it.dist == 0 && it.pa == p1 && it.pb == p2
    requires it.g < |it.costs| && it.g < 2 == |it.visited|
    requires forall i :: 0 <= i < |it.costs| ==> it.costs[i] <= it.costs[it.g]
    requires forall i :: 0 <= i < |it.visited| ==> (it.visited[i] <==> i == it.g)
    modifies it`el, it`g, it`visited, s`data, s`info, s`a, s`z, s`list, s`free, s`cover, s`pool, s`nCubesInUse,
             s`nCubesFree, s`change, s`que, s`cIDs
    ensures Ready(s) && Handled(e, s.St(), s.no, taken) && Linkable(e, p1, p2, 0)
    ensures TriedTwo(e, s.St(), p1, p2, taken, s.decreaseLiterals, s.useQCost)
  {
    hide Opened, Ready, Handled, Lits, LinkIterator.GroupMade, LinkIterator.VisitedMade, Linkable, CloseGroup,
      SomeLighter, TriedTwo, Improvable;
    ghost var g := it.g;
    taken := TryBoth(s, it, e, s0);
    if !taken {
      taken := TrySecond(s, it, e, s0);
    }
    BothTried(e, s.St(), p1, p2, g, taken, s.decreaseLiterals, s.useQCost);
  }

  lemma NotLinked(e: Store, t: Store, p1: nat, p2: nat, counting: bool, quantum: bool)
    requires !Linkable(e, p1, p2, 0) && |t.cover| == |e.cover|
    ensures TriedTwo(e, t, p1, p2, false, counting, quantum)
  {
    hide Linkable;
  }

  // The group g, and when it gains nothing the other one.
  lemma BothTried(e: Store, t: Store, p1: nat, p2: nat, g: nat, taken: bool, counting: bool, quantum: bool)
    requires Linkable(e, p1, p2, 0) && g < 2
    requires |t.cover| < |e.cover| <==> CloseGroup(e, p1, p2, 0, g) || CloseGroup(e, p1, p2, 0, 1 - g)
    requires |t.cover| < |e.cover| || !counting ==> taken
    requires |t.cover| >= |e.cover| && counting && !quantum ==> (taken <==> SomeLighter(e, p1, p2, 0))
    requires taken && counting && !quantum ==>
      |t.cover| < |e.cover| || (|t.cover| == |e.cover| && Lits(t) < Lits(e))
    ensures TriedTwo(e, t, p1, p2, taken, counting, quantum)
  {
    hide Linkable, CloseGroup, SomeLighter, Lits;
    assert GroupCount(0) == 2;
  }

  // ---- Distance three and four ----

  // The number of the cube at place c in the table.
  function PlaceNumber(it: LinkIterator, c: nat): nat
    reads it
  {
    if it.dist < 3 && c < |GroupRule(it.dist, it.g)| then GroupRule(it.dist, it.g)[c] else 0
  }

  // The mark of the cube at place c.
  lemma PlaceMarked(s: Exorcism, it: LinkIterator, e: Store, s0: Store, c: nat)
    requires Opened(s, it, e, s0) && it.GroupMade() && c < it.dist + 2
    ensures 0 <= GroupRuleAt(it, c) < |s.info|
    ensures s.info[GroupRuleAt(it, c)].mark <==> PlaceNumber(it, c) in Marks(it.L(), s.St())
    ensures Linkable(e, it.pa, it.pb, it.dist) && it.g < GroupCount(it.dist) && PlaceNumber(it, c) < CubeCount(it.dist)
    ensures LinkCube(e, it.pa, it.pb, it.dist, it.g, c) == TableCube(e, it.pa, it.pb, it.dist, PlaceNumber(it, c))
  {
    hide GroupRule, RuleProd, FarFrom, FarRest, Linkable;
    PlaceOf(s, it, e, s0, c);
    PlaceIndex(s, it, e, s0, c);
    PlaceRule(s, it, e, s0, c);
    GroupShape(it.dist, it.g);
  }

  // fMark of the cube at place c.
  method MarkPlace(s: Exorcism, it: LinkIterator, c: nat, m: bool, ghost e: Store, ghost s0: Store)
    requires Opened(s, it, e, s0) && it.GroupMade() && c < it.dist + 2
    modifies s`info
    ensures Opened(s, it, e, s0) && |s.info| == |old(s.info)|
    ensures Marks(it.L(), s.St()) ==
      if m then old(Marks(it.L(), s.St())) + {PlaceNumber(it, c)} else old(Marks(it.L(), s.St())) - {PlaceNumber(it, c)}
  {
    hide Marks, Ok, Pairing, Creating, Origin, Exorcism.Queues, LinkIterator.GroupMade, LinkIterator.VisitedMade,
      HandleAt,
      Bound;
    PlaceOf(s, it, e, s0, c);
    ghost var t := s.St();
    PlaceIndex(s, it, e, s0, c);
    MarkBound(it.L(), e, t, GroupRule(it.dist, it.g)[c], m);
    SetMark(s, GroupRuleAt(it, c), m, it, s0);
  }

  lemma PlaceIndex(s: Exorcism, it: LinkIterator, e: Store, s0: Store, c: nat)
    requires Opened(s, it, e, s0) && it.GroupMade() && c < it.dist + 2
    ensures it.dist < 3 && |GroupRule(it.dist, it.g)| == it.dist + 2
    ensures var k := GroupRule(it.dist, it.g)[c]; k < |it.el| && it.el[k] == GroupRuleAt(it, c) && k < 32
    ensures forall i, j :: 0 <= i < j < |it.el| && it.el[i] != -1 ==> it.el[i] != it.el[j]
  {
    PairingCubes(it.L(), s0, s.St(), s.nv, s.no);
    hide Ok, Pairing, Creating, Origin, GroupRule;
    GroupCube(it, s0, s.St(), NoFlags(it.dist), 0, c, s.nv, s.no);
  }

  lemma PairingCubes(l: Link, s0: Store, s: Store, nv: nat, no: nat)
    requires Pairing(l, s0, s, NoFlags(l.dist), 0, nv, no)
    ensures |l.el| == 32 && forall i, j :: 0 <= i < j < |l.el| && l.el[i] != -1 ==> l.el[i] != l.el[j]
  {
  }

  lemma MarkBound(l: Link, e: Store, s: Store, k: nat, m: bool)
    requires Bound(l, e, s) && k < |l.el| && 0 <= l.el[k] < |s.info|
    requires forall i, j :: 0 <= i < j < |l.el| && l.el[i] != -1 ==> l.el[i] != l.el[j]
    ensures var t := Marked(s, l.el[k], m);
      Bound(l, e, t) && Marks(l, t) == if m then Marks(l, s) + {k} else Marks(l, s) - {k}
  {
    hide Linkable;
    var t := Marked(s, l.el[k], m);
    assert MarksIn(l.el, t, 0);
    forall j: nat ensures j in Marks(l, t) <==> if j == k then m else j in Marks(l, s) {
      assert j < |l.el| && j != k && l.el[j] >= 0 ==> l.el[j] != l.el[k];
    }
  }

  lemma PlaceOf(s: Exorcism, it: LinkIterator, e: Store, s0: Store, c: nat)
    requires Opened(s, it, e, s0) && it.GroupMade() && c < it.dist + 2
    ensures 0 <= GroupRuleAt(it, c) < |s.info| && GroupRuleAt(it, c) != it.pa && GroupRuleAt(it, c) != it.pb
  {
    hide Ok, Pairing, Creating, Origin, GroupRule;
    GroupCube(it, s0, s.St(), NoFlags(it.dist), 0, c, s.nv, s.no);
  }

  // Take the merge of the cube p back.
  method Undo(s: Exorcism, it: LinkIterator, ghost p: nat, ghost e: Store, ghost s0: Store, ghost t: Store)
    requires s.Valid() && s.Queues() && s.marked && it.VisitedMade() && it.dist < 3 && Origin(e, s0, s.nv, s.no)
    requires Missing(it.L(), s0, t)
    requires Pairing(it.L(), s0, t, NoFlags(it.dist), 0, s.nv, s.no) && Creating(it.L(), t, true, s.nv, s.no)
    requires Merged(t, s.St(), p, s.change) && Out(t, p) && Bound(it.L(), e, t)
    modifies s`data, s`info, s`a, s`z, s`list, s`free, s`cover, s`pool, s`nCubesInUse, s`nCubesFree
    ensures Opened(s, it, e, s0) && Marks(it.L(), s.St()) == Marks(it.L(), t)
  {
    hide Ok, Pairing, Creating, Origin, Missing, Exorcism.Queues, LinkIterator.VisitedMade, Merged, SameSum, NoFlags,
      Bound, Restored, Marks;
    TakeBack(s, it, s0, t, p, NoFlags(it.dist), 0);
    AlikeOf(t, s.St());
    MissingStill(it.L(), it.L(), s0, t, s.St());
    UndoneBound(it.L(), e, t, s.St(), p);
  }

  lemma UndoneBound(l: Link, e: Store, s: Store, t: Store, p: nat)
    requires Bound(l, e, s) && Restored(s, t, p)
    ensures Bound(l, e, t) && Marks(l, t) == Marks(l, s)
  {
    hide Linkable, SameSum;
    MarksSame(l, s, t);
  }

  // When literals count, a cover with as many cubes has no more of them.
  ghost predicate NotWorse(s: Exorcism, e: Store)
    reads s
  {
    s.decreaseLiterals && !s.useQCost ==> |s.cover| < |e.cover| || (|s.cover| == |e.cover| && Lits(s.St()) <= Lits(e))
  }

  // Check the cubes of a group of three one by one.
  method TryGroupThree(s: Exorcism, it: LinkIterator, ghost e: Store, ghost s0: Store) returns (taken: bool)
    requires Opened(s, it, e, s0) && it.GroupMade() && it.dist == 1
    requires Linkable(e, it.pa, it.pb, 1) && MarkedFar(e, it.pa, it.pb, 1, Marks(it.L(), s.St()))
    modifies it`el, s`data, s`info, s`a, s`z, s`list, s`free, s`cover, s`pool, s`nCubesInUse, s`nCubesFree, s`change,
             s`que
    ensures taken ==> Ready(s) && Handled(e, s.St(), s.no, true) && NotWorse(s, e)
    ensures !taken ==> Opened(s, it, e, s0) && MarkedFar(e, it.pa, it.pb, 1, Marks(it.L(), s.St()))
    ensures it.g < GroupCount(1) && (taken ==> CloseGroup(e, it.pa, it.pb, 1, it.g))
    ensures !taken ==> LeftThree(e, it.pa, it.pb, it.g, s.decreaseLiterals, s.useQCost)
  {
    hide Opened, Ready, Handled, NotWorse, LinkIterator.GroupMade, HandleAt, Linkable, FarRest, LinkCube, TableCube,
      Heavy, Marks, PlaceNumber;
    PlaceMarked(s, it, e, s0, 0);
    var c := 0;
    while c < 3
      invariant 0 <= c <= 3 && Opened(s, it, e, s0) && it.GroupMade()
      invariant MarkedFar(e, it.pa, it.pb, 1, Marks(it.L(), s.St()))
      invariant forall d :: 0 <= d < c ==> FarRest(e, it.pa, it.pb, LinkCube(e, it.pa, it.pb, 1, it.g, d))
    {
      PlaceMarked(s, it, e, s0, c);
      if !s.info[GroupRuleAt(it, c)].mark {
        var left;
        taken, left := TryCube(s, it, c, e, s0);
        if taken || left {
          return;
        }
        PlaceMarked(s, it, e, s0, c);
        MarkedMore(e, it.pa, it.pb, 1, Marks(it.L(), s.St()), PlaceNumber(it, c));
        MarkPlace(s, it, c, true, e, s0);
      }
      c := c + 1;
    }
    taken := false;
  }

  lemma MarkedMore(e: Store, p1: nat, p2: nat, d: nat, marks: set<nat>, k: nat)
    requires Linkable(e, p1, p2, d) && MarkedFar(e, p1, p2, d, marks) && k < CubeCount(d)
    requires FarRest(e, p1, p2, TableCube(e, p1, p2, d, k))
    ensures MarkedFar(e, p1, p2, d, marks + {k})
  {
    hide FarRest, TableCube;
  }

  lemma FlagsThree(c: nat)
    requires c < 3
    ensures NoFlags(1)[c := true] == [false, false, false][c := true] && |NoFlags(1)| == 3 && !NoFlags(1)[c]
  {
  }

  // One cube of a group of three; left: the group is not to be taken.
  method TryCube(s: Exorcism, it: LinkIterator, c: nat, ghost e: Store, ghost s0: Store)
    returns (taken: bool, left: bool)
    requires Opened(s, it, e, s0) && it.GroupMade() && it.dist == 1 && c < 3
    modifies it`el, s`data, s`info, s`a, s`z, s`list, s`free, s`cover, s`pool, s`nCubesInUse, s`nCubesFree, s`change,
             s`que
    ensures taken ==> Ready(s) && Handled(e, s.St(), s.no, true) && NotWorse(s, e)
    ensures !taken ==> Opened(s, it, e, s0) && Marks(it.L(), s.St()) == old(Marks(it.L(), s.St()))
    ensures !taken && !left ==> it.GroupMade()
    ensures Linkable(e, it.pa, it.pb, 1) && it.g < GroupCount(1)
    ensures taken || left <==> !FarRest(e, it.pa, it.pb, LinkCube(e, it.pa, it.pb, 1, it.g, c))
    ensures left ==> s.decreaseLiterals && (s.useQCost || Heavy(e, it.pa, it.pb, it.g))
  {
    hide Ok, Pairing, Creating, Origin, Missing, Exorcism.Queues, Spread, LinkIterator.VisitedMade,
      LinkIterator.GroupMade, Alike, FarFrom, Merged, HandleAt, Step,
      NoneOut, Lits, RestAt, SumAt, NoFlags, Ready, Handled, Group, Out, Exorcism.Valid, Bound, Held, Steady, Linkable,
      FarRest, LinkCube, Heavy, Marks;
    OpenedSpread(s, it, e, s0);
    BoundHeld(it.L(), e, s.St());
    Countable(s, it, e, s0);
    PlaceOf(s, it, e, s0, c);
    PlaceRule(s, it, e, s0, c);
    FlagsThree(c);
    PairingOk(it.L(), s0, s.St(), NoFlags(it.dist), 0, s.nv, s.no);
    ghost var t := s.St();
    left := false;
    var gain := Give(s, it, c, false, s0, NoFlags(it.dist), 0);
    if gain == 0 {
      return false, false;
    }
    var p: nat := GroupRuleAt(it, c);
    HeldGive(it, e, t, s.St(), c);
    if s.decreaseLiterals && gain == 1 {
      LitsMerged(t, s.St(), p, s.change, s.nv, s.no);
      RestOfOne(s.a, Group(it), [false, false, false][c := true], c, 3);
      var worse := Worse(s, it, s.change.prevQa, false);
      if worse {
        if !s.useQCost { HeavyFound(s, it, c, e, s0, t); }
        Undo(s, it, p, e, s0, t);
        return false, true;
      }
    }
    ghost var total := TakeGroup(s, it, [false, false, false][c := true], e, s0, gain);
    taken := true;
  }

  // A single merge, seen from the cover of e.
  lemma OnceFound(l: Link, e: Store, s0: Store, t: Store, u: Store, p: nat, k: nat, chg: Change, nv: nat, no: nat)
    requires Origin(e, s0, nv, no) && Missing(l, s0, t) && MergedAt(t, u, p, k, chg) && Ok(t, nv, no, -1) && Spread(u)
    requires Out(t, p)
    ensures k < |t.cover| && p < |t.data| && Once(e, l.pa, l.pb, t.data[p], t.cover[k])
    ensures u.data[p] == Joined(t.data[p], e.data[t.cover[k]])
  {
    hide Step, FarApart, Joined, Distance, Without, Ok;
    var q := t.cover[k];
    OkSizes2(t, nv, no);
    assert q in t.cover && u.cover[0] == p;
    OthersStay(t, k, nv, no);
    forall h: nat | h in e.cover && h != l.pa && h != l.pb && h != q && h < |e.data|
      ensures FarApart(Joined(t.data[p], e.data[q]), e.data[h])
    {
      assert h in t.cover && h in u.cover && h != p;
    }
  }

  lemma OthersStay(s: Store, k: nat, nv: nat, no: nat)
    requires Ok(s, nv, no, -1) && k < |s.cover|
    ensures forall h :: h in s.cover && h != s.cover[k] ==> h in Without(s.cover, k)
  {
    ListedDistinct(s.info, s.list, s.cover);
    WithoutMembers(s.cover, k);
  }

  // A group left because of its literals is too heavy.
  lemma HeavyFound(s: Exorcism, it: LinkIterator, c: nat, e: Store, s0: Store, t: Store)
    requires s.Valid() && Origin(e, s0, s.nv, s.no) && Missing(it.L(), s0, t) && Bound(it.L(), e, t)
    requires Pairing(it.L(), s0, t, NoFlags(it.dist), 0, s.nv, s.no) && it.GroupMade() && it.dist == 1 && c < 3
    requires GroupRuleAt(it, c) >= 0 && Merged(t, s.St(), GroupRuleAt(it, c), s.change) && Spread(s.St())
    requires it.pa < |s.a| && it.pb < |s.a| && s.a[it.pa] == Literals(it.da.lits) && s.a[it.pb] == Literals(it.db.lits)
    requires SumAt(s.a, Group(it), 3) > s.a[it.pa] + s.a[it.pb] + s.change.prevQa
    ensures Linkable(e, it.pa, it.pb, 1) && it.g < GroupCount(1)
    ensures Heavy(e, it.pa, it.pb, it.g)
  {
    hide Ok, Pairing, Origin, Missing, Bound, Spread, Once, MergedAt, LinkIterator.GroupMade, Literals, GroupLiterals,
      Joined, SumAt, GroupRuleAt, Linkable, LinkCube, Group;
    var l, p: nat, u := it.L(), GroupRuleAt(it, c), s.St();
    var k: nat :| MergedAt(t, u, p, k, s.change);
    PairingOk(l, s0, t, NoFlags(l.dist), 0, s.nv, s.no);
    MadePlaces(it, e, s0, t, s.nv, s.no);
    OnceFound(l, e, s0, t, u, p, k, s.change, s.nv, s.no);
    MergedCounts(t, u, p, k, s.change, s.nv, s.no);
    SumThree(u.a, Group(it));
    LiteralsOfThree(e, it.pa, it.pb, it.g);
    KeptCube(l, e, s0, t, t.cover[k], s.nv, s.no);
    BoundPair(l, e, t);
    assert HeavyAt(e, it.pa, it.pb, it.g, c, t.cover[k]);
  }

  lemma BoundPair(l: Link, e: Store, s: Store)
    requires Bound(l, e, s)
    ensures Linkable(e, l.pa, l.pb, l.dist) && l.da == e.data[l.pa] && l.db == e.data[l.pb]
  {
  }

  // The three cubes before the merge.
  lemma MadePlaces(it: LinkIterator, e: Store, s0: Store, t: Store, nv: nat, no: nat)
    requires Bound(it.L(), e, t) && Pairing(it.L(), s0, t, NoFlags(it.dist), 0, nv, no) && it.GroupMade()
    requires it.dist == 1
    ensures Linkable(e, it.pa, it.pb, 1) && it.g < GroupCount(1)
    ensures forall c: nat :: c < 3 ==>
      && 0 <= GroupRuleAt(it, c) < |t.data| == |t.a| && Out(t, GroupRuleAt(it, c))
      && t.data[GroupRuleAt(it, c)] == LinkCube(e, it.pa, it.pb, 1, it.g, c)
      && t.a[GroupRuleAt(it, c)] == Literals(LinkCube(e, it.pa, it.pb, 1, it.g, c).lits)
    ensures forall c: nat, d: nat :: c < 3 && d < 3 && c != d ==> GroupRuleAt(it, c) != GroupRuleAt(it, d)
  {
    hide Held, SameIds, Linkable, Literals, RuleProd;
    PairingCubes(it.L(), s0, t, nv, no);
    GroupShape(it.dist, it.g);
    hide Pairing, GroupRule;
    forall c: nat | c < 3
      ensures 0 <= GroupRuleAt(it, c) < |t.data| == |t.a| && Out(t, GroupRuleAt(it, c))
      ensures t.data[GroupRuleAt(it, c)] == LinkCube(e, it.pa, it.pb, 1, it.g, c)
      ensures t.a[GroupRuleAt(it, c)] == Literals(LinkCube(e, it.pa, it.pb, 1, it.g, c).lits)
    {
      GroupCube(it, s0, t, NoFlags(it.dist), 0, c, nv, no);
      TablePlace(it.L(), s0, t, c, nv, no);
    }
  }

  // The counts after a single merge.
  lemma MergedCounts(t: Store, u: Store, p: nat, k: nat, chg: Change, nv: nat, no: nat)
    requires MergedAt(t, u, p, k, chg) && Ok(t, nv, no, -1) && Ok(u, nv, no, -1) && Out(t, p)
    ensures k < |t.cover| && t.cover[k] < |t.data| == |t.a| == |u.a| == |u.data| && p < |t.data|
    ensures chg.prevQa == Literals(t.data[t.cover[k]].lits) && u.a[p] == Literals(u.data[p].lits)
    ensures forall h: nat :: h < |t.a| && h != p ==> u.a[h] == t.a[h]
  {
    hide Joins, Literals, Listed, Chained, Good, Ones;
    assert t.cover[k] in t.cover && u.cover[0] == p;
    assert CubeOk(t, t.cover[k], nv, no) && CubeOk(u, p, nv, no);
  }

  lemma SumThree(a: seq<int>, hs: seq<int>)
    requires |hs| == 3 && 0 <= hs[0] < |a| && 0 <= hs[1] < |a| && 0 <= hs[2] < |a|
    ensures SumAt(a, hs, 3) == a[hs[0]] + a[hs[1]] + a[hs[2]]
  {
    SumTwo(a, hs);
    assert SumAt(a, hs, 3) == SumAt(a, hs, 2) + a[hs[2]];
  }

  lemma LiteralsOfThree(e: Store, p1: nat, p2: nat, g: nat)
    requires Linkable(e, p1, p2, 1) && g < GroupCount(1)
    ensures GroupLiterals(e.data[p1], e.data[p2], 1, g, 3) ==
      Literals(LinkCube(e, p1, p2, 1, g, 0).lits) + Literals(LinkCube(e, p1, p2, 1, g, 1).lits) +
      Literals(LinkCube(e, p1, p2, 1, g, 2).lits)
  {
    hide Literals, RuleProd, GroupRule;
    GroupShape(1, g);
    assert GroupLiterals(e.data[p1], e.data[p2], 1, g, 1) == Literals(LinkCube(e, p1, p2, 1, g, 0).lits);
    assert GroupLiterals(e.data[p1], e.data[p2], 1, g, 2) ==
      GroupLiterals(e.data[p1], e.data[p2], 1, g, 1) + Literals(LinkCube(e, p1, p2, 1, g, 1).lits);
  }

  // A cube of the rest is as it was in e.
  lemma KeptCube(l: Link, e: Store, s0: Store, t: Store, q: nat, nv: nat, no: nat)
    requires Origin(e, s0, nv, no) && Missing(l, s0, t) && q in t.cover && q < |t.data|
    ensures q in e.cover && q < |e.data| && t.data[q] == e.data[q]
  {
    hide Step, Ok, Spread;
  }

  // The groups still to be tried.
  ghost function ToTry(visited: seq<bool>): (r: int)
    ensures r >= 0
  {
    CountAtMost(visited);
    |visited| - Count(visited)
  }

  lemma {:induction false} CountAtMost(flags: seq<bool>)
    ensures Count(flags) <= |flags|
  {
    if flags != [] { CountAtMost(flags[..|flags| - 1]); }
  }

  lemma OneTried(visited: seq<bool>, g: nat)
    requires g < |visited| && !visited[g]
    ensures ToTry(visited[g := true]) == ToTry(visited) - 1
  {
    CountSet(visited, g);
  }

  // One group of three, and the next one when it is not taken.
  method RoundThree(s: Exorcism, it: LinkIterator, p1: nat, p2: nat, ghost e: Store, ghost s0: Store)
    returns (taken: bool, more: bool)
    requires Opened(s, it, e, s0) && it.dist == 1 && it.pa == p1 && it.pb == p2 && Linkable(e, p1, p2, 1)
    requires it.GroupMade() && it.g < |it.visited|
    requires Trying(e, p1, p2, Marks(it.L(), s.St()), it.visited, it.g, s.decreaseLiterals, s.useQCost)
    modifies it`el, it`g, it`visited, s`data, s`info, s`a, s`z, s`list, s`free, s`cover, s`pool, s`nCubesInUse,
             s`nCubesFree, s`change, s`que, s`cIDs
    ensures taken ==> Ready(s) && Handled(e, s.St(), s.no, true) && NotWorse(s, e)
    ensures taken ==> TriedThree(e, s.St(), p1, p2, true, s.decreaseLiterals, s.useQCost)
    ensures !taken ==> Opened(s, it, e, s0)
    ensures !taken ==> Trying(e, p1, p2, Marks(it.L(), s.St()), it.visited, if more then it.g else -1,
                              s.decreaseLiterals, s.useQCost)
    ensures !taken && more ==>
      it.GroupMade() && it.g < |it.visited| && ToTry(it.visited) < old(ToTry(it.visited))
    ensures !taken && !more ==> it.visited == old(it.visited) && forall i :: 0 <= i < |it.visited| ==> it.visited[i]
  {
    hide Opened, Ready, Handled, LinkIterator.GroupMade, ToTry, Linkable, CloseGroup, LeftThree, MarkedFar, Marks, Lits,
      TriedThree, NotWorse, Trying;
    TryingMarks(e, p1, p2, Marks(it.L(), s.St()), it.visited, it.g, s.decreaseLiterals, s.useQCost);
    ghost var visited, was := it.visited, Marks(it.L(), s.St());
    taken := TryGroupThree(s, it, e, s0);
    if taken {
      GroupTaken(s, e, p1, p2, it.g);
      return true, false;
    }
    ghost var marks := Marks(it.L(), s.St());
    TryingLeft(e, p1, p2, was, marks, visited, it.g, s.decreaseLiterals, s.useQCost);
    Rewind(s, it, e, s0);
    more := NextGroup(s, it, e, s0);
    if more {
      OneTried(visited, it.g);
      TryingNext(e, p1, p2, marks, visited, it.g, s.decreaseLiterals, s.useQCost);
    }
  }

  // One round of IterativelyApplyExorLink3: some group is taken exactly when a cube of it is close to the rest
  // of the cover, unless literals count and it is too heavy.
  method TryThree(s: Exorcism, it: LinkIterator, p1: nat, p2: nat) returns (taken: bool)
    requires Ready(s) && p1 in s.cover && p2 in s.cover
    modifies it, s`data, s`info, s`a, s`z, s`list, s`free, s`cover, s`pool, s`nCubesInUse, s`nCubesFree, s`change,
             s`que, s`cIDs, s`marked
    ensures Ready(s) && Handled(old(s.St()), s.St(), s.no, taken) && (taken ==> NotWorse(s, old(s.St())))
    ensures TriedThree(old(s.St()), s.St(), p1, p2, taken, s.decreaseLiterals, s.useQCost)
    ensures !Linkable(old(s.St()), p1, p2, 1) ==> s.que == old(s.que)
  {
    hide Opened, Ready, Handled, LinkIterator.GroupMade, ToTry, Linkable, CloseGroup, LeftThree, MarkedFar, Marks, Lits,
      TriedThree, NotWorse, Trying;
    ghost var e, s0 := s.St(), s.St();
    var more;
    more, s0 := Begin(s, it, p1, p2, 1);
    if !more {
      NoneLeft(e, s.St(), p1, p2, s.decreaseLiterals, s.useQCost);
      return false;
    }
    TryingFirst(e, p1, p2, it.visited, it.g, s.decreaseLiterals, s.useQCost);
    while more
      invariant Opened(s, it, e, s0) && it.dist == 1 && it.pa == p1 && it.pb == p2 && Linkable(e, p1, p2, 1)
      invariant more ==> it.GroupMade() && it.g < |it.visited|
      invariant !more ==> forall i :: 0 <= i < |it.visited| ==> it.visited[i]
      invariant Trying(e, p1, p2, Marks(it.L(), s.St()), it.visited, if more then it.g else -1, s.decreaseLiterals,
                       s.useQCost)
      decreases ToTry(it.visited), more
    {
      taken, more := RoundThree(s, it, p1, p2, e, s0);
      if taken {
        return;
      }
    }
    AllLeft(e, p1, p2, Marks(it.L(), s.St()), it.visited, s.decreaseLiterals, s.useQCost);
    GiveUp(s, it, e, s0);
    taken := false;
    NoneLeft(e, s.St(), p1, p2, s.decreaseLiterals, s.useQCost);
  }

  // The groups visited are not to be taken; g: the current one is still to be tried.
  ghost predicate Trying(e: Store, p1: nat, p2: nat, marks: set<nat>, visited: seq<bool>, g: int, counting: bool,
                         quantum: bool)
    requires Linkable(e, p1, p2, 1)
  {
    && MarkedFar(e, p1, p2, 1, marks) && |visited| == GroupCount(1)
    && forall i :: 0 <= i < |visited| && visited[i] && i != g ==> LeftThree(e, p1, p2, i, counting, quantum)
  }

  lemma TryingFirst(e: Store, p1: nat, p2: nat, visited: seq<bool>, g: nat, counting: bool, quantum: bool)
    requires Linkable(e, p1, p2, 1) && |visited| == GroupCount(1)
    requires forall i :: 0 <= i < |visited| ==> (visited[i] <==> i == g)
    ensures Trying(e, p1, p2, {}, visited, g, counting, quantum)
  {
    hide Linkable, LeftThree, FarRest, TableCube;
  }

  lemma TryingMarks(e: Store, p1: nat, p2: nat, marks: set<nat>, visited: seq<bool>, g: int, counting: bool,
                    quantum: bool)
    requires Linkable(e, p1, p2, 1) && Trying(e, p1, p2, marks, visited, g, counting, quantum)
    ensures MarkedFar(e, p1, p2, 1, marks)
  {
    hide Linkable, LeftThree, MarkedFar;
  }

  lemma TryingLeft(e: Store, p1: nat, p2: nat, marks: set<nat>, more: set<nat>, visited: seq<bool>, g: nat,
                   counting: bool, quantum: bool)
    requires Linkable(e, p1, p2, 1) && Trying(e, p1, p2, marks, visited, g, counting, quantum) && g < GroupCount(1)
    requires MarkedFar(e, p1, p2, 1, more) && LeftThree(e, p1, p2, g, counting, quantum)
    ensures Trying(e, p1, p2, more, visited, -1, counting, quantum)
  {
    hide Linkable, LeftThree, MarkedFar;
  }

  lemma TryingNext(e: Store, p1: nat, p2: nat, marks: set<nat>, visited: seq<bool>, g: nat, counting: bool,
                   quantum: bool)
    requires Linkable(e, p1, p2, 1) && Trying(e, p1, p2, marks, visited, -1, counting, quantum) && g < |visited|
    ensures Trying(e, p1, p2, marks, visited[g := true], g, counting, quantum)
  {
    hide Linkable, LeftThree, MarkedFar;
  }

  lemma AllLeft(e: Store, p1: nat, p2: nat, marks: set<nat>, visited: seq<bool>, counting: bool, quantum: bool)
    requires Linkable(e, p1, p2, 1) && Trying(e, p1, p2, marks, visited, -1, counting, quantum)
    requires forall i :: 0 <= i < |visited| ==> visited[i]
    ensures forall g :: 0 <= g < GroupCount(1) ==> LeftThree(e, p1, p2, g, counting, quantum)
  {
    hide Linkable, LeftThree, MarkedFar;
  }

  lemma GroupTaken(s: Exorcism, e: Store, p1: nat, p2: nat, g: nat)
    requires Linkable(e, p1, p2, 1) && g < GroupCount(1) && CloseGroup(e, p1, p2, 1, g) && NotWorse(s, e)
    ensures TriedThree(e, s.St(), p1, p2, true, s.decreaseLiterals, s.useQCost)
  {
    hide Linkable, CloseGroup, LeftThree, Lits;
  }

  lemma NoneLeft(e: Store, t: Store, p1: nat, p2: nat, counting: bool, quantum: bool)
    requires Linkable(e, p1, p2, 1) ==> forall g :: 0 <= g < GroupCount(1) ==>
      LeftThree(e, p1, p2, g, counting, quantum)
    ensures TriedThree(e, t, p1, p2, false, counting, quantum)
  {
    hide CloseGroup, Heavy, Linkable;
    if Linkable(e, p1, p2, 1) {
      assert forall g :: 0 <= g < GroupCount(1) && LeftThree(e, p1, p2, g, counting, quantum) ==>
        counting || !CloseGroup(e, p1, p2, 1, g);
    }
  }
}
