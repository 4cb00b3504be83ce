// ExorLink applied to a pair at distance four.
module EsopFour {
  import opened EsopRules
  import opened EsopCube
  import opened EsopStore
  import opened EsopCheck
  import opened EsopCost
  import opened EsopPair
  import opened EsopList
  import opened EsopIter
  import opened EsopPass
  import opened EsopGain
  import opened EsopApply

  // The cubes of the group before any of them is checked.
  ghost predicate Places(it: LinkIterator, e: Store, t: Store, marks: set<nat>)
    reads it
  {
    && Linkable(e, it.pa, it.pb, 2) && it.g < GroupCount(2) && |t.info| == |t.data|
    && (forall d: nat :: d < 4 ==> PlaceAt(it, e, t, marks, d))
    && forall c: nat, d: nat :: c < d < 4 ==> GroupRuleAt(it, c) != GroupRuleAt(it, d)
  }

  ghost predicate PlaceAt(it: LinkIterator, e: Store, t: Store, marks: set<nat>, d: nat)
    requires Linkable(e, it.pa, it.pb, 2) && it.g < GroupCount(2) && d < 4
    reads it
  {
    && 0 <= GroupRuleAt(it, d) < |t.info| && GroupRuleAt(it, d) < |t.data| && Out(t, GroupRuleAt(it, d))
    && t.data[GroupRuleAt(it, d)] == LinkCube(e, it.pa, it.pb, 2, it.g, d)
    && (t.info[GroupRuleAt(it, d)].mark <==> !Checked(Trial(it.g, marks, -1, 0, 0), d))
    && (FarFrom(t, t.data[GroupRuleAt(it, d)]) <==>
        FarRest(e, it.pa, it.pb, LinkCube(e, it.pa, it.pb, 2, it.g, d)))
  }

  lemma AllPlaces(s: Exorcism, it: LinkIterator, e: Store, s0: Store)
    requires Opened(s, it, e, s0) && it.GroupMade() && it.dist == 2
    ensures Places(it, e, s.St(), Marks(it.L(), s.St()))
  {
    hide Opened, LinkIterator.GroupMade, Linkable, LinkCube, FarFrom, FarRest, Marks, HandleAt, GroupRule;
    ghost var marks := Marks(it.L(), s.St());
    PlaceMarked(s, it, e, s0, 0);
    PlaceOut(s, it, e, s0, 0);
    GroupShape(2, it.g);
    forall d: nat | d < 4 ensures PlaceAt(it, e, s.St(), marks, d) {
      PlaceMarked(s, it, e, s0, d);
      PlaceRule(s, it, e, s0, d);
      PlaceOut(s, it, e, s0, d);
    }
    forall c: nat, d: nat | c < d < 4 ensures GroupRuleAt(it, c) != GroupRuleAt(it, d) {
      PlaceIndex(s, it, e, s0, c);
      PlaceIndex(s, it, e, s0, d);
      PlaceOut(s, it, e, s0, c);
    }
  }

  lemma PlaceOut(s: Exorcism, it: LinkIterator, e: Store, s0: Store, d: nat)
    requires Opened(s, it, e, s0) && it.GroupMade() && it.dist == 2 && d < 4
    ensures GroupRuleAt(it, d) >= 0 && Out(s.St(), GroupRuleAt(it, d)) && GroupRuleAt(it, d) < |s.data| == |s.info|
  {
    hide Ok, Pairing, Creating, Origin, GroupRule;
    GroupCube(it, s0, s.St(), NoFlags(it.dist), 0, d, s.nv, s.no);
  }

  // The cube at place tr.c has been merged with one of the cover.
  ghost predicate OneMerge(it: LinkIterator, t: Store, u: Store, chg: Change, inserted: seq<bool>, p: nat, tr: Trial)
    reads it
  {
    && Merged(t, u, p, chg) && Out(t, p) && 0 <= tr.c < 4 && p == GroupRuleAt(it, tr.c)
    && |NoFlags(2)| == 4 && inserted == NoFlags(2)[tr.c := true] && u.pool != [] && tr.q == u.pool[0]
  }

  // While the cubes of the group are checked: t before the first, tr what the first n have come to.
  ghost predicate Checking(s: Exorcism, it: LinkIterator, e: Store, s0: Store, t: Store, inserted: seq<bool>, p: nat,
                           tr: Trial, n: nat)
    requires Linkable(e, it.pa, it.pb, 2) && it.g < GroupCount(2) && n <= 4
    reads s, it
  {
    && s.Valid() && s.Queues() && Pairing(it.L(), s0, s.St(), inserted, tr.total, s.nv, s.no) && Spread(s.St())
    && |inserted| == 4 && (forall d :: n <= d < 4 ==> !inserted[d]) && Held(it.el, e, s.St()) && SameMarks(t, s.St())
    && (tr.total == 0 ==> s.St() == t && inserted == NoFlags(2))
    && (tr.total == 1 ==> OneMerge(it, t, s.St(), s.change, inserted, p, tr))
    && tr.g == it.g && Looked(e, it.pa, it.pb, tr, n)
  }

  lemma StartChecking(s: Exorcism, it: LinkIterator, e: Store, s0: Store)
    requires Opened(s, it, e, s0) && it.dist == 2 && it.g < GroupCount(2)
    ensures Linkable(e, it.pa, it.pb, 2)
    ensures Checking(s, it, e, s0, s.St(), NoFlags(2), 0, Trial(it.g, Marks(it.L(), s.St()), -1, 0, 0), 0)
  {
    hide Ok, Pairing, Creating, Origin, Missing, Exorcism.Queues, Spread, Linkable, LinkCube, FarRest, Marks, Held;
    OpenedSpread(s, it, e, s0);
    BoundHeld(it.L(), e, s.St());
  }

  // A checked cube gains nothing.
  lemma LookedFar(e: Store, p1: nat, p2: nat, tr: Trial, n: nat)
    requires Linkable(e, p1, p2, 2) && tr.g < GroupCount(2) && n < 4 && Looked(e, p1, p2, tr, n)
    requires Checked(tr, n) && tr.total == 0 ==> FarRest(e, p1, p2, LinkCube(e, p1, p2, 2, tr.g, n))
    requires Checked(tr, n) && tr.total == 1 && 0 <= tr.c < 4 ==>
      FarAfter(e, p1, p2, LinkCube(e, p1, p2, 2, tr.g, tr.c), tr.q, LinkCube(e, p1, p2, 2, tr.g, n))
    ensures Looked(e, p1, p2, tr, n + 1)
  {
    hide Linkable, LinkCube, FarRest, FarAfter, Once, Checked;
  }

  // The first cube with a gain, and a further one.
  lemma LookedHit(e: Store, p1: nat, p2: nat, tr: Trial, n: nat, q: nat, more: nat)
    requires Linkable(e, p1, p2, 2) && tr.g < GroupCount(2) && n < 4 && Looked(e, p1, p2, tr, n)
    requires Checked(tr, n) && more > 0
    requires tr.total == 0 ==> !FarRest(e, p1, p2, LinkCube(e, p1, p2, 2, tr.g, n))
    requires tr.total == 0 && more == 1 ==> Once(e, p1, p2, LinkCube(e, p1, p2, 2, tr.g, n), q)
    ensures Looked(e, p1, p2, Hit(tr, n, q, more), n + 1)
  {
    hide Linkable, LinkCube, FarRest, FarAfter, Once;
    assert forall d: nat :: d < 4 ==> (Checked(Hit(tr, n, q, more), d) <==> Checked(tr, d));
    hide Checked;
  }

  ghost function Hit(tr: Trial, n: nat, q: nat, more: nat): Trial {
    if tr.total == 0 then tr.(c := n, q := q, total := more) else tr.(total := tr.total + more)
  }

  // After a single merge the cover is the rest of that of e with the two cubes joined.
  lemma FarMerged(l: Link, e: Store, s0: Store, t: Store, u: Store, p: nat, k: nat, chg: Change, y: Prod, nv: nat,
                  no: nat)
    requires Origin(e, s0, nv, no) && Missing(l, s0, t) && MergedAt(t, u, p, k, chg) && Ok(t, nv, no, -1) && Spread(u)
    requires Out(t, p) && FarFrom(u, y)
    ensures k < |t.cover| && p < |t.data| && FarAfter(e, l.pa, l.pb, t.data[p], t.cover[k], y)
  {
    OnceFound(l, e, s0, t, u, p, k, chg, nv, no);
    hide Step, FarApart, Joined, Distance, Without, Ok;
    var q := t.cover[k];
    assert u.cover[0] == p;
    OthersStay(t, k, nv, no);
    OkSizes2(t, nv, no);
    forall h: nat | h in e.cover && h != l.pa && h != l.pb && h != q && h < |e.data| ensures FarApart(y, e.data[h]) {
      assert h in t.cover && h in u.cover && h != p;
    }
  }

  // Check the cube at place c, unless it is marked.
  method CheckPlace(s: Exorcism, it: LinkIterator, c: nat, was: seq<bool>, sum: nat, ghost e: Store, ghost s0: Store,
                    ghost t: Store, ghost p0: nat, ghost tr0: Trial)
    returns (inserted: seq<bool>, total: nat, ghost p: nat, ghost tr: Trial)
    requires it.GroupMade() && it.dist == 2 && c < 4 && Places(it, e, t, tr0.marks) && sum == tr0.total
    requires Checking(s, it, e, s0, t, was, p0, tr0, c) && Origin(e, s0, s.nv, s.no) && Missing(it.L(), s0, t)
    requires Ok(t, s.nv, s.no, -1)
    modifies s`data, s`info, s`a, s`z, s`list, s`free, s`cover, s`pool, s`nCubesInUse, s`nCubesFree, s`change, s`que
    ensures Linkable(e, it.pa, it.pb, 2) && it.g < GroupCount(2) && total == tr.total && tr.marks == tr0.marks
    ensures Checking(s, it, e, s0, t, inserted, p, tr, c + 1)
  {
    hide Ok, Pairing, Origin, Missing, Exorcism.Queues, Exorcism.Valid, Spread, Linkable, LinkCube, FarRest, Held,
      SameMarks,
      OneMerge, Looked, Checked, FarFrom, Merged, Steady, LinkIterator.GroupMade, HandleAt, NoFlags, GroupRule;
    PlaceSound(s, it, e, t, c, tr0);
    inserted, total, p, tr := was, sum, p0, tr0;
    if s.info[GroupRuleAt(it, c)].mark {
      LookedFar(e, it.pa, it.pb, tr, c);
      return;
    }
    ghost var u, chg := s.St(), s.change;
    var more := Give(s, it, c, false, s0, inserted, total);
    HeldGive(it, e, u, s.St(), c);
    SameMarksOn(t, u, s.St(), GroupRuleAt(it, c));
    if more == 0 {
      NothingMore(s, it, e, s0, t, u, chg, inserted, p, tr, c);
    } else {
      ghost var q := HitOnce(s, it, e, s0, t, u, inserted, tr, c, more);
      LookedHit(e, it.pa, it.pb, tr, c, q, more);
      if total == 0 { p := GroupRuleAt(it, c); }
      inserted := inserted[c := true];
      total, tr := total + more, Hit(tr, c, q, more);
    }
  }

  lemma SameMarksOn(t: Store, u: Store, v: Store, p: nat)
    requires SameMarks(t, u) && Steady(u, v, p)
    ensures SameMarks(t, v)
  {
  }

  lemma PlaceSound(s: Exorcism, it: LinkIterator, e: Store, t: Store, c: nat, tr: Trial)
    requires Places(it, e, t, tr.marks) && c < 4 && SameMarks(t, s.St()) && tr.g == it.g
    ensures Linkable(e, it.pa, it.pb, 2) && it.g < GroupCount(2)
    ensures 0 <= GroupRuleAt(it, c) < |s.info| && (s.info[GroupRuleAt(it, c)].mark <==> !Checked(tr, c))
  {
    hide Linkable, LinkCube, FarRest, FarFrom, HandleAt;
    assert PlaceAt(it, e, t, tr.marks, c);
    assert Checked(Trial(it.g, tr.marks, -1, 0, 0), c) <==> Checked(tr, c);
  }

  // The cube at place c is far from the cover it has been checked against.
  lemma NothingMore(s: Exorcism, it: LinkIterator, e: Store, s0: Store, t: Store, u: Store, chg: Change,
                    inserted: seq<bool>, p: nat, tr: Trial, c: nat)
    requires Places(it, e, t, tr.marks) && Origin(e, s0, s.nv, s.no) && Missing(it.L(), s0, t) && Ok(t, s.nv, s.no, -1)
    requires c < 4 && s.St() == u && s.change == chg && tr.g == it.g && Spread(u)
    requires Linkable(e, it.pa, it.pb, 2) && it.g < GroupCount(2) && Looked(e, it.pa, it.pb, tr, c)
    requires tr.total == 0 ==> u == t
    requires tr.total == 1 ==> OneMerge(it, t, u, chg, inserted, p, tr)
    requires 0 <= GroupRuleAt(it, c) < |u.data| && FarFrom(u, u.data[GroupRuleAt(it, c)])
    ensures Looked(e, it.pa, it.pb, tr, c + 1)
  {
    hide Ok, Origin, Missing, Spread, Linkable, LinkCube, FarRest, Looked, Checked, FarFrom, HandleAt, FarAfter, Places,
      MergedAt;
    PlaceParts(it, e, t, tr.marks, c);
    if tr.total == 1 {
      LookedPlace(e, it.pa, it.pb, tr, c);
      PlaceParts(it, e, t, tr.marks, tr.c);
      PlacesApart(it, e, t, tr.marks, tr.c, c);
      var k: nat :| MergedAt(t, u, p, k, chg);
      MergedRest(t, u, p, k, chg);
      FarMerged(it.L(), e, s0, t, u, p, k, chg, u.data[GroupRuleAt(it, c)], s.nv, s.no);
    }
    LookedFar(e, it.pa, it.pb, tr, c);
  }

  lemma MergedRest(t: Store, u: Store, p: nat, k: nat, chg: Change)
    requires MergedAt(t, u, p, k, chg)
    ensures k < |t.cover| && u.pool != [] && u.pool[0] == t.cover[k] && |u.data| == |t.data|
    ensures forall h: nat :: h < |t.data| && h != p ==> u.data[h] == t.data[h]
  {
    hide Joins;
  }

  lemma LookedPlace(e: Store, p1: nat, p2: nat, tr: Trial, n: nat)
    requires Linkable(e, p1, p2, 2) && tr.g < GroupCount(2) && n <= 4 && Looked(e, p1, p2, tr, n) && tr.total == 1
    ensures 0 <= tr.c < n
  {
    hide Linkable, LinkCube, FarRest, FarAfter, Once, Checked;
  }

  lemma PlaceParts(it: LinkIterator, e: Store, t: Store, marks: set<nat>, d: nat)
    requires Places(it, e, t, marks) && d < 4
    ensures Linkable(e, it.pa, it.pb, 2) && it.g < GroupCount(2) && |t.info| == |t.data|
    ensures 0 <= GroupRuleAt(it, d) < |t.data| && Out(t, GroupRuleAt(it, d))
    ensures t.data[GroupRuleAt(it, d)] == LinkCube(e, it.pa, it.pb, 2, it.g, d)
    ensures FarFrom(t, t.data[GroupRuleAt(it, d)]) <==> FarRest(e, it.pa, it.pb, LinkCube(e, it.pa, it.pb, 2, it.g, d))
  {
    hide Linkable, LinkCube, FarRest, FarFrom, HandleAt, Checked;
    assert PlaceAt(it, e, t, marks, d);
  }

  lemma PlacesApart(it: LinkIterator, e: Store, t: Store, marks: set<nat>, c: nat, d: nat)
    requires Places(it, e, t, marks) && c < d < 4
    ensures GroupRuleAt(it, c) != GroupRuleAt(it, d)
  {
    hide Linkable, PlaceAt, HandleAt;
  }

  // The cube at place c can be merged; q: the cube a single merge has been with.
  lemma HitOnce(s: Exorcism, it: LinkIterator, e: Store, s0: Store, t: Store, u: Store, inserted: seq<bool>, tr: Trial,
                c: nat, more: nat) returns (q: nat)
    requires Places(it, e, t, tr.marks) && Origin(e, s0, s.nv, s.no) && Missing(it.L(), s0, t) && Ok(t, s.nv, s.no, -1)
    requires c < 4 && tr.g == it.g && Spread(s.St()) && more > 0 && |inserted| == 4
    requires tr.total == 0 ==> u == t && inserted == NoFlags(2)
    requires 0 <= GroupRuleAt(it, c) < |u.data| && !FarFrom(u, u.data[GroupRuleAt(it, c)])
    requires more == 1 ==> Merged(u, s.St(), GroupRuleAt(it, c), s.change) && Out(u, GroupRuleAt(it, c))
    ensures Linkable(e, it.pa, it.pb, 2) && it.g < GroupCount(2)
    ensures tr.total == 0 ==> !FarRest(e, it.pa, it.pb, LinkCube(e, it.pa, it.pb, 2, tr.g, c))
    ensures tr.total == 0 && more == 1 ==> Once(e, it.pa, it.pb, LinkCube(e, it.pa, it.pb, 2, tr.g, c), q)
    ensures tr.total == 0 && more == 1 ==>
      OneMerge(it, t, s.St(), s.change, inserted[c := true], GroupRuleAt(it, c), Hit(tr, c, q, more))
  {
    hide Ok, Origin, Missing, Spread, Linkable, LinkCube, FarRest, Checked, FarFrom, HandleAt, Places, MergedAt, Once;
    PlaceParts(it, e, t, tr.marks, c);
    q := 0;
    if tr.total == 0 && more == 1 {
      var k: nat :| MergedAt(u, s.St(), GroupRuleAt(it, c), k, s.change);
      MergedRest(u, s.St(), GroupRuleAt(it, c), k, s.change);
      OnceFound(it.L(), e, s0, t, s.St(), GroupRuleAt(it, c), k, s.change, s.nv, s.no);
      q := t.cover[k];
    }
  }

  // Check the four cubes of a group; those with a gain are inserted at once.
  method CheckFour(s: Exorcism, it: LinkIterator, ghost e: Store, ghost s0: Store)
    returns (inserted: seq<bool>, total: nat, ghost p: nat, ghost tr: Trial)
    requires Opened(s, it, e, s0) && it.GroupMade() && it.dist == 2
    modifies s`data, s`info, s`a, s`z, s`list, s`free, s`cover, s`pool, s`nCubesInUse, s`nCubesFree, s`change, s`que
    ensures Linkable(e, it.pa, it.pb, 2) && it.g < GroupCount(2) && total == tr.total
    ensures Checking(s, it, e, s0, old(s.St()), inserted, p, tr, 4) && tr.marks == old(Marks(it.L(), s.St()))
  {
    hide Opened, Checking, LinkIterator.GroupMade, LinkIterator.VisitedMade, Linkable, Marks, HandleAt, Places, Pairing,
      Creating, Origin, Missing, Ok, Bound, Exorcism.Valid, Exorcism.Queues, Looked, NoFlags;
    ghost var t := s.St();
    AllPlaces(s, it, e, s0);
    PlaceMarked(s, it, e, s0, 0);
    StartChecking(s, it, e, s0);
    OpenedParts(s, it, e, s0);
    FlagsFour();
    inserted, total, p, tr := [false, false, false, false], 0, 0, Trial(it.g, Marks(it.L(), t), -1, 0, 0);
    for c := 0 to 4
      invariant Checking(s, it, e, s0, t, inserted, p, tr, c)
      invariant total == tr.total && tr.marks == old(Marks(it.L(), s.St()))
    {
      inserted, total, p, tr := CheckPlace(s, it, c, inserted, total, e, s0, t, p, tr);
    }
  }

  lemma OpenedParts(s: Exorcism, it: LinkIterator, e: Store, s0: Store)
    requires Opened(s, it, e, s0)
    ensures Origin(e, s0, s.nv, s.no) && Missing(it.L(), s0, s.St()) && Ok(s.St(), s.nv, s.no, -1)
    ensures s.Valid() && s.Queues() && s.marked && it.VisitedMade() && it.dist < 3 && Bound(it.L(), e, s.St())
    ensures Pairing(it.L(), s0, s.St(), NoFlags(it.dist), 0, s.nv, s.no) && Creating(it.L(), s.St(), true, s.nv, s.no)
  {
  }

  lemma FlagsFour()
    ensures NoFlags(2) == [false, false, false, false]
  {
  }

  // The marks after those of the first n cubes have been set or cleared.
  ghost function MarksSet(marks: set<nat>, rule: seq<nat>, flags: seq<bool>, n: nat): set<nat>
    requires n <= |rule| == |flags|
  {
    if n == 0 then marks
    else if flags[n - 1] then MarksSet(marks, rule, flags, n - 1) + {rule[n - 1]}
    else MarksSet(marks, rule, flags, n - 1) - {rule[n - 1]}
  }

  lemma {:induction false} MarksSetOf(marks: set<nat>, rule: seq<nat>, flags: seq<bool>, n: nat, k: nat)
    requires n <= |rule| == |flags| && forall c, d :: 0 <= c < d < |rule| ==> rule[c] != rule[d]
    ensures k in MarksSet(marks, rule, flags, n) <==>
      (exists c :: 0 <= c < n && rule[c] == k && flags[c]) ||
      (k in marks && !exists c :: 0 <= c < n && rule[c] == k)
  {
    if n > 0 { MarksSetOf(marks, rule, flags, n - 1, k); }
  }

  // fMark of the cubes of the group: all but the one that could be merged are marked.
  method MarkGroup(s: Exorcism, it: LinkIterator, flags: seq<bool>, ghost tr: Trial, ghost e: Store, ghost s0: Store)
    requires Opened(s, it, e, s0) && it.GroupMade() && it.dist == 2 && |flags| == 4
    requires tr.g == it.g < GroupCount(2) && tr.marks == Marks(it.L(), s.St())
    requires forall c :: 0 <= c < 4 ==> (flags[c] <==> c != tr.c)
    modifies s`info
    ensures Opened(s, it, e, s0) && Marks(it.L(), s.St()) == AfterMarks(tr)
  {
    hide Opened, LinkIterator.GroupMade, Marks, GroupRule;
    GroupShape(2, it.g);
    for c := 0 to |flags|
      invariant Opened(s, it, e, s0)
      invariant Marks(it.L(), s.St()) == MarksSet(tr.marks, GroupRule(2, it.g), flags, c)
    {
      MarkPlace(s, it, c, flags[c], e, s0);
    }
    AllMarked(tr, flags);
  }

  lemma AllMarked(tr: Trial, flags: seq<bool>)
    requires tr.g < GroupCount(2) && |flags| == 4 && |GroupRule(2, tr.g)| == 4
    requires forall c :: 0 <= c < 4 ==> (flags[c] <==> c != tr.c)
    ensures MarksSet(tr.marks, GroupRule(2, tr.g), flags, 4) == AfterMarks(tr)
  {
    hide GroupRule;
    var rule := GroupRule(2, tr.g);
    GroupShape(2, tr.g);
    forall k: nat ensures k in MarksSet(tr.marks, rule, flags, 4) <==> k in AfterMarks(tr) {
      MarksSetOf(tr.marks, rule, flags, 4, k);
    }
  }

  // One group of four: it is taken when the cubes gain two or more together.
  method TryGroupFour(s: Exorcism, it: LinkIterator, ghost e: Store, ghost s0: Store)
    returns (taken: bool, ghost tr: Trial)
    requires Opened(s, it, e, s0) && it.GroupMade() && it.dist == 2
    modifies it`el, s`data, s`info, s`a, s`z, s`list, s`free, s`cover, s`pool, s`nCubesInUse, s`nCubesFree, s`change,
             s`que
    ensures Linkable(e, it.pa, it.pb, 2) && tr.g == it.g < GroupCount(2) && Looked(e, it.pa, it.pb, tr, 4)
    ensures tr.marks == old(Marks(it.L(), s.St())) && (taken <==> tr.total >= 2)
    ensures taken ==> Ready(s) && Handled(e, s.St(), s.no, true) && |s.cover| + tr.total <= |e.cover| + 2
    ensures !taken ==> Opened(s, it, e, s0) && Marks(it.L(), s.St()) == AfterMarks(tr)
  {
    hide Ok, Pairing, Creating, Origin, Missing, Exorcism.Queues, Spread, LinkIterator.VisitedMade, Marks, Looked,
      LinkIterator.GroupMade, Merged, HandleAt, Ready, Handled, Exorcism.Valid, Bound, Held, Opened, Linkable,
      AfterMarks, SameMarks;
    FlagsFour();
    OpenedParts(s, it, e, s0);
    ghost var t := s.St();
    var inserted, total;
    ghost var p;
    inserted, total, p, tr := CheckFour(s, it, e, s0);
    LookedTotal(e, it.pa, it.pb, tr);
    if total == 0 {
      StillOpened(s, it, e, s0, t, inserted, p, tr);
      MarkGroup(s, it, [true, true, true, true], tr, e, s0);
    } else if total == 1 {
      Undo(s, it, p, e, s0, t);
      MarkGroup(s, it, [!inserted[0], !inserted[1], !inserted[2], !inserted[3]], tr, e, s0);
    } else {
      ghost var gain := TakeGroup(s, it, inserted, e, s0, total);
    }
    taken := total > 1;
  }

  lemma StillOpened(s: Exorcism, it: LinkIterator, e: Store, s0: Store, t: Store, inserted: seq<bool>, p: nat,
                    tr: Trial)
    requires Linkable(e, it.pa, it.pb, 2) && it.g < GroupCount(2) && Checking(s, it, e, s0, t, inserted, p, tr, 4)
    requires tr.total == 0 && it.dist == 2 && s.marked && it.VisitedMade()
    requires Origin(e, s0, s.nv, s.no) && Missing(it.L(), s0, t) && Creating(it.L(), t, true, s.nv, s.no)
    requires Bound(it.L(), e, t)
    ensures Opened(s, it, e, s0) && s.St() == t
  {
    hide Ok, Pairing, Origin, Missing, Creating, Bound, Looked, Linkable, Held, SameMarks, Spread, Exorcism.Queues,
      LinkIterator.VisitedMade;
  }

  lemma LookedTotal(e: Store, p1: nat, p2: nat, tr: Trial)
    requires Linkable(e, p1, p2, 2) && tr.g < GroupCount(2) && Looked(e, p1, p2, tr, 4)
    ensures -1 <= tr.c < 4 && (tr.c == -1 <==> tr.total == 0)
  {
    hide Linkable, LinkCube, FarRest, FarAfter, Once, Checked;
  }

  // The groups tried so far are those visited; more: the current one is still to be tried.
  ghost predicate Trying(e: Store, p1: nat, p2: nat, trials: seq<Trial>, marks: set<nat>, visited: seq<bool>, g: int)
    requires Linkable(e, p1, p2, 2)
  {
    && Trials(e, p1, p2, trials) && (forall i :: 0 <= i < |trials| ==> trials[i].total < 2)
    && marks == MarksBefore(trials, |trials|) && |visited| == GroupCount(2)
    && forall i: nat :: i < |visited| ==> (Among(trials, i) <==> visited[i] && i != g)
  }

  lemma TrialAdded(e: Store, p1: nat, p2: nat, trials: seq<Trial>, visited: seq<bool>, tr: Trial)
    requires Linkable(e, p1, p2, 2) && Trying(e, p1, p2, trials, tr.marks, visited, tr.g) && tr.g < GroupCount(2)
    requires visited[tr.g] && Looked(e, p1, p2, tr, 4)
    ensures Trials(e, p1, p2, trials + [tr])
    ensures tr.total < 2 ==> Trying(e, p1, p2, trials + [tr], AfterMarks(tr), visited, -1)
  {
    hide Linkable, Looked, AfterMarks, Among, Trials, MarksBefore;
    var more := trials + [tr];
    assert !Among(trials, tr.g);
    TrialsMore(e, p1, p2, trials, tr);
    LastMarks(trials, tr);
    forall i: nat | i < |visited| ensures Among(more, i) <==> Among(trials, i) || tr.g == i {
      AmongMore(trials, tr, i);
    }
  }

  lemma TrialsMore(e: Store, p1: nat, p2: nat, trials: seq<Trial>, tr: Trial)
    requires Linkable(e, p1, p2, 2) && Trials(e, p1, p2, trials) && tr.g < GroupCount(2) && !Among(trials, tr.g)
    requires tr.marks == MarksBefore(trials, |trials|) && forall i :: 0 <= i < |trials| ==> trials[i].total < 2
    requires Looked(e, p1, p2, tr, 4)
    ensures Trials(e, p1, p2, trials + [tr])
  {
    hide Linkable, Looked, AfterMarks, Among;
    NotAmong(trials, tr.g);
    var more := trials + [tr];
    forall i | 0 <= i < |more| ensures more[i].marks == MarksBefore(more, i) {
      assert i < |trials| ==> MarksBefore(more, i) == MarksBefore(trials, i);
    }
  }

  lemma NotAmong(trials: seq<Trial>, g: nat)
    requires !Among(trials, g)
    ensures forall i :: 0 <= i < |trials| ==> trials[i].g != g
  {
  }

  lemma LastMarks(trials: seq<Trial>, tr: Trial)
    requires tr.g < GroupCount(2)
    ensures MarksBefore(trials + [tr], |trials| + 1) == AfterMarks(tr)
  {
    hide AfterMarks;
  }

  lemma AmongMore(trials: seq<Trial>, tr: Trial, g: nat)
    ensures Among(trials + [tr], g) <==> Among(trials, g) || tr.g == g
  {
    var more := trials + [tr];
    assert more[|trials|].g == tr.g;
    if Among(trials, g) {
      var j :| 0 <= j < |trials| && trials[j].g == g;
      assert more[j].g == g;
    }
  }

  // The next group is visited.
  lemma TrialNext(e: Store, p1: nat, p2: nat, trials: seq<Trial>, marks: set<nat>, visited: seq<bool>, g: nat)
    requires Linkable(e, p1, p2, 2) && Trying(e, p1, p2, trials, marks, visited, -1) && g < |visited| && !visited[g]
    ensures Trying(e, p1, p2, trials, marks, visited[g := true], g)
  {
    hide Linkable, Trials, Among, MarksBefore;
  }

  lemma TryingFirst(e: Store, p1: nat, p2: nat, visited: seq<bool>, g: nat)
    requires Linkable(e, p1, p2, 2) && |visited| == GroupCount(2)
    requires forall i :: 0 <= i < |visited| ==> (visited[i] <==> i == g)
    ensures Trying(e, p1, p2, [], {}, visited, g)
  {
    hide Linkable;
  }

  lemma AllTried(e: Store, t: Store, p1: nat, p2: nat, trials: seq<Trial>, marks: set<nat>, visited: seq<bool>)
    requires Linkable(e, p1, p2, 2) && Trying(e, p1, p2, trials, marks, visited, -1)
    requires forall i :: 0 <= i < |visited| ==> visited[i]
    ensures TriedFour(e, t, p1, p2, false)
  {
    hide Linkable, Trials;
    assert Among(trials, 0);
    assert Ended(e, t, p1, p2, trials, false);
  }

  // One round of IterativelyApplyExorLink4: the groups are tried, each once, until the cubes of one gain two
  // or more.
  method TryFour(s: Exorcism, it: LinkIterator, p1: nat, p2: nat) returns (taken: bool)
    requires Ready(s) && p1 in s.cover && p2 in s.cover
    modifies it, s`data, s`info, s`a, s`z, s`list, s`free, s`cover, s`pool, s`nCubesInUse, s`nCubesFree, s`change,
             s`que, s`cIDs, s`marked
    ensures Ready(s) && Handled(old(s.St()), s.St(), s.no, taken)
    ensures TriedFour(old(s.St()), s.St(), p1, p2, taken)
    ensures !Linkable(old(s.St()), p1, p2, 2) ==> s.que == old(s.que)
  {
    hide Opened, Ready, Handled, LinkIterator.GroupMade, ToTry, Linkable, Trying, Trials, Looked, Marks, AfterMarks;
    ghost var e, s0 := s.St(), s.St();
    var more;
    more, s0 := Begin(s, it, p1, p2, 2);
    if !more {
      return false;
    }
    ghost var trials := [];
    TryingFirst(e, p1, p2, it.visited, it.g);
    while more
      invariant Opened(s, it, e, s0) && it.dist == 2 && it.pa == p1 && it.pb == p2 && Linkable(e, p1, p2, 2)
      invariant more ==> it.GroupMade() && it.g < |it.visited| && it.visited[it.g]
      invariant !more ==> forall i :: 0 <= i < |it.visited| ==> it.visited[i]
      invariant Trying(e, p1, p2, trials, Marks(it.L(), s.St()), it.visited, if more then it.g else -1)
      decreases ToTry(it.visited), more
    {
      ghost var tr;
      taken, tr := TryGroupFour(s, it, e, s0);
      TrialAdded(e, p1, p2, trials, it.visited, tr);
      trials := trials + [tr];
      if taken {
        assert Ended(e, s.St(), p1, p2, trials, true);
        return;
      }
      Rewind(s, it, e, s0);
      ghost var visited, marks := it.visited, Marks(it.L(), s.St());
      more := NextGroup(s, it, e, s0);
      if more {
        OneTried(visited, it.g);
        TrialNext(e, p1, p2, trials, marks, visited, it.g);
      }
    }
    ghost var marks := Marks(it.L(), s.St());
    GiveUp(s, it, e, s0);
    AllTried(e, s.St(), p1, p2, trials, marks, it.visited);
    taken := false;
  }
}
