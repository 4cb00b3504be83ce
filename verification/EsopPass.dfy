// The passes over the cube pairs of one distance, and the reduction that repeats them.
module EsopPass {
  import opened EsopRules
  import opened EsopCube
  import opened EsopLink
  import opened EsopPool
  import opened EsopStore
  import opened EsopCheck
  import opened EsopCost
  import opened EsopPair
  import opened EsopList
  import opened EsopIter

  // Every output has the same function.
  ghost predicate SameFunction(s: Store, t: Store, no: nat) {
    && Handles(s.data, s.cover) && Handles(t.data, t.cover)
    && forall o: nat, x: Input :: o < no ==> SumOf(t, o, x) == SumOf(s, o, x)
  }

  // Between two pairs: every cube is in the cover or free, and there is room for a group table.
  ghost predicate Between(s: Exorcism)
    reads s
  {
    s.Valid() && s.Queues() && NoneOut(s.St()) && |s.pool| >= 32 && NoMarks(s.St())
  }

  // What handling one pair keeps.
  ghost predicate Step(e: Store, t: Store, no: nat) {
    SameFunction(e, t, no) && |t.cover| <= |e.cover| && |t.data| == |e.data|
  }

  lemma StepTwice(e: Store, t: Store, u: Store, no: nat)
    requires Step(e, t, no) && Step(t, u, no)
    ensures Step(e, u, no)
  {
    hide SumOf;
  }

  lemma StepSelf(s: Store, nv: nat, no: nat)
    requires Ok(s, nv, no, -1)
    ensures Step(s, s, no)
  {
    OkHandles(s, nv, no, -1);
  }

  // ---- Small facts about a pair in progress ----

  // Only data, cover and free list matter.
  lemma SameContents(l: Link, s: Store, t: Store, flags: seq<bool>, both: bool, nv: nat, no: nat)
    requires t.data == s.data && t.cover == s.cover && t.pool == s.pool
    ensures Cubes(l, s, flags, nv, no) ==> Cubes(l, t, flags, nv, no)
    ensures Outside(l, s, flags, both) ==> Outside(l, t, flags, both)
  {
    hide CubeRule, RuleProd, GroupRule;
    assert forall h: nat :: Out(t, h) <==> Out(s, h);
    if Cubes(l, s, flags, nv, no) {
      forall k: nat | k < 32 && l.el[k] != -1 ensures Made(l, t, k) { assert Made(l, s, k); }
      forall k: nat | k < 32 && l.el[k] != -1 && !Used(l, flags, k)
        ensures RuleHeld(l, t, k, nv, no)
      { assert RuleHeld(l, s, k, nv, no); }
    }
  }

  lemma MarkCreating(l: Link, s: Store, p: nat, m: bool, nv: nat, no: nat)
    requires Creating(l, s, true, nv, no) && p < |s.info|
    ensures Creating(l, Marked(s, p, m), true, nv, no)
  {
    hide Ok, Cubes, Outside;
    MarkOk(s, p, m, nv, no);
    SameContents(l, s, Marked(s, p, m), NoFlags(l.dist), true, nv, no);
  }

  lemma UndoCreating(l: Link, s: Store, u: Store, p: nat, nv: nat, no: nat)
    requires Creating(l, s, true, nv, no) && Restored(s, u, p) && Ok(u, nv, no, -1)
    ensures Creating(l, u, true, nv, no)
  {
    hide Ok, CubeRule, RuleProd, GroupRule, SumOf;
    assert forall h: nat :: Out(u, h) <==> Out(s, h);
    forall k: nat | k < 32 && l.el[k] != -1 ensures Made(l, u, k) { assert Made(l, s, k); }
    forall k: nat | k < 32 && l.el[k] != -1 && !Used(l, NoFlags(l.dist), k)
      ensures RuleHeld(l, u, k, nv, no)
    { assert RuleHeld(l, s, k, nv, no); }
  }

  // The cube at place c of the group, while it is not flagged.
  lemma GroupCube(it: LinkIterator, s0: Store, s: Store, flags: seq<bool>, gain: int, c: nat, nv: nat, no: nat)
    requires Pairing(it.L(), s0, s, flags, gain, nv, no) && it.GroupMade() && c < |flags| && !flags[c]
    ensures c < |GroupOf(it.L())| == it.dist + 2 && GroupOf(it.L()) == GroupRule(it.dist, it.g)
    ensures var k := GroupRule(it.dist, it.g)[c];
      k < 32 == |it.el| && it.el[k] >= 0 && it.el[k] != it.pa && it.el[k] != it.pb && Out(s, it.el[k]) &&
      it.el[k] < |s.data| == |s.info| == |s.a|
  {
    NotUsed(it.L(), flags, c, nv, no);
    var k := GroupRule(it.dist, it.g)[c];
    hide GroupRule, CubeRule, RuleProd, SumOf, PartSum, Value;
    assert RuleHeld(it.L(), s, k, nv, no);
  }

  lemma PairingOk(l: Link, s0: Store, s: Store, flags: seq<bool>, gain: int, nv: nat, no: nat)
    requires Pairing(l, s0, s, flags, gain, nv, no)
    ensures Ok(s, nv, no, -1) && |flags| == l.dist + 2 && l.dist < 3 && |l.el| == 32
    ensures |s.data| == |s.a| == |s.info| == |s0.data|
  {
  }

  // Check the cube at place c: with a gain, or when it is to be added, it has left the group.
  method Give(s: Exorcism, it: LinkIterator, c: nat, fAdd: bool, ghost s0: Store, ghost flags: seq<bool>,
              ghost gain: int) returns (more: nat)
    requires s.Valid() && s.Queues() && Pairing(it.L(), s0, s.St(), flags, gain, s.nv, s.no) && it.GroupMade()
    requires c < |flags| && !flags[c]
    modifies s`data, s`info, s`a, s`z, s`list, s`free, s`cover, s`pool, s`nCubesInUse, s`nCubesFree, s`change, s`que
    ensures s.Valid() && s.Queues()
    ensures more == 0 && !fAdd ==> s.St() == old(s.St())
    ensures more == 0 ==> s.change == old(s.change)
    ensures more > 0 || fAdd ==> Pairing(it.L(), s0, s.St(), flags[c := true], gain + more, s.nv, s.no)
    ensures 0 <= GroupRuleAt(it, c) < |old(s.data)| == |old(s.a)| == |s.a|
    ensures more == 1 ==>
      Merged(old(s.St()), s.St(), GroupRuleAt(it, c), s.change) && Out(old(s.St()), GroupRuleAt(it, c))
    ensures more == 0 <==> FarFrom(old(s.St()), old(s.data)[GroupRuleAt(it, c)])
    ensures Spread(old(s.St())) && (more > 0 || fAdd) ==> Spread(s.St())
    ensures more == 0 ==> s.a == old(s.a)
    ensures more == 0 && fAdd ==> Lits(s.St()) == Lits(old(s.St())) + s.a[GroupRuleAt(it, c)]
    ensures Steady(old(s.St()), s.St(), GroupRuleAt(it, c))
  {
    hide Ok, Pairing, Added, Kept, Merged, GroupRule, CubeRule, Spread, FarFrom, Lits, LinkIterator.GroupMade,
      Exorcism.Queues, Steady;
    GroupCube(it, s0, s.St(), flags, gain, c, s.nv, s.no);
    PairingOk(it.L(), s0, s.St(), flags, gain, s.nv, s.no);
    ghost var t := s.St();
    more := s.CheckForCloseCubes(it.el[GroupRule(it.dist, it.g)[c]], fAdd);
    OkSizes2(s.St(), s.nv, s.no);
    if more == 0 && fAdd { LitsInserted(t, GroupRuleAt(it, c)); }
    if more > 0 || fAdd {
      GiveCube(it.L(), s0, t, s.St(), flags, c, gain, more, s.nv, s.no);
      PairingOk(it.L(), s0, s.St(), flags[c := true], gain + more, s.nv, s.no);
    }
  }

  // The handle of the cube at place c of the current group, or -1.
  function GroupRuleAt(it: LinkIterator, c: nat): int
    reads it
  {
    HandleAt(it.dist, it.g, it.el, c)
  }

  function HandleAt(dist: nat, g: nat, el: seq<int>, c: nat): int {
    if dist < 3 && c < |GroupRule(dist, g)| && GroupRule(dist, g)[c] < |el| then el[GroupRule(dist, g)[c]] else -1
  }

  // Take the last merge back: the group is whole again.
  method TakeBack(s: Exorcism, it: LinkIterator, ghost s0: Store, ghost t: Store, ghost p: nat,
                  ghost flags: seq<bool>, ghost gain: int)
    requires s.Valid() && s.Queues() && Pairing(it.L(), s0, t, flags, gain, s.nv, s.no)
    requires Creating(it.L(), t, true, s.nv, s.no)
    requires Merged(t, s.St(), p, s.change) && Out(t, p)
    modifies s`data, s`info, s`a, s`z, s`list, s`free, s`cover, s`pool, s`nCubesInUse, s`nCubesFree
    ensures s.Valid() && s.Queues() && Pairing(it.L(), s0, s.St(), flags, gain, s.nv, s.no)
    ensures Creating(it.L(), s.St(), true, s.nv, s.no)
    ensures |s.data| == |t.data| == |s.info| == |s.a| && SameSum(t, s.St()) && Restored(t, s.St(), p)
  {
    hide Pairing, Creating, Restored, Ok, SameSum, Exorcism.Queues, MergedAt;
    PairingOk(it.L(), s0, t, flags, gain, s.nv, s.no);
    ghost var k: nat :| MergedAt(t, s.St(), p, k, s.change);
    MergedPlace(t, s.St(), p, k, s.change);
    s.UndoRecentChanges(t, k);
    UndoPair(it.L(), s0, t, s.St(), flags, gain, p, s.nv, s.no);
    UndoCreating(it.L(), t, s.St(), p, s.nv, s.no);
    RestoredSizes(t, s.St(), p, s.nv, s.no);
  }

  lemma MergedPlace(s: Store, t: Store, p: nat, k: nat, c: Change)
    requires MergedAt(s, t, p, k, c)
    ensures c.p == p
  {
  }

  lemma RestoredSizes(s: Store, u: Store, p: nat, nv: nat, no: nat)
    requires Restored(s, u, p) && Ok(u, nv, no, -1)
    ensures |u.data| == |s.data| == |u.info| == |u.a| && SameSum(s, u)
  {
  }

  // fMark of a cube.
  method SetMark(s: Exorcism, p: nat, m: bool, it: LinkIterator, ghost s0: Store)
    requires s.Valid() && s.Queues() && p < |s.info| && Pairing(it.L(), s0, s.St(), NoFlags(it.dist), 0, s.nv, s.no)
    requires Creating(it.L(), s.St(), true, s.nv, s.no)
    modifies s`info
    ensures s.Valid() && s.Queues() && |s.info| == |old(s.info)| && s.St() == Marked(old(s.St()), p, m)
    ensures Pairing(it.L(), s0, s.St(), NoFlags(it.dist), 0, s.nv, s.no) && Creating(it.L(), s.St(), true, s.nv, s.no)
  {
    hide Ok, Pairing, Creating;
    MarkPair(it.L(), s0, s.St(), NoFlags(it.dist), 0, p, m, s.nv, s.no);
    MarkCreating(it.L(), s.St(), p, m, s.nv, s.no);
    MarkOk(s.St(), p, m, s.nv, s.no);
    s.info := s.info[p := s.info[p].(mark := m)];
  }

  // ---- Ending a pair ----

  // What ExorLinkCubeIteratorCleanUp has done so far: the first c cubes are gone.
  ghost predicate Cleaning(it: LinkIterator, s: Exorcism, e: Store, flags: seq<bool>, both: bool, c: int)
    reads it, s
  {
    && s.Valid() && s.Queues() && Cubes(it.L(), s.St(), flags, s.nv, s.no) && Outside(it.L(), s.St(), flags, both)
    && s.cover == e.cover && s.data == e.data && |it.el| == 32 && (forall k :: 0 <= k < c && k < 32 ==> it.el[k] == -1)
    && MarksIn(it.el, s.St(), c) && SameIds(e, s.St())
  }

  method CleanOne(s: Exorcism, it: LinkIterator, c: nat, keep: bool, ghost e: Store, ghost flags: seq<bool>,
                  ghost both: bool)
    requires Cleaning(it, s, e, flags, both, c) && c < 32 && it.el[c] != -1 && (keep <==> Used(it.L(), flags, c))
    modifies it`el, s`info, s`free, s`pool, s`nCubesFree
    ensures Cleaning(it, s, e, flags, both, c + 1) && it.el == old(it.el)[c := -1]
  {
    hide RuleProd, GroupRule, CubeRule, Outside;
    var p := it.el[c];
    assert Made(it.L(), s.St(), c);
    ghost var l, t := it.L(), s.St();
    OkSizes2(t, s.nv, s.no);
    hide Ok, Cubes, MarksIn, SameIds;
    Unmark(s, it, p, flags, both);
    if keep {
      ForgetUsed(l, s.St(), flags, c, both, s.nv, s.no);
      it.el := it.el[c := -1];
    } else {
      FreeOne(s, it, c, flags, both);
    }
    CleanedOne(e, l.el, t, s.St(), c, keep);
  }

  // The cube at place c has lost its mark, and its ID when it has been freed.
  lemma CleanedOne(e: Store, el: seq<int>, s: Store, t: Store, c: nat, keep: bool)
    requires MarksIn(el, s, c) && SameIds(e, s) && c < |el| && 0 <= el[c] < |s.info| && s.cover == e.cover
    requires if keep then t == Marked(s, el[c], false)
      else el[c] !in s.cover && t == Freed(Marked(s, el[c], false), el[c])
    ensures MarksIn(el[c := -1], t, c + 1) && SameIds(e, t)
  {
    MarksNext(el, s, t, c);
  }

  // A created cube that is not kept is freed.
  method FreeOne(s: Exorcism, it: LinkIterator, c: nat, ghost flags: seq<bool>, ghost both: bool)
    requires s.Valid() && s.Queues() && Cubes(it.L(), s.St(), flags, s.nv, s.no) && Outside(it.L(), s.St(), flags, both)
    requires c < 32 == |it.el| && it.el[c] != -1 && !Used(it.L(), flags, c) && Made(it.L(), s.St(), c)
    modifies it`el, s`info, s`free, s`pool, s`nCubesFree
    ensures s.Valid() && s.Queues() && Cubes(it.L(), s.St(), flags, s.nv, s.no) && Outside(it.L(), s.St(), flags, both)
    ensures it.el == old(it.el)[c := -1] && old(it.el[c]) !in s.cover
    ensures 0 <= old(it.el[c]) < |old(s.info)| && s.St() == Freed(old(s.St()), old(it.el[c]))
  {
    hide RuleProd, GroupRule, CubeRule, Outside, Ok, Cubes;
    var p := it.el[c];
    FreeMade(it.L(), s.St(), flags, c, both, s.nv, s.no);
    s.AddToFreeCubes(p);
    it.el := it.el[c := -1];
  }

  method Unmark(s: Exorcism, it: LinkIterator, p: nat, ghost flags: seq<bool>, ghost both: bool)
    requires s.Valid() && s.Queues() && Cubes(it.L(), s.St(), flags, s.nv, s.no)
    requires Outside(it.L(), s.St(), flags, both) && p < |s.info|
    modifies s`info
    ensures s.St() == Marked(old(s.St()), p, false)
    ensures s.Valid() && s.Queues() && Cubes(it.L(), s.St(), flags, s.nv, s.no) && Outside(it.L(), s.St(), flags, both)
  {
    hide Ok, Cubes, Outside;
    MarkOk(s.St(), p, false, s.nv, s.no);
    SameContents(it.L(), s.St(), Marked(s.St(), p, false), flags, both, s.nv, s.no);
    s.info := s.info[p := s.info[p].(mark := false)];
  }

  lemma UsedInGroup(l: Link, flags: seq<bool>, k: nat)
    requires l.dist < 3 && l.g < GroupCount(l.dist) && |flags| == l.dist + 2
    ensures (forall c :: 0 <= c < |flags| ==> flags[c]) ==> (Used(l, flags, k) <==> k in GroupRule(l.dist, l.g))
  {
    hide GroupRule;
    GroupShape(l.dist, l.g);
    if k in GroupRule(l.dist, l.g) && forall c :: 0 <= c < |flags| ==> flags[c] {
      var c :| 0 <= c < |GroupRule(l.dist, l.g)| && GroupRule(l.dist, l.g)[c] == k;
      assert flags[c] && At(GroupOf(l), c) == k;
    }
  }

  // ExorLinkCubeIteratorCleanUp: take says whether the last group has been taken.
  method CleanUp(s: Exorcism, it: LinkIterator, take: bool, ghost flags: seq<bool>, ghost both: bool)
    requires s.Valid() && s.Queues() && Cubes(it.L(), s.St(), flags, s.nv, s.no)
    requires Outside(it.L(), s.St(), flags, both) && |flags| == it.dist + 2 && MarksIn(it.el, s.St(), 0)
    requires take ==> forall c :: 0 <= c < |flags| ==> flags[c]
    requires !take ==>
      flags == NoFlags(it.dist) && forall k ::
      0 <= k < 32 && it.dist < 3 && k < CubeCount(it.dist) && k < |it.el| ==> it.el[k] != -1
    modifies it`el, s`info, s`free, s`pool, s`nCubesFree
    ensures s.Valid() && s.Queues() && s.cover == old(s.cover) && s.data == old(s.data)
    ensures forall h: nat :: Out(s.St(), h) <==> h < |s.data| && both && (h == it.pa || h == it.pb)
    ensures NoMarks(s.St()) && SameIds(old(s.St()), s.St())
  {
    ghost var e := s.St();
    UsableShape(it.L(), e, flags, s.nv, s.no);
    StartCleaning(it, s, flags, both);
    hide *;
    ghost var c := CleanAll(s, it, take, e, flags, both);
    EndCleaning(it, s, e, flags, both, c);
  }

  method CleanAll(s: Exorcism, it: LinkIterator, take: bool, ghost e: Store, ghost flags: seq<bool>, ghost both: bool)
    returns (ghost c: nat)
    requires it.dist < 3 && it.g < GroupCount(it.dist) && |flags| == it.dist + 2 && |it.el| == 32
    requires Cleaning(it, s, e, flags, both, 0)
    requires take ==> forall i :: 0 <= i < |flags| ==> flags[i]
    requires !take ==> flags == NoFlags(it.dist) && forall k :: 0 <= k < 32 && k < CubeCount(it.dist) ==> it.el[k] != -1
    modifies it`el, s`info, s`free, s`pool, s`nCubesFree
    ensures Cleaning(it, s, e, flags, both, c) && c == CubeCount(it.dist)
  {
    hide Cleaning, NoFlags;
    ghost var el0 := it.el;
    var i := 0;
    while i < CubeCount(it.dist)
      invariant 0 <= i <= CubeCount(it.dist) && Cleaning(it, s, e, flags, both, i)
      invariant |it.el| == 32 && forall k :: i <= k < 32 ==> it.el[k] == el0[k]
    {
      CleanStep(s, it, i, take, e, flags, both);
      i := i + 1;
    }
    c := i;
  }

  method CleanStep(s: Exorcism, it: LinkIterator, c: nat, take: bool, ghost e: Store, ghost flags: seq<bool>,
                   ghost both: bool)
    requires Cleaning(it, s, e, flags, both, c) && it.dist < 3 && it.g < GroupCount(it.dist) && |flags| == it.dist + 2
    requires |it.el| == 32 && c < CubeCount(it.dist)
    requires take ==> forall i :: 0 <= i < |flags| ==> flags[i]
    requires !take ==> flags == NoFlags(it.dist) && it.el[c] != -1
    modifies it`el, s`info, s`free, s`pool, s`nCubesFree
    ensures Cleaning(it, s, e, flags, both, c + 1) && it.el == old(it.el)[c := -1]
  {
    UsedInGroup(it.L(), flags, c);
    NoneUsed(it.L(), c);
    if it.el[c] == -1 { MarksNext(it.el, s.St(), s.St(), c); }
    hide MarksIn, SameIds, Ok, Cubes, Outside, RuleProd, GroupRule, CubeRule, Exorcism.Valid, Exorcism.Queues;
    if !take || it.el[c] != -1 {
      CleanOne(s, it, c, take && c in GroupRule(it.dist, it.g), e, flags, both);
    }
  }

  lemma StartCleaning(it: LinkIterator, s: Exorcism, flags: seq<bool>, both: bool)
    requires s.Valid() && s.Queues() && Cubes(it.L(), s.St(), flags, s.nv, s.no) && Outside(it.L(), s.St(), flags, both)
    requires MarksIn(it.el, s.St(), 0)
    ensures Cleaning(it, s, s.St(), flags, both, 0)
  {
  }

  lemma EndCleaning(it: LinkIterator, s: Exorcism, e: Store, flags: seq<bool>, both: bool, c: int)
    requires Cleaning(it, s, e, flags, both, c) && it.dist < 3 && c == CubeCount(it.dist)
    ensures s.Valid() && s.Queues() && s.cover == e.cover && s.data == e.data
    ensures forall h: nat :: Out(s.St(), h) <==> h < |s.data| && both && (h == it.pa || h == it.pb)
    ensures NoMarks(s.St()) && SameIds(e, s.St())
  {
    AllGone(it.L(), s.St(), flags, c, s.nv, s.no);
    NothingLeft(it.L(), s.St(), flags, both);
    MarksGone(it.el, s.St(), c);
  }

  lemma UsableShape(l: Link, s: Store, flags: seq<bool>, nv: nat, no: nat)
    requires Cubes(l, s, flags, nv, no)
    ensures l.dist < 3 && l.g < GroupCount(l.dist) && |l.el| == 32
  {
  }

  lemma AllGone(l: Link, s: Store, flags: seq<bool>, c: nat, nv: nat, no: nat)
    requires Cubes(l, s, flags, nv, no) && l.dist < 3 && c == CubeCount(l.dist)
    requires forall k :: 0 <= k < c && k < 32 ==> l.el[k] == -1
    ensures forall k :: 0 <= k < |l.el| ==> l.el[k] == -1
  {
    forall k: nat | k < 32 ensures l.el[k] == -1 {
      assert l.el[k] != -1 ==> Made(l, s, k);
    }
  }

  lemma WholeGroup(l: Link, s0: Store, s: Store, flags: seq<bool>, gain: int, nv: nat, no: nat)
    requires Pairing(l, s0, s, flags, gain, nv, no) && forall c :: 0 <= c < |flags| ==> flags[c]
    ensures Cubes(l, s, flags, nv, no) && Outside(l, s, flags, true) && |flags| == l.dist + 2 && l.pa != l.pb
    ensures l.pa < |s.data| && l.pb < |s.data|
    ensures SameFunction(s0, s, no) && |s.cover| + gain == |s0.cover| + l.dist && |s.data| == |s0.data|
  {
    hide Outside;
    GroupDone(l, s0, s, flags, nv, no);
    CountAll(flags);
  }

  lemma SameCover(s0: Store, s: Store, t: Store, no: nat)
    requires SameFunction(s0, s, no) && t.cover == s.cover && t.data == s.data
    ensures SameFunction(s0, t, no)
  {
    hide SumOf;
    assert forall o: nat, x: Input :: SumOf(t, o, x) == SumOf(s, o, x) by {
      forall o: nat, x: Input ensures SumOf(t, o, x) == SumOf(s, o, x) { SameSumOf(s, t, o, x); }
    }
  }

  lemma SameSumOf(s: Store, t: Store, o: nat, x: Input)
    requires t.cover == s.cover && t.data == s.data && Handles(s.data, s.cover)
    ensures SumOf(t, o, x) == SumOf(s, o, x)
  {
  }

  // Free cubes again: cover and free list are everything.
  lemma Settled(e: Store, t: Store, nv: nat, no: nat)
    requires Ok(t, nv, no, -1) && NoneOut(t) && Ok(e, nv, no, -1) && NoneOut(e) && |t.cover| <= |e.cover|
    requires |t.data| == |e.data| && |e.pool| >= 32
    ensures |t.pool| >= 32
  {
    Conservation(e, nv, no);
    Conservation(t, nv, no);
  }

  // The whole group is in the cover: drop the other cubes and the pair.
  method Accept(s: Exorcism, it: LinkIterator, ghost e: Store, ghost s0: Store, ghost flags: seq<bool>, ghost gain: int)
    requires s.Valid() && s.Queues() && Pairing(it.L(), s0, s.St(), flags, gain, s.nv, s.no)
    requires forall c :: 0 <= c < |flags| ==> flags[c]
    requires gain >= it.dist && Ok(e, s.nv, s.no, -1) && NoneOut(e) && |e.pool| >= 32 && Step(e, s0, s.no)
    requires MarksIn(it.el, s.St(), 0)
    modifies it`el, s`info, s`free, s`pool, s`nCubesFree
    ensures Between(s) && Step(e, s.St(), s.no) && s.cover == old(s.cover) && SameIds(old(s.St()), s.St())
  {
    hide Ok, Pairing, Cubes, Outside, SameFunction, Exorcism.Queues, MarksIn, NoMarks, SameIds;
    WholeGroup(it.L(), s0, s.St(), flags, gain, s.nv, s.no);
    ghost var t := s.St();
    CleanUp(s, it, true, flags, true);
    assert Out(s.St(), it.pa) && Out(s.St(), it.pb);
    OkSizes2(s.St(), s.nv, s.no);
    FreedOut(s.St(), it.pa);
    FreedMarks(t, s.St(), it.pa);
    s.AddToFreeCubes(it.pa);
    assert Out(s.St(), it.pb);
    FreedOut(s.St(), it.pb);
    FreedMarks(t, s.St(), it.pb);
    s.AddToFreeCubes(it.pb);
    assert forall h: nat :: !Out(s.St(), h);
    SameCover(s0, t, s.St(), s.no);
    FunctionTwice(e, s0, s.St(), s.no);
    Settled(e, s.St(), s.nv, s.no);
  }

  lemma FreedOut(s: Store, p: nat)
    requires p < |s.info|
    ensures forall h: nat :: Out(Freed(s, p), h) <==> Out(s, h) && h != p
  {
  }

  lemma FreedMarks(e: Store, s: Store, p: nat)
    requires p < |s.info| && p !in e.cover
    ensures (NoMarks(s) ==> NoMarks(Freed(s, p))) && (SameIds(e, s) ==> SameIds(e, Freed(s, p)))
  {
  }

  lemma FunctionTwice(e: Store, s: Store, t: Store, no: nat)
    requires SameFunction(e, s, no) && SameFunction(s, t, no)
    ensures SameFunction(e, t, no)
  {
    hide SumOf;
  }

  lemma PairBack(l: Link, s0: Store, s: Store, nv: nat, no: nat)
    requires Pairing(l, s0, s, NoFlags(l.dist), 0, nv, no) && Creating(l, s, true, nv, no)
    ensures Cubes(l, s, NoFlags(l.dist), nv, no) && Outside(l, s, NoFlags(l.dist), true) && Out(s, l.pa)
    ensures Out(s, l.pb) && l.pa != l.pb
    ensures |s.cover| == |s0.cover| - 2 && |s.data| == |s0.data|
    ensures Handles(s.data, s.cover) && Handles(s0.data, s0.cover) && s.data[l.pa] == l.da && s.data[l.pb] == l.db
    ensures forall o: nat, x: Input :: SumOf(s, o, x) == (SumOf(s0, o, x) != (Value(l.da, o, x) != Value(l.db, o, x)))
  {
    CountAll(NoFlags(l.dist));
    hide Ok, Cubes, PartSum, SumOf, Value;
    forall o: nat, x: Input ensures SumOf(s, o, x) == (SumOf(s0, o, x) != (Value(l.da, o, x) != Value(l.db, o, x))) {
      PartSumNone(l, NoFlags(l.dist), 0, o, x);
    }
  }

  lemma BothBack(l: Link, s0: Store, s: Store, t: Store, u: Store, nv: nat, no: nat)
    requires Pairing(l, s0, s, NoFlags(l.dist), 0, nv, no) && Creating(l, s, true, nv, no)
    requires Added(s, t, l.da) && Added(t, u, l.db) && t.data == s.data && u.data == s.data && u.pool == s.pool
    requires u.cover == [l.pb] + ([l.pa] + s.cover)
    ensures SameFunction(s0, u, no) && Cubes(l, u, NoFlags(l.dist), nv, no) && Outside(l, u, NoFlags(l.dist), false)
  {
    hide Ok, Value, SumOf, RuleProd, CubeRule, GroupRule;
    PairBack(l, s0, s, nv, no);
    forall o: nat, x: Input ensures SumOf(u, o, x) == SumOf(s0, o, x) {
      assert SumOf(t, o, x) == (SumOf(s, o, x) != Value(l.da, o, x));
    }
    assert forall h: nat :: Out(u, h) <==> Out(s, h) && h != l.pa && h != l.pb;
    forall k: nat | k < 32 && l.el[k] != -1 ensures Made(l, u, k) { assert Made(l, s, k); }
    forall k: nat | k < 32 && l.el[k] != -1 && !Used(l, NoFlags(l.dist), k)
      ensures RuleHeld(l, u, k, nv, no)
    { assert RuleHeld(l, s, k, nv, no); }
    forall h: nat
      ensures Out(u, h) <==>
        h < |u.data| && exists k :: 0 <= k < |l.el| && l.el[k] == h && !Used(l, NoFlags(l.dist), k)
    {
      if k: nat :| k < |l.el| && l.el[k] == h { assert Made(l, s, k); }
    }
  }

  // Marks and IDs are the same.
  ghost predicate SameInfo(s: Store, t: Store) {
    |t.info| == |s.info| && forall h: nat :: h < |s.info| ==>
      t.info[h].id == s.info[h].id && t.info[h].mark == s.info[h].mark
  }

  lemma InsertedInfo(s: Store, p: nat, nv: nat, no: nat)
    requires Ok(s, nv, no, -1) && Out(s, p)
    ensures p < |s.info| && -1 <= s.list < |s.info| && SameInfo(s, Inserted(s, p))
  {
    InsertOk(s, p, nv, no, -1);
    hide Ok;
  }

  // The pair goes back to the cover.
  method PutBack(s: Exorcism, it: LinkIterator, ghost s0: Store)
    requires s.Valid() && s.Queues() && Pairing(it.L(), s0, s.St(), NoFlags(it.dist), 0, s.nv, s.no)
    requires Creating(it.L(), s.St(), true, s.nv, s.no)
    modifies s`info, s`list, s`cover, s`nCubesInUse
    ensures s.Valid() && s.Queues() && SameFunction(s0, s.St(), s.no) && s.cover == [it.pb] + ([it.pa] + old(s.cover))
    ensures |s.cover| == |s0.cover| && |s.data| == |s0.data|
    ensures Cubes(it.L(), s.St(), NoFlags(it.dist), s.nv, s.no) && Outside(it.L(), s.St(), NoFlags(it.dist), false)
    ensures SameInfo(old(s.St()), s.St())
  {
    hide Ok, Pairing, Creating, Cubes, Outside, Added, Kept, SameFunction, AfterInsert, Exorcism.Queues;
    PairBack(it.L(), s0, s.St(), s.nv, s.no);
    ghost var t := s.St();
    InsertedInfo(t, it.pa, s.nv, s.no);
    s.CubeInsert(it.pa);
    ghost var u := s.St();
    InsertedInfo(u, it.pb, s.nv, s.no);
    s.CubeInsert(it.pb);
    BothBack(it.L(), s0, t, u, s.St(), s.nv, s.no);
  }

  // No group is taken: the pair goes back to the cover, all created cubes to the free list.
  method Reject(s: Exorcism, it: LinkIterator, ghost e: Store, ghost s0: Store)
    requires s.Valid() && s.Queues() && Pairing(it.L(), s0, s.St(), NoFlags(it.dist), 0, s.nv, s.no)
    requires Creating(it.L(), s.St(), true, s.nv, s.no)
    requires it.dist < 3 && |it.el| == 32 && forall k :: 0 <= k < 32 && k < CubeCount(it.dist) ==> it.el[k] != -1
    requires Ok(e, s.nv, s.no, -1) && NoneOut(e) && |e.pool| >= 32 && Step(e, s0, s.no) && MarksIn(it.el, s.St(), 0)
    modifies it`el, s`info, s`list, s`cover, s`nCubesInUse, s`free, s`pool, s`nCubesFree
    ensures Between(s) && Step(e, s.St(), s.no) && s.cover == [it.pb] + ([it.pa] + old(s.cover))
    ensures |s.cover| == |s0.cover| && |s.info| == |old(s.info)|
    ensures forall h: nat :: h in s.cover && h < |s.info| ==> s.info[h].id == old(s.info)[h].id
  {
    hide Ok, Pairing, Creating, Cubes, Outside, SameFunction, Exorcism.Queues, NoFlags, NoMarks;
    FlagsLength(it.dist);
    PutBack(s, it, s0);
    ghost var v := s.St();
    CleanUp(s, it, false, NoFlags(it.dist), false);
    SameCover(s0, v, s.St(), s.no);
    FunctionTwice(e, s0, s.St(), s.no);
    Settled(e, s.St(), s.nv, s.no);
  }

  lemma FlagsLength(dist: nat)
    ensures |NoFlags(dist)| == dist + 2
  {
  }
}
