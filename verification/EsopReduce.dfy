// The passes over the queues of cube pairs, and the reduction that repeats them.
module EsopReduce {
  import opened EsopStore
  import opened EsopCheck
  import opened EsopCost
  import opened EsopPair
  import opened EsopQueue
  import opened EsopList
  import opened EsopIter
  import opened EsopPass
  import opened EsopGain
  import opened EsopApply
  import opened EsopFour
  import opened EsopTrace

  // Fewer cubes, or as many with no more literals.
  ghost predicate Leaner(e: Store, t: Store) {
    |t.cover| < |e.cover| || (|t.cover| == |e.cover| && Lits(t) <= Lits(e))
  }

  // What a pass keeps: the function of every output, and the number of cubes or less. When
  // literals count, a pass that gains nothing adds none.
  ghost predicate Passed(e: Store, t: Store, no: nat, lean: bool) {
    Step(e, t, no) && (lean ==> Leaner(e, t))
  }

  lemma PassedTwice(e: Store, t: Store, u: Store, no: nat, lean: bool)
    requires Passed(e, t, no, lean) && Passed(t, u, no, lean)
    ensures Passed(e, u, no, lean)
  {
    hide Step, Lits;
    StepTwice(e, t, u, no);
    StepSizes(e, t, no);
    StepSizes(t, u, no);
  }

  lemma StepSizes(e: Store, t: Store, no: nat)
    requires Step(e, t, no)
    ensures |t.cover| <= |e.cover| && |t.data| == |e.data|
  {
  }

  lemma PassedSelf(s: Exorcism, lean: bool)
    requires Ready(s)
    ensures Passed(s.St(), s.St(), s.no, lean)
  {
    StepSelf(s.St(), s.nv, s.no);
  }

  predicate Lean(s: Exorcism)
    reads s`decreaseLiterals
  {
    s.decreaseLiterals && !s.useQCost
  }

  function SettingOf(s: Exorcism): Setting { Setting(s.no, s.places, s.useQCost) }

  // One round of the loop of a pass.
  method TryPair(s: Exorcism, it: LinkIterator, d: nat, p1: nat, p2: nat)
    requires Ready(s) && p1 in s.cover && p2 in s.cover && d < 3
    modifies it, s`data, s`info, s`a, s`z, s`list, s`free, s`cover, s`pool, s`nCubesInUse, s`nCubesFree, s`change,
             s`que, s`cIDs, s`marked
    ensures Ready(s) && Passed(old(s.St()), s.St(), s.no, d < 2 && Lean(s))
    ensures Tried(d, s.decreaseLiterals, SettingOf(s), old(s.St()), s.St(), p1, p2)
    ensures !Linkable(old(s.St()), p1, p2, d) ==> s.que == old(s.que)
  {
    hide Ready, Step, Alike, Lits, Linkable, TriedFour, Improvable, SomeLighter, LeftThree;
    ghost var e := s.St();
    ReadySizes(s);
    var taken;
    match d {
      case 0 => taken := TryTwo(s, it, p1, p2);
      case 1 => taken := TryThree(s, it, p1, p2);
      case _ => taken := TryFour(s, it, p1, p2);
    }
    assert Outcome(d, s.decreaseLiterals, SettingOf(s), e, s.St(), p1, p2, taken);
    if !taken { LitsSame(e, s.St()); AlikeSize(e, s.St()); }
  }

  lemma ReadySizes(s: Exorcism)
    requires Ready(s)
    ensures |s.a| == |s.data|
  {
  }

  lemma AlikeSize(e: Store, t: Store)
    requires Alike(e, t)
    ensures |t.cover| == |e.cover|
  {
  }

  // IteratorCubePairStart and IteratorCubePairNext between two pairs.
  method FirstPair(s: Exorcism, d: nat) returns (found: bool, p: nat, q: nat, ghost views: seq<View>)
    requires Ready(s) && !s.started && d < 3
    modifies s`started, s`iterDist, s`posStop, s`posOut, s`marked
    ensures Ready(s) && s.started == found && s.iterDist == d < |s.posOut| == 3 && s.places > 0
    ensures found ==> p in s.cover && q in s.cover
    ensures d < |old(s.que)| && s.posStop == old(s.que)[d].posIn && Reading(s, d, views, found, p, q)
    ensures views != [] && views[0] == old(s.Now())
  {
    hide Ok, Spread, QueueOk, Matching, Past;
    s.IterStart(d);
    ghost var v := s.Now();
    found, p, q, views := s.IterNext();
    SeenViews(views, d, s.decreaseLiterals, SettingOf(s), s.posStop, v);
  }

  method NextPair(s: Exorcism, d: nat) returns (found: bool, p: nat, q: nat, ghost seen: seq<View>)
    requires Ready(s) && s.started && d == s.iterDist < |s.posOut| == 3 && s.places > 0
    modifies s`started, s`posOut
    ensures Ready(s) && s.started == found && s.iterDist == d < |s.posOut| == 3
    ensures found ==> p in s.cover && q in s.cover && s.PosLeft() < old(s.PosLeft())
    ensures Reading(s, d, seen, found, p, q) && seen[0] == old(s.Now())
  {
    hide Ok, Spread, QueueOk, Matching, Past;
    ghost var v := s.Now();
    found, p, q, seen := s.IterNext();
    SeenViews(seen, d, s.decreaseLiterals, SettingOf(s), s.posStop, v);
  }

  // During a pass: the pair found last is still to be tried.
  ghost predicate Reading(s: Exorcism, d: nat, views: seq<View>, found: bool, p: nat, q: nat)
    reads s
  {
    && ViewsOk(d, s.decreaseLiterals, SettingOf(s), s.posStop, views) && s.iterDist == d < |s.posOut|
    && views != [] && if found then s.Fetching(views[|views| - 1], p, q)
       else views[|views| - 1] == s.Now() && s.posOut[d] == s.posStop
  }

  // Skipped pairs.
  lemma SeenViews(seen: seq<View>, d: nat, counting: bool, c: Setting, stop: nat, v: View)
    requires Seen(seen, d, stop, c.places) && seen[0] == v && d < |v.que|
    ensures ViewsOk(d, counting, c, stop, seen)
  {
    hide Matching;
    SeenQueues(seen, d, stop, c.places, |seen| - 1);
    forall i | 0 <= i < |seen| - 1 ensures Read(d, counting, c, seen[i], seen[i + 1]) {
      assert seen[i + 1] == Past(seen[i], d, c.places);
    }
  }

  lemma {:induction false} SeenQueues(seen: seq<View>, d: nat, stop: nat, places: nat, n: nat)
    requires Seen(seen, d, stop, places) && n < |seen|
    ensures forall i :: 0 <= i <= n ==> seen[i].que == seen[0].que
  {
    hide Matching;
    if n > 0 {
      SeenQueues(seen, d, stop, places, n - 1);
      assert seen[n] == Past(seen[n - 1], d, places);
    }
  }

  // IterativelyApplyExorLink2, 3 and 4, which differ in what they do with a pair.
  method ApplyExorLink(s: Exorcism, it: LinkIterator, d: nat, enable2: bool, enable3: bool, enable4: bool)
    returns (gain: nat, ghost pass: Pass)
    requires Ready(s) && !s.started && d < 3
    modifies it, s`data, s`info, s`a, s`z, s`list, s`free, s`cover, s`pool, s`nCubesInUse, s`nCubesFree, s`change,
             s`que, s`cIDs, s`marked,
             s`started, s`iterDist, s`posStop, s`posOut, s`enabled
    ensures Ready(s) && !s.started && Passed(old(s.St()), s.St(), s.no, d < 2 && Lean(s))
    ensures gain == |old(s.cover)| - |s.cover|
    ensures Did([pass], [Kind(d, [enable2, enable3, enable4])], s.decreaseLiterals, SettingOf(s), old(s.Now()), s.Now())
  {
    hide Ready, Passed, PassOk, Did;
    Enable(s, enable2, enable3, enable4);
    InUseCount(s);
    var before := s.nCubesInUse;
    pass := AllPairs(s, it, d);
    DidOne(pass, SettingOf(s));
    PassedSizes(old(s.St()), s.St(), s.no, d < 2 && Lean(s));
    InUseCount(s);
    gain := before - s.nCubesInUse;
  }

  // Try every pair of the queue once.
  method AllPairs(s: Exorcism, it: LinkIterator, d: nat) returns (ghost pass: Pass)
    requires Ready(s) && !s.started && d < 3
    modifies it, s`data, s`info, s`a, s`z, s`list, s`free, s`cover, s`pool, s`nCubesInUse, s`nCubesFree, s`change,
             s`que, s`cIDs, s`marked,
             s`started, s`iterDist, s`posStop, s`posOut
    ensures Ready(s) && !s.started && Passed(old(s.St()), s.St(), s.no, d < 2 && Lean(s))
    ensures PassOk(pass, SettingOf(s)) && pass.d == d && pass.on == s.enabled && pass.counting == s.decreaseLiterals
    ensures Entry(pass) == old(s.Now()) && Exit(pass) == s.Now()
  {
    hide Ready, Passed, Reading, ViewsOk, PassOk, Exorcism.PosLeft;
    var found, p, q;
    ghost var views;
    ThreeQueues(s);
    found, p, q, views := FirstPair(s, d);
    PassedSelf(s, d < 2 && Lean(s));
    while found
      invariant Ready(s) && s.started == found && s.iterDist == d < |s.posOut| == 3 && s.places > 0
      invariant Passed(old(s.St()), s.St(), s.no, d < 2 && Lean(s))
      invariant found ==> p in s.cover && q in s.cover
      invariant Reading(s, d, views, found, p, q) && views != [] && views[0] == old(s.Now())
      invariant s.posStop == old(s.que)[d].posIn
      decreases found, s.PosLeft()
    {
      ghost var t := s.St();
      found, p, q, views := TryNext(s, it, d, p, q, views);
      PassedTwice(old(s.St()), t, s.St(), s.no, d < 2 && Lean(s));
    }
    pass := Pass(d, s.enabled, s.decreaseLiterals, views);
    ReadingDone(s, d, views, p, q);
  }

  lemma ReadingDone(s: Exorcism, d: nat, views: seq<View>, p: nat, q: nat)
    requires Reading(s, d, views, false, p, q) && views != [] && d < 3
    requires d < |views[0].que| && s.posStop == views[0].que[d].posIn
    ensures PassOk(Pass(d, s.enabled, s.decreaseLiterals, views), SettingOf(s)) && views[|views| - 1] == s.Now()
  {
    hide ViewsOk;
  }

  // Try a pair, then fetch the next one.
  method TryNext(s: Exorcism, it: LinkIterator, d: nat, p1: nat, p2: nat, ghost views: seq<View>)
    returns (found: bool, p: nat, q: nat, ghost more: seq<View>)
    requires Ready(s) && s.started && d == s.iterDist < |s.posOut| == 3 && s.places > 0
    requires p1 in s.cover && p2 in s.cover && Reading(s, d, views, true, p1, p2)
    modifies it, s`data, s`info, s`a, s`z, s`list, s`free, s`cover, s`pool, s`nCubesInUse, s`nCubesFree, s`change,
             s`que, s`cIDs, s`marked, s`started, s`posOut
    ensures Ready(s) && s.started == found && s.iterDist == d < |s.posOut| == 3
    ensures Passed(old(s.St()), s.St(), s.no, d < 2 && Lean(s))
    ensures found ==> p in s.cover && q in s.cover && s.PosLeft() < old(s.PosLeft())
    ensures Reading(s, d, more, found, p, q) && views != [] && more != [] && more[0] == views[0]
  {
    hide Ready, Passed, ViewsOk, Tried, Linkable, Matching, Exorcism.PosLeft;
    ghost var v := s.St();
    ThreeQueues(s);
    TryPair(s, it, d, p1, p2);
    ThreeQueues(s);
    ghost var w, seen := s.Now(), [];
    found, p, q, seen := NextPair(s, d);
    more := views + seen;
    TriedView(d, s.decreaseLiterals, SettingOf(s), s.posStop, views, seen, p1, p2);
  }

  lemma ThreeQueues(s: Exorcism)
    requires Ready(s)
    ensures |s.que| == 3
  {
  }

  // The pair of the last view has been tried.
  lemma TriedView(d: nat, counting: bool, c: Setting, stop: nat, views: seq<View>, seen: seq<View>, p1: nat, p2: nat)
    requires ViewsOk(d, counting, c, stop, views) && ViewsOk(d, counting, c, stop, seen)
    requires views != [] && seen != [] && d < |views[|views| - 1].outs|
    requires var v, w := views[|views| - 1], seen[0];
      && Matching(v, d) && v.outs[d] != stop && w.outs == Past(v, d, c.places).outs && |w.que| == |v.que|
      && p1 == v.que[d].c1[v.outs[d]] && p2 == v.que[d].c2[v.outs[d]]
      && p1 in v.st.cover && p2 in v.st.cover && Tried(d, counting, c, v.st, w.st, p1, p2)
      && (!Linkable(v.st, p1, p2, d) ==> w.que == v.que)
    ensures ViewsOk(d, counting, c, stop, views + seen)
  {
    hide Tried, Linkable, Matching;
  }

  method Enable(s: Exorcism, enable2: bool, enable3: bool, enable4: bool)
    requires Ready(s)
    modifies s`enabled
    ensures Ready(s) && s.enabled == [enable2, enable3, enable4]
  {
    hide Ok, Spread, QueueOk;
    s.enabled := [enable2, enable3, enable4];
  }

  lemma InUseCount(s: Exorcism)
    requires Ready(s)
    ensures s.nCubesInUse == |s.cover| && s.nCubesFree == |s.pool|
  {
  }

  lemma PassedSizes(e: Store, t: Store, no: nat, lean: bool)
    requires Passed(e, t, no, lean)
    ensures |t.cover| <= |e.cover| && |t.data| == |e.data|
  {
  }

  // Passes for distance two and three, n times.
  method Rounds(s: Exorcism, it: LinkIterator, n: nat, ghost lean: bool) returns (gain: nat, ghost passes: seq<Pass>)
    requires Ready(s) && !s.started && (lean ==> Lean(s))
    modifies it, s`data, s`info, s`a, s`z, s`list, s`free, s`cover, s`pool, s`nCubesInUse, s`nCubesFree, s`change,
             s`que, s`cIDs, s`marked,
             s`started, s`iterDist, s`posStop, s`posOut, s`enabled
    ensures Ready(s) && !s.started && Passed(old(s.St()), s.St(), s.no, lean) && gain == |old(s.cover)| - |s.cover|
    ensures Did(passes, Shallow(n), s.decreaseLiterals, SettingOf(s), old(s.Now()), s.Now())
  {
    hide Ready, Passed, Did;
    ghost var e, v, c := s.St(), s.Now(), SettingOf(s);
    gain, passes := 0, [];
    PassedSelf(s, lean);
    DidNothing(s.decreaseLiterals, c, v);
    for i := 0 to n
      invariant Ready(s) && !s.started && Passed(e, s.St(), s.no, lean) && gain == |old(s.cover)| - |s.cover|
      invariant Did(passes, Shallow(i), s.decreaseLiterals, c, v, s.Now())
    {
      ghost var t, w := s.St(), s.Now();
      var more;
      ghost var pass, next;
      more, pass := ApplyExorLink(s, it, 0, true, true, false);
      PassedAs(t, s.St(), s.no, Lean(s), lean);
      PassedTwice(e, t, s.St(), s.no, lean);
      gain := gain + more;
      ghost var u, x := s.St(), s.Now();
      more, next := ApplyExorLink(s, it, 1, true, true, false);
      PassedAs(u, s.St(), s.no, Lean(s), lean);
      PassedTwice(e, u, s.St(), s.no, lean);
      gain := gain + more;
      DidBoth([pass], [Step2(false)], [next], [Step3(false)], s.decreaseLiterals, c, w, x, s.Now());
      assert [Step2(false)] + [Step3(false)] == [Step2(false), Step3(false)];
      DidBoth(passes, Shallow(i), [pass] + [next], [Step2(false), Step3(false)], s.decreaseLiterals, c, v, w, s.Now());
      passes := passes + ([pass] + [next]);
    }
  }

  lemma PassedAs(e: Store, t: Store, no: nat, lean: bool, less: bool)
    requires Passed(e, t, no, lean) && (less ==> lean)
    ensures Passed(e, t, no, less)
  {
  }

  // The last eight passes of a deep round.
  method DeepRound(s: Exorcism, it: LinkIterator) returns (gain: nat, ghost passes: seq<Pass>)
    requires Ready(s) && !s.started
    modifies it, s`data, s`info, s`a, s`z, s`list, s`free, s`cover, s`pool, s`nCubesInUse, s`nCubesFree, s`change,
             s`que, s`cIDs, s`marked,
             s`started, s`iterDist, s`posStop, s`posOut, s`enabled
    ensures Ready(s) && !s.started && Passed(old(s.St()), s.St(), s.no, false) && gain == |old(s.cover)| - |s.cover|
    ensures Did(passes, Deep(), s.decreaseLiterals, SettingOf(s), old(s.Now()), s.Now())
  {
    hide Ready, Passed, Did;
    ghost var e, v, c := s.St(), s.Now(), SettingOf(s);
    gain, passes := Rounds(s, it, 1, false);
    var dists: seq<nat>, fours := [0, 1, 0, 2, 0, 2], [true, true, true, true, true, false];
    ghost var kinds := [Step2(true), Step3(true), Step2(true), Step4(true), Step2(true), Step4(false)];
    assert Shallow(1) == Shallow(1) + kinds[..0];
    for i := 0 to 6
      invariant Ready(s) && !s.started && Passed(e, s.St(), s.no, false) && gain == |old(s.cover)| - |s.cover|
      invariant Did(passes, Shallow(1) + kinds[..i], s.decreaseLiterals, c, v, s.Now())
    {
      ghost var t, w := s.St(), s.Now();
      var more;
      ghost var pass;
      more, pass := ApplyExorLink(s, it, dists[i], true, true, fours[i]);
      PassedAs(t, s.St(), s.no, dists[i] < 2 && Lean(s), false);
      PassedTwice(e, t, s.St(), s.no, false);
      gain := gain + more;
      DidBoth(passes, Shallow(1) + kinds[..i], [pass], [kinds[i]], s.decreaseLiterals, c, v, w, s.Now());
      passes := passes + [pass];
      assert Shallow(1) + kinds[..i] + [kinds[i]] == Shallow(1) + kinds[..i + 1];
    }
    assert kinds[..6] == kinds;
  }

  // One round of the main loop: deep once there have been enough without a gain.
  method OneRound(s: Exorcism, it: LinkIterator, quality: int, idle: nat) returns (gain: nat, ghost passes: seq<Pass>)
    requires Ready(s) && !s.started
    modifies it, s`data, s`info, s`a, s`z, s`list, s`free, s`cover, s`pool, s`nCubesInUse, s`nCubesFree, s`change,
             s`que, s`cIDs, s`marked,
             s`started, s`iterDist, s`posStop, s`posOut, s`enabled
    ensures Ready(s) && !s.started && Passed(old(s.St()), s.St(), s.no, false) && gain == |old(s.cover)| - |s.cover|
    ensures Did(passes, RoundOf(quality, idle), s.decreaseLiterals, SettingOf(s), old(s.Now()), s.Now())
  {
    hide Ready, Passed, Did;
    ghost var e, v, c := s.St(), s.Now(), SettingOf(s);
    gain, passes := Rounds(s, it, 6, false);
    if idle > (if quality > 0 then 1 else 0) {
      ghost var t, w := s.St(), s.Now();
      var more;
      ghost var deep;
      more, deep := DeepRound(s, it);
      PassedTwice(e, t, s.St(), s.no, false);
      DidBoth(passes, Shallow(6), deep, Deep(), s.decreaseLiterals, c, v, w, s.Now());
      gain, passes := gain + more, passes + deep;
      t, w := s.St(), s.Now();
      more, deep := DeepRound(s, it);
      PassedTwice(e, t, s.St(), s.no, false);
      DidBoth(passes, Shallow(6) + Deep(), deep, Deep(), s.decreaseLiterals, c, v, w, s.Now());
      gain, passes := gain + more, passes + deep;
    }
  }

  // The run so far: early up to the last gain, then idle rounds without one.
  ghost predicate Going(r: Reduction, counting: bool, c: Setting, v: View, n: nat, quality: int, first: bool) {
    && Run(r.early, counting, c, v, r.turn) && Did(r.idle, IdleRounds(quality, n), counting, c, r.turn, r.mid)
    && |r.mid.st.cover| == |r.turn.st.cover|
    && if first then r.early == r.idle == [] && n == 0 else
         |r.early + r.idle| >= 12 && Kinds(r.early + r.idle)[..12] == Shallow(6) &&
         (quality < 0 ==> Kinds(r.early + r.idle) == Shallow(6))
  }

  // One round more.
  ghost function Onward(r: Reduction, passes: seq<Pass>, w: View): Reduction {
    if |w.st.cover| == |r.mid.st.cover| then r.(idle := r.idle + passes, mid := w)
    else r.(early := r.early + r.idle + passes, idle := [], turn := w, mid := w)
  }

  lemma GoingOn(r: Reduction, counting: bool, c: Setting, v: View, w: View, n: nat, quality: int, first: bool,
                passes: seq<Pass>)
    requires Going(r, counting, c, v, n, quality, first) && (first || quality >= 0)
    requires Did(passes, RoundOf(quality, n), counting, c, r.mid, w)
    ensures Going(Onward(r, passes, w), counting, c, v, if |w.st.cover| == |r.mid.st.cover| then n + 1 else 0, quality,
                  false)
  {
    hide Run, Shallow;
    DidBoth(r.idle, IdleRounds(quality, n), passes, RoundOf(quality, n), counting, c, r.turn, r.mid, w);
    DidBoth(r.early, Kinds(r.early), r.idle, Kinds(r.idle), counting, c, v, r.turn, r.mid);
    DidBoth(r.early + r.idle, Kinds(r.early + r.idle), passes, Kinds(passes), counting, c, v, r.mid, w);
    DidNothing(counting, c, w);
    FirstTwelve(r, passes, quality, n, first);
  }

  lemma FirstTwelve(r: Reduction, passes: seq<Pass>, quality: int, n: nat, first: bool)
    requires Kinds(passes) == RoundOf(quality, n) && (first || quality >= 0)
    requires if first then r.early == r.idle == [] && n == 0 else
      |r.early + r.idle| >= 12 && Kinds(r.early + r.idle)[..12] == Shallow(6)
    ensures r.early + r.idle + passes == r.early + (r.idle + passes) == r.early + r.idle + passes + []
    ensures var all := r.early + r.idle + passes;
      |all| >= 12 && Kinds(all)[..12] == Shallow(6) && (quality < 0 ==> Kinds(all) == Shallow(6))
  {
    var all := r.early + r.idle + passes;
    if first {
      assert all == passes && |Shallow(6)| == 12;
    } else {
      assert Kinds(all)[..12] == Kinds(r.early + r.idle)[..12];
    }
  }

  // ReduceEsopCover: rounds until there have been 1 + quality without a gain, then the rounds
  // in which literals count. mid is the state between the two parts, counted tells whether literals
  // count in the first one, and r holds all passes with what each has read and tried.
  method ReduceEsopCover(s: Exorcism, it: LinkIterator, quality: int)
    returns (ghost mid: Store, ghost counted: bool, ghost r: Reduction)
    requires Ready(s) && !s.started
    modifies it, s`data, s`info, s`a, s`z, s`list, s`free, s`cover, s`pool, s`nCubesInUse, s`nCubesFree, s`change,
             s`que, s`cIDs, s`marked,
             s`started, s`iterDist, s`posStop, s`posOut, s`enabled, s`decreaseLiterals
    ensures Ready(s) && !s.started && s.nCubesInUse + s.nCubesFree == |s.data| == |old(s.data)|
    ensures Passed(old(s.St()), mid, s.no, false) && Passed(mid, s.St(), s.no, !s.useQCost)
    ensures Passed(old(s.St()), s.St(), s.no, false)
    ensures counted == old(s.decreaseLiterals) && s.decreaseLiterals
    ensures Reduced(r, SettingOf(s), old(s.Now()), s.Now(), quality, counted) && r.mid.st == mid
  {
    hide Ready, Passed, Going, Did, Run;
    ghost var e, v, c := s.St(), s.Now(), SettingOf(s);
    counted := s.decreaseLiterals;
    r := AllRounds(s, it, quality);
    mid := s.St();
    CountLiterals(s);
    ghost var last;
    var gain;
    gain, last := Rounds(s, it, 5, !s.useQCost);
    r := r.(last := last);
    PassedAs(mid, s.St(), s.no, !s.useQCost, false);
    PassedTwice(e, mid, s.St(), s.no, false);
    PassedSizes(e, s.St(), s.no, false);
    AllCubes(s);
  }

  // The rounds in which only cubes count.
  method AllRounds(s: Exorcism, it: LinkIterator, quality: int) returns (ghost r: Reduction)
    requires Ready(s) && !s.started
    modifies it, s`data, s`info, s`a, s`z, s`list, s`free, s`cover, s`pool, s`nCubesInUse, s`nCubesFree, s`change,
             s`que, s`cIDs, s`marked,
             s`started, s`iterDist, s`posStop, s`posOut, s`enabled
    ensures Ready(s) && !s.started && Passed(old(s.St()), s.St(), s.no, false) && r.mid == s.Now()
    ensures Run(r.early, s.decreaseLiterals, SettingOf(s), old(s.Now()), r.turn)
    ensures Run(r.idle, s.decreaseLiterals, SettingOf(s), r.turn, r.mid) && |r.mid.st.cover| == |r.turn.st.cover|
    ensures if quality < 0 then Kinds(r.early + r.idle) == Shallow(6)
      else Kinds(r.idle) == IdleRounds(quality, 1 + quality)
    ensures |r.early + r.idle| >= 12 && Kinds(r.early + r.idle)[..12] == Shallow(6)
  {
    hide Ready, Passed, Going, Did, Run;
    ghost var e, v, first := s.St(), s.Now(), true;
    PassedSelf(s, false);
    r := Reduction([], [], [], v, v);
    StartGoing(s.decreaseLiterals, SettingOf(s), v, quality);
    var idle := 0;
    var again := true;
    while again
      invariant Ready(s) && !s.started && Passed(e, s.St(), s.no, false) && idle >= 0
      invariant again ==> idle <= if quality > 0 then quality else 0
      invariant again && !first ==> idle < 1 + quality
      invariant !again ==> idle >= 1 + quality && !first && (quality >= 0 ==> idle == 1 + quality)
      invariant Going(r, s.decreaseLiterals, SettingOf(s), v, idle, quality, first) && r.mid == s.Now()
      decreases |s.cover|, if again then 2 + (if quality > 0 then quality else 0) - idle else 0
    {
      ghost var t := s.St();
      var gain;
      ghost var passes;
      gain, passes := OneRound(s, it, quality, idle);
      PassedTwice(e, t, s.St(), s.no, false);
      GoingOn(r, s.decreaseLiterals, SettingOf(s), v, s.Now(), idle, quality, first, passes);
      r, first := Onward(r, passes, s.Now()), false;
      idle := if gain != 0 then 0 else idle + 1;
      again := idle < 1 + quality;
    }
    Gone(r, s.decreaseLiterals, SettingOf(s), v, idle, quality);
  }

  lemma StartGoing(counting: bool, c: Setting, v: View, quality: int)
    ensures Going(Reduction([], [], [], v, v), counting, c, v, 0, quality, true)
  {
  }

  lemma Gone(r: Reduction, counting: bool, c: Setting, v: View, n: nat, quality: int)
    requires Going(r, counting, c, v, n, quality, false) && (quality >= 0 ==> n == 1 + quality)
    ensures Run(r.early, counting, c, v, r.turn) && Run(r.idle, counting, c, r.turn, r.mid)
    ensures |r.mid.st.cover| == |r.turn.st.cover|
    ensures if quality < 0 then Kinds(r.early + r.idle) == Shallow(6)
      else Kinds(r.idle) == IdleRounds(quality, 1 + quality)
    ensures |r.early + r.idle| >= 12 && Kinds(r.early + r.idle)[..12] == Shallow(6)
  {
    hide Run, Shallow, IdleRounds;
  }

  method CountLiterals(s: Exorcism)
    requires Ready(s)
    modifies s`decreaseLiterals
    ensures Ready(s) && s.decreaseLiterals
  {
    s.decreaseLiterals := true;
  }

  // Every allocated cube is in the cover or free.
  lemma AllCubes(s: Exorcism)
    requires Ready(s)
    ensures s.nCubesInUse + s.nCubesFree == |s.data|
  {
    Conservation(s.St(), s.nv, s.no);
  }
}
