// Facts about whole operations: pushing an assumption, adding a clause, one round of the search.
module SatCalls {
  import opened Cnf
  import opened SatState
  import opened SatSteps
  import opened SatWatches
  import opened SatPropagation
  import opened SatUndo
  import opened SatAnalysis
  import opened SatLevels
  import opened SatVerdict
  import opened SatRank

  // Every variable outside the heap is assigned by a literal of t.
  ghost predicate Absent(pos: seq<int>, t: seq<Lit>) {
    forall v :: 0 <= v < |pos| && pos[v] == -1 ==> Lit(v, false) in t || Lit(v, true) in t
  }

  lemma AbsentMore(pos: seq<int>, t: seq<Lit>, u: seq<Lit>)
    requires Absent(pos, t) && forall l :: l in t ==> l in u
    ensures Absent(pos, u)
  {
  }

  lemma AbsentPrefix(pos: seq<int>, t: seq<Lit>, u: seq<Lit>, i: nat, j: nat)
    requires i <= |t| && j <= |u| && i <= j && t <= u && Absent(pos, t[..i])
    ensures Absent(pos, u[..j])
  {
    assert t[..i] == u[..j][..i];
    AbsentMore(pos, t[..i], u[..j]);
  }

  // ---- Assumptions ----

  lemma PushedAssumed(s: State, t: State, p: Lit)
    requires s.LimsOk() && s.root == |s.lims| && s.AssumedOk(s.root) && p in t.trail
    requires s.trail <= t.trail && t.lims == s.lims + [|s.trail|] && t.assumed == s.assumed + [p]
    ensures t.AssumedOk(s.root + 1)
  {
    forall i | 0 <= i < s.root + 1
      ensures t.assumed[i] in t.trail[..if t.SegEnd(i + 1) <= |t.trail| then t.SegEnd(i + 1) else |t.trail|]
    {
      if i < s.root {
        assert s.SegEnd(i + 1) == t.SegEnd(i + 1);
        assert t.trail[..s.SegEnd(i + 1)] == s.trail[..s.SegEnd(i + 1)];
      } else {
        assert t.trail[..|t.trail|] == t.trail;
      }
    }
  }

  lemma PushedFailed(s: State, t: State, p: Lit)
    requires s.LimsOk() && s.root == |s.lims| && s.AssumedOk(s.root)
    requires s.trail <= t.trail && t.lims == s.lims + [|s.trail|] && t.assumed == s.assumed + [p]
    ensures t.AssumedOk(s.root)
  {
    forall i | 0 <= i < s.root
      ensures t.assumed[i] in t.trail[..if t.SegEnd(i + 1) <= |t.trail| then t.SegEnd(i + 1) else |t.trail|]
    {
      assert s.SegEnd(i + 1) == t.SegEnd(i + 1);
      assert t.trail[..s.SegEnd(i + 1)] == s.trail[..s.SegEnd(i + 1)];
    }
  }

  lemma GrownAssumed(s: State, t: State, m: nat)
    requires s.LimsOk() && s.AssumedOk(m) && m <= |s.lims| && Grown(s, t)
    ensures t.AssumedOk(m)
  {
    forall i | 0 <= i < m
      ensures t.assumed[i] in t.trail[..if t.SegEnd(i + 1) <= |t.trail| then t.SegEnd(i + 1) else |t.trail|]
    {
      assert s.assumed[i] in s.trail[..s.SegEnd(i + 1)];
      assert s.SegEnd(i + 1) <= t.SegEnd(i + 1);
      var k :| 0 <= k < s.SegEnd(i + 1) && s.trail[..s.SegEnd(i + 1)][k] == s.assumed[i];
      assert t.trail[k] == s.assumed[i];
    }
  }

  // The levels of what is still to be propagated once an assumption has been pushed.
  lemma PushedQueue(s: State, t: State, p: Lit, qhead: nat)
    requires s.LevelsOk() && s.root == |s.lims| && qhead <= |s.trail| && (qhead == |s.trail| || s.lims == [])
    requires p.v < |s.levels| == |s.reasons| == |s.assigns|
    requires forall i :: 0 <= i < |s.trail| ==> s.trail[i].v != p.v
    requires t == Opened(s, true, p)
    ensures t.QueueOk(qhead)
  {
    hide Entails;
    forall k | qhead <= k < |t.trail|
      ensures t.trail[k].v < |t.levels| && (t.levels[t.trail[k].v] == 0 || t.levels[t.trail[k].v] == |t.lims|)
    {
      if k < |s.trail| {
        assert s.LevelAt(k);
        assert t.trail[k] == s.trail[k];
      }
    }
  }

  lemma ReadyQueue(s: State, qhead: nat)
    requires s.LevelsOk() && qhead <= |s.trail| && (qhead == |s.trail| || s.lims == [])
    ensures s.QueueOk(qhead)
  {
    hide Entails;
    forall k | qhead <= k < |s.trail|
      ensures s.trail[k].v < |s.levels| && (s.levels[s.trail[k].v] == 0 || s.levels[s.trail[k].v] == |s.lims|)
    {
      assert s.LevelAt(k);
    }
  }

  lemma QuietQueue(s: State)
    ensures s.QueueOk(|s.trail|)
  {
  }

  // What pushing p does to the state before propagation.
  lemma PushStep(s: State, p: Lit, qhead: nat)
    requires s.Inv() && s.root == |s.lims| && s.AssumedOk(s.root) && p.v < s.n
    requires qhead <= |s.trail| && (qhead == |s.trail| || s.lims == [])
    ensures p.v < |s.assigns| == |s.levels| == |s.reasons|
    ensures s.Unassigned(p) ==>
      var t := Opened(s, true, p); t.Inv() && t.AssumedOk(t.root) && t.QueueOk(qhead) && s.trail <= t.trail
    ensures !s.Unassigned(p) ==>
      var t := NewLevel(s, true, p);
      t.Inv() && t.AssumedOk(s.root) &&
      (s.IsTrue(p) ==> t.AssumedOk(t.root) && t.QueueOk(qhead))
    ensures !s.Unassigned(p) && !s.IsTrue(p) ==> p.Not() in s.trail && Refuted(s.f, LitSet(s.assumed + [p]))
  {
    hide State.Inv, State.AssumedOk, Entails, Refuted;
    PushBounds(s, p);
    if s.Unassigned(p) {
      OpenedInv(s, true, p);
      PushQueues(s, p, qhead);
      PushAssumptions(s, p);
    } else {
      NewRootLevelInv(s, p);
      PushQueues(s, p, qhead);
      PushAssumptions(s, p);
      if !s.IsTrue(p) { PushRefutes(s, p); }
    }
  }

  lemma PushBounds(s: State, p: Lit)
    requires s.Inv() && p.v < s.n
    ensures p.v < |s.assigns| == |s.levels| == |s.reasons|
    ensures !s.Unassigned(p) && !s.IsTrue(p) ==> p.Not() in s.trail
  {
    hide Entails, State.LimsOk, State.LevelsOk, State.ReasonsOk, State.ArenaOk, State.WatchesOk, State.Covered;
    TrueIffOnTrail(s, p);
  }

  lemma PushQueues(s: State, p: Lit, qhead: nat)
    requires s.Inv() && s.root == |s.lims| && p.v < s.n && qhead <= |s.trail| && (qhead == |s.trail| || s.lims == [])
    ensures p.v < |s.assigns| == |s.levels| == |s.reasons|
    ensures s.Unassigned(p) ==> Opened(s, true, p).QueueOk(qhead)
    ensures s.IsTrue(p) ==> NewLevel(s, true, p).QueueOk(qhead)
  {
    hide Entails, State.LimsOk, State.ReasonsOk, State.ArenaOk, State.WatchesOk, State.Covered, State.LevelAt;
    if s.Unassigned(p) {
      UnassignedNotOnTrail(s, p);
      PushedQueue(s, Opened(s, true, p), p, qhead);
    } else {
      EmptyLevelQueue(s, p, qhead);
    }
  }

  lemma EmptyLevelQueue(s: State, p: Lit, qhead: nat)
    requires s.LevelsOk() && qhead <= |s.trail| && (qhead == |s.trail| || s.lims == [])
    ensures NewLevel(s, true, p).QueueOk(qhead)
  {
    hide Entails;
    forall k | qhead <= k < |s.trail|
      ensures s.trail[k].v < |s.levels| && s.levels[s.trail[k].v] == 0
    { assert s.LevelAt(k); }
  }

  lemma PushAssumptions(s: State, p: Lit)
    requires s.Inv() && s.root == |s.lims| && s.AssumedOk(s.root) && p.v < |s.assigns| == |s.levels| == |s.reasons|
    ensures s.Unassigned(p) ==> Opened(s, true, p).AssumedOk(s.root + 1)
    ensures NewLevel(s, true, p).AssumedOk(s.root)
    ensures s.IsTrue(p) ==> NewLevel(s, true, p).AssumedOk(s.root + 1)
  {
    hide Entails, State.LevelsOk, State.ReasonsOk, State.ArenaOk, State.WatchesOk, State.Covered, State.AssumedOk;
    PushedFailed(s, NewLevel(s, true, p), p);
    TrueIffOnTrail(s, p);
    if s.IsTrue(p) { PushedAssumed(s, NewLevel(s, true, p), p); }
    var t := Opened(s, true, p);
    assert t.trail[|s.trail|] == p;
    PushedAssumed(s, t, p);
  }

  lemma PushRefutes(s: State, p: Lit)
    requires s.Inv() && s.root == |s.lims| && p.Not() in s.trail
    ensures Refuted(s.f, LitSet(s.assumed + [p]))
  {
    hide Refuted, State.Covered, State.TrailOk, State.LimsOk, State.LevelsOk, State.ReasonsOk, State.ArenaOk,
      State.WatchesOk;
    FalseAssumptionRefutes(s, p);
  }

  // What refutes some of the assumptions refutes them all.
  lemma PrefixRefutes(f: set<Clause>, lits: seq<Lit>, i: nat, conf: seq<Lit>)
    requires i <= |lits|
    ensures Refuted(f, LitSet(lits[..i])) ==> Refuted(f, LitSet(lits))
    ensures FinalClause(f, lits[..i], conf) ==> FinalClause(f, lits, conf)
  {
    assert forall l :: l in LitSet(lits[..i]) ==> l in LitSet(lits);
    assert forall l :: l in lits[..i] ==> l in lits;
  }

  // ---- The final clause when an assumption is already false ----

  ghost predicate FinalClause(f: set<Clause>, assumed: seq<Lit>, conf: seq<Lit>) {
    Entails(f, LitSet(conf)) && forall i :: 0 <= i < |conf| ==> conf[i].Not() in assumed
  }

  // t is the state after the failed push of p, the last assumption.
  lemma FinalNoReason(t: State, p: Lit)
    requires t.Inv() && t.root == |t.lims| && t.assumed != [] && t.assumed[|t.assumed| - 1] == p
    requires p.Not() in t.trail && p.v < |t.levels| == |t.reasons| && t.reasons[p.v].NoReason?
    ensures t.levels[p.v] == 0 ==> FinalClause(t.f, t.assumed, [p.Not()])
    ensures t.levels[p.v] > 0 ==> FinalClause(t.f, t.assumed, [p.Not(), p])
  {
    hide State.TrailOk, State.LimsOk, State.ArenaOk, State.WatchesOk, State.Covered;
    var k :| 0 <= k < |t.trail| && t.trail[k] == p.Not();
    assert t.LevelAt(k) && t.ReasonAt(k);
    assert p.Not().Not() == p;
    if t.levels[p.v] == 0 {
      assert LitSet([p.Not()]) == {p.Not()};
    } else {
      assert t.assumed[t.levels[p.v] - 1] == p.Not();
      Tautology(t.f, p);
    }
  }

  lemma Tautology(f: set<Clause>, p: Lit)
    ensures Entails(f, LitSet([p.Not(), p]))
  {
    forall a: Assignment ensures SomeHolds(a, LitSet([p.Not(), p])) {
      var l := if Holds(a, p) then p else p.Not();
      assert Holds(a, l) && l in [p.Not(), p];
    }
  }

  lemma FinalBinary(t: State, p: Lit, q: Lit, conf: seq<Lit>)
    requires Explained(t, VarSet([q, p.Not()][1..]), conf) && p.Not() in t.trail && p in t.assumed
    ensures FinalClause(t.f, t.assumed, conf + [p.Not()])
  {
    hide Entails;
    var k :| 0 <= k < |t.trail| && t.trail[k] == p.Not();
    assert [q, p.Not()][1..][0].v == p.v;
    assert Entails(t.f, {p.Not()} + LitSet(conf));
    assert LitSet(conf + [p.Not()]) == {p.Not()} + LitSet(conf);
    assert p.Not().Not() == p;
  }

  lemma FinalStored(t: State, p: Lit, h: nat, conf: seq<Lit>)
    requires t.Inv() && h in t.arena && Explained(t, VarSet(t.arena[h][1..]), conf) && p in t.assumed
    requires |t.arena[h]| >= 1
    requires t.arena[h][0] == p.Not() && forall i :: 1 <= i < |t.arena[h]| ==> t.arena[h][i].Not() in t.trail
    ensures FinalClause(t.f, t.assumed, conf + [p.Not()])
  {
    hide State.TrailOk, State.LimsOk, State.LevelsOk, State.ReasonsOk, State.WatchesOk, State.Covered;
    var c := t.arena[h];
    var conf' := conf + [p.Not()];
    assert t.ClauseOk(c);
    forall a: Assignment | Models(a, t.f) ensures SomeHolds(a, LitSet(conf')) {
      var m :| m in LitSet(c) && Holds(a, m);
      var i :| 0 <= i < |c| && c[i] == m;
      if i == 0 {
        assert p.Not() in conf';
      } else {
        var k :| 0 <= k < |t.trail| && t.trail[k] == m.Not();
        assert c[1..][i - 1].v == m.v;
        assert Entails(t.f, {t.trail[k]} + LitSet(conf));
        var l :| l in {t.trail[k]} + LitSet(conf) && Holds(a, l);
        assert l in conf';
      }
    }
    assert p.Not().Not() == p;
  }

  lemma FinalConflict(t: State, lits: seq<Lit>, p: Lit, conf: seq<Lit>)
    requires Explained(t, VarSet(lits[0..]), conf) && Conflicting(t, lits, p)
    ensures FinalClause(t.f, t.assumed, conf)
  {
    hide Entails;
    assert lits[0..] == lits;
    ConflictExplained(t, lits, conf);
  }

  lemma ConflictFalse(t: State, lits: seq<Lit>, p: Lit)
    requires Conflicting(t, lits, p)
    ensures forall i :: 0 <= i < |lits| ==> lits[i].Not() in t.trail
  {
    hide Entails;
  }

  // The reason of a literal on the trail, for the failed push.
  lemma FalseReason(t: State, p: Lit)
    requires t.Inv() && p.Not() in t.trail && p.v < |t.reasons|
    ensures match t.reasons[p.v]
      case NoReason => true
      case BinReason(q) => q.v < t.n
      case ClauseReason(h) =>
        h in t.arena && |t.arena[h]| >= 2 && t.arena[h][0] == p.Not() &&
        forall i :: 1 <= i < |t.arena[h]| ==> t.arena[h][i].Not() in t.trail && t.arena[h][i].v < t.n
  {
    hide Entails, State.LimsOk, State.LevelsOk, State.WatchesOk, State.Covered;
    var k :| 0 <= k < |t.trail| && t.trail[k] == p.Not();
    assert t.ReasonAt(k);
    match t.reasons[p.v]
    case NoReason =>
    case BinReason(q) =>
    case ClauseReason(h) =>
      assert t.ClauseOk(t.arena[h]);
  }

  lemma ConflictRefutes(t: State, lits: seq<Lit>, p: Lit)
    requires t.Inv() && |t.lims| == t.root && Conflicting(t, lits, p)
    ensures Refuted(t.f, LitSet(t.assumed))
  {
    hide Refuted, State.Covered, State.TrailOk, State.LimsOk, State.LevelsOk, State.ReasonsOk, State.ArenaOk,
      State.WatchesOk;
    RootConflictRefutes(t, lits);
  }

  lemma RootGrown(s: State, t: State, pos: seq<int>, q: nat, r: nat)
    requires s.Inv() && Grown(s, t) && s.AssumedOk(s.root) && |s.lims| == s.root
    requires q <= |s.trail| && q <= r <= |t.trail| && Absent(pos, s.trail[..q])
    ensures t.AssumedOk(t.root) && |t.lims| == t.root == s.root && t.n == s.n && Absent(pos, t.trail[..r])
    ensures 0 < s.root && s.SafeCut(s.root - 1) ==> t.SafeCut(t.root - 1)
  {
    hide Entails, State.TrailOk, State.LevelsOk, State.ReasonsOk, State.ArenaOk, State.WatchesOk, State.Covered,
      State.SafeCut, Absent;
    GrownAssumed(s, t, s.root);
    AbsentPrefix(pos, s.trail, t.trail, q, r);
    if 0 < s.root && s.SafeCut(s.root - 1) { SafeGrown(s, t, s.root - 1); }
  }

  // Propagation creates no clauses.
  lemma HandlesKept(s: State, t: State)
    requires Grown(s, t)
    ensures forall h :: h in t.arena ==> h in s.arena
  {
  }

  // What the push of p and propagation leave.
  lemma PushedGrown(s: State, t: State, p: Lit)
    requires p.v < |s.assigns| == |s.levels| == |s.reasons| && Grown(Pushed(s, p), t)
    ensures t.lims == s.lims + [|s.trail|] && t.root == s.root + 1 && t.assumed == s.assumed + [p] && t.f == s.f
  {
  }

  lemma AssumedLess(s: State, m: nat, k: nat)
    requires s.AssumedOk(m) && k <= m
    ensures s.AssumedOk(k)
  {
  }

  lemma ConflictVars(t: State, lits: seq<Lit>, p: Lit)
    requires Conflicting(t, lits, p)
    ensures forall j :: 0 <= j < |lits| ==> lits[j].v < t.n
  {
    hide Entails;
  }

  // The state after the push of p, before propagation.
  function Pushed(s: State, p: Lit): State
    requires p.v < |s.assigns| == |s.levels| == |s.reasons|
  {
    if s.Unassigned(p) then Opened(s, true, p) else NewLevel(s, true, p)
  }

  lemma PushedOk(s: State, p: Lit, qhead: nat, pos: seq<int>)
    requires s.Inv() && s.root == |s.lims| && s.AssumedOk(s.root) && p.v < s.n
    requires qhead <= |s.trail| && (qhead == |s.trail| || s.lims == [])
    requires s.NoneFalse(s.trail[..qhead]) && Absent(pos, s.trail[..qhead])
    ensures p.v < |s.assigns| == |s.levels| == |s.reasons| && |s.assumed| == s.root
    ensures s.IsTrue(p) ==> p.Not() !in s.trail
    ensures s.Unassigned(p) ==> p.Not() !in s.trail
    ensures var t := Pushed(s, p);
      && t.Inv() && |s.trail| <= |t.trail| && t.NoneFalse(t.trail[..qhead]) && Absent(pos, t.trail[..qhead])
      && (s.Unassigned(p) || s.IsTrue(p) ==> t.AssumedOk(t.root) && t.QueueOk(qhead))
      && (!s.Unassigned(p) && !s.IsTrue(p) ==>
          t.AssumedOk(s.root) && p.Not() in t.trail && p.Not() in s.trail && Refuted(t.f, LitSet(t.assumed)))
  {
    hide Entails, State.Inv, State.NoneFalse, State.QueueOk, Refuted, Absent, State.AssumedOk;
    InvRoot(s);
    PushStep(s, p, qhead);
    TrueIffOnTrail(s, p);
    var t := Pushed(s, p);
    assert t.trail[..qhead] == s.trail[..qhead];
    NoneFalseFrame(s, t, s.trail[..qhead]);
  }

  // Below the new level nothing has changed.
  lemma PushedSafe(s: State, p: Lit)
    requires p.v < |s.assigns| == |s.levels| == |s.reasons|
    ensures var t := Pushed(s, p);
      && (t.SafeCut(|s.lims|) <==> s.NoneFalse(s.trail)) && t.lims == s.lims + [|s.trail|] && t.root == s.root + 1
      && t.assumed == s.assumed + [p] && t.n == s.n && t.f == s.f
    ensures s.TrailOk() && p.Not() in s.trail ==> Pushed(s, p) == NewLevel(s, true, p)
  {
    hide State.NoneFalse;
    var t := Pushed(s, p);
    assert t.trail[..|s.trail|] == s.trail;
    SameNoneFalse(s, t, s.trail);
    if s.TrailOk() { TrueIffOnTrail(s, p); }
  }

  // Nothing to visit after the push of a literal whose list is empty.
  lemma PushedUnwatched(s: State, p: Lit)
    requires p.v < |s.assigns| == |s.levels| == |s.reasons|
    ensures p in s.wl && s.wl[p] == [] ==> Pushed(s, p).Unwatched(Pushed(s, p).trail[|s.trail|..])
  {
    assert s.Unassigned(p) ==> Pushed(s, p).trail[|s.trail|..] == [p];
  }

  lemma NewLevelSafe(s: State, p: Lit)
    ensures NewLevel(s, true, p).SafeCut(|s.lims|) <==> s.NoneFalse(s.trail)
  {
    hide State.NoneFalse;
    var t := NewLevel(s, true, p);
    assert t.trail[..|s.trail|] == s.trail;
    SameNoneFalse(s, t, s.trail);
  }

  lemma SafeBelow(s: State, level: nat)
    requires s.LimsOk() && level < |s.lims| && s.SafeCut(level)
    ensures s.SafeCut(0)
  {
    var t, u := s.trail[..s.lims[level]], s.trail[..s.lims[0]];
    assert u == t[..s.lims[0]];
    NoneFalsePrefix(s, t, u);
  }

  lemma QuietSafe(s: State, level: nat)
    requires s.LimsOk() && level < |s.lims|
    ensures s.NoneFalse(s.trail) ==> s.SafeCut(level)
  {
    if s.NoneFalse(s.trail) { NoneFalsePrefix(s, s.trail, s.trail[..s.lims[level]]); }
  }

  // A conflict above no decision.
  lemma ClashSafe(s: State, q: nat)
    requires s.root == |s.lims| && 0 < q <= |s.trail| && s.NoneFalse(s.trail[..q - 1])
    requires s.lims != [] ==> s.lims[|s.lims| - 1] <= q - 1
    ensures 0 < s.root ==> s.SafeCut(s.root - 1)
  {
    if 0 < s.root {
      var t, u := s.trail[..q - 1], s.trail[..s.lims[s.root - 1]];
      assert u == t[..s.lims[s.root - 1]];
      NoneFalsePrefix(s, t, u);
    }
  }

  // t can be the state after the push of p has failed.
  ghost predicate FailedPush(s: State, p: Lit, t: State) {
    p.v < |s.assigns| == |s.levels| == |s.reasons| && Grown(Pushed(s, p), t) && Refuted(s.f, LitSet(s.assumed + [p]))
  }

  // Every failed push leaves the trail without a false clause when it had none before, and
  // only then: the negation of a literal on the trail fails before any list is visited.
  lemma FailedPushes(s: State)
    requires s.Inv() && s.root == |s.lims|
    ensures (forall p: Lit, t: State :: p.v < s.n && FailedPush(s, p, t) ==> t.SafeCut(s.root)) <==>
      s.NoneFalse(s.trail)
  {
    hide Entails, State.NoneFalse, State.Inv, State.SafeCut, Refuted, Pushed, Grown;
    InvRoot(s);
    if s.NoneFalse(s.trail) {
      forall p: Lit, t: State | p.v < s.n && FailedPush(s, p, t) ensures t.SafeCut(s.root) {
        PushedSafe(s, p);
        SafeGrown(Pushed(s, p), t, s.root);
      }
    } else {
      FalseTrail(s);
      var p := s.trail[0].Not();
      assert p.Not() == s.trail[0];
      PushedSafe(s, p);
      PushRefutes(s, p);
      PushedTrail(s, p);
      assert FailedPush(s, p, Pushed(s, p));
    }
  }

  lemma FalseTrail(s: State)
    requires !s.NoneFalse(s.trail)
    ensures s.trail != []
  {
  }

  lemma PushedTrail(s: State, p: Lit)
    requires s.Inv() && p.v < |s.assigns| == |s.levels| == |s.reasons| && p.Not() in s.trail
    ensures Grown(Pushed(s, p), Pushed(s, p))
  {
    hide Entails, State.LimsOk, State.LevelsOk, State.ReasonsOk, State.ArenaOk, State.WatchesOk, State.Covered, Grown;
    TrueIffOnTrail(s, p);
    GrownReflexive(Pushed(s, p));
  }

  lemma SafeGrown(s: State, t: State, level: nat)
    requires Grown(s, t) && s.SafeCut(level)
    ensures t.SafeCut(level)
  {
    hide State.NoneFalse;
    assert t.trail[..s.lims[level]] == s.trail[..s.lims[level]];
  }

  // ---- One round of the search ----

  // A decision on an unassigned variable with nothing left to propagate.
  lemma DecideStep(s: State, l: Lit)
    requires s.Inv() && s.Unassigned(l) && s.NoneFalse(s.trail) && s.AssumedOk(s.root)
    ensures l.v < |s.assigns| == |s.levels| == |s.reasons|
    ensures var t := Opened(s, false, l);
      t.Inv() && t.AssumedOk(t.root) && t.QueueOk(|s.trail|) && t.NoneFalse(t.trail[..|s.trail|]) &&
      t.trail == s.trail + [l] && t.root <= |t.lims| &&
      t.lims == s.lims + [|s.trail|] && t.root == s.root && t.arena == s.arena && t.wl == s.wl
  {
    hide State.Inv, State.NoneFalse, State.AssumedOk, Entails, State.QueueOk, Opened;
    UnassignedBounds(s, l);
    OpenedInv(s, false, l);
    OpenedFacts(s, l);
    var t := Opened(s, false, l);
    NoneFalseFrame(s, t, s.trail);
    assert t.trail[..|s.trail|] == s.trail;
  }

  lemma OpenedFacts(s: State, l: Lit)
    requires s.Inv() && s.AssumedOk(s.root) && l.v < |s.assigns| == |s.levels| == |s.reasons|
    ensures var t := Opened(s, false, l);
      t.AssumedOk(t.root) && t.QueueOk(|s.trail|) && t.trail == s.trail + [l] && t.arena == s.arena && t.wl == s.wl &&
      t.root <= |t.lims| &&
      t.lims == s.lims + [|s.trail|] && t.root == s.root
  {
    hide Entails, State.TrailOk, State.LevelsOk, State.ReasonsOk, State.ArenaOk, State.WatchesOk, State.Covered;
    var t := Opened(s, false, l);
    forall i | 0 <= i < t.root
      ensures t.assumed[i] in t.trail[..if t.SegEnd(i + 1) <= |t.trail| then t.SegEnd(i + 1) else |t.trail|]
    {
      assert s.SegEnd(i + 1) == t.SegEnd(i + 1);
      assert t.trail[..s.SegEnd(i + 1)] == s.trail[..s.SegEnd(i + 1)];
    }
  }

  // Cutting the trail at an open level at or above the root.
  lemma CutStep(s: State, t: State, level: nat, u: seq<Lit>)
    requires s.Inv() && s.AssumedOk(s.root) && s.root <= level && CancelledTo(s, t, level) && t.root == s.root
    requires t.assumed == s.assumed
    requires s.NoneFalse(u) && s.trail[..s.lims[level]] <= u
    ensures t.Inv() && t.AssumedOk(t.root) && t.NoneFalse(t.trail) && t.root <= |t.lims|
  {
    hide Entails, State.Inv, State.NoneFalse, State.AssumedOk, CancelledTo;
    InvRoot(s);
    CancelInv(s, t, level);
    CutAssumed(s, t, level, s.root);
    CutNoneFalse(s, t, u, level);
    CutLims(s, t, level);
  }

  lemma CutLims(s: State, t: State, level: nat)
    requires CancelledTo(s, t, level)
    ensures t.lims == s.lims[..level] && |t.lims| == level && t.trail == s.trail[..s.lims[level]]
  {
  }

  lemma InvRoot(s: State)
    requires s.Inv()
    ensures s.LimsOk() && s.TrailOk() && |s.assumed| == s.root <= |s.lims| && s.assumed[..s.root] == s.assumed
  {
    hide Entails, State.LevelsOk, State.ReasonsOk, State.ArenaOk, State.WatchesOk, State.Covered;
  }

  // Each level above the root starts with its decision.
  lemma {:induction false} LevelsFit(s: State, j: nat)
    requires s.LimsOk() && s.root <= j <= |s.lims|
    ensures j - s.root <= s.SegEnd(j)
  {
    if j > s.root {
      LevelsFit(s, j - 1);
      assert s.lims[j - 1] < s.SegEnd(j);
    }
  }

  // ---- The measure of the search ----

  function Cuts(lims: seq<nat>, root: nat, len: nat): seq<nat>
    requires root <= |lims|
  {
    lims[root..] + [len]
  }

  function Measure(n: nat, lims: seq<nat>, root: nat, len: nat): nat
    requires root <= |lims|
  {
    Rank(Cuts(lims, root, len), n, n + 2)
  }

  // An upper bound for the number of conflicts of one search.
  function MaxConflicts(n: nat): nat {
    Pow(n + 2, n + 2)
  }

  lemma MeasureBound(n: nat, lims: seq<nat>, root: nat, len: nat)
    requires root <= |lims|
    ensures Measure(n, lims, root, len) <= MaxConflicts(n)
  {
    RankBound(Cuts(lims, root, len), n, n + 2);
  }

  lemma DecisionLowers(n: nat, lims: seq<nat>, root: nat, len0: nat, len: nat)
    requires root <= |lims| && len0 <= len < n && |lims| - root <= n
    ensures Measure(n, lims + [len], root, len + 1) < Measure(n, lims, root, len0)
  {
    var c, e := Cuts(lims, root, len0), Cuts(lims + [len], root, len + 1);
    var i := |lims| - root;
    assert e == lims[root..] + [len, len + 1];
    if len0 < len {
      assert c[..i] == e[..i] == lims[root..];
      RankDecreases(c, e, n, n + 2, i);
    } else {
      assert c[..i + 1] == e[..i + 1];
      RankDecreases(c, e, n, n + 2, i + 1);
    }
  }

  lemma BackjumpLowers(n: nat, lims: seq<nat>, root: nat, len0: nat, level: nat)
    requires root <= level < |lims| && |lims| - root <= n && lims[level] + 1 <= n
    ensures Measure(n, lims[..level], root, lims[level] + 1) < Measure(n, lims, root, len0)
  {
    var c, e := Cuts(lims, root, len0), Cuts(lims[..level], root, lims[level] + 1);
    var i := level - root;
    assert c[..i] == lims[root..level] == e[..i];
    assert c[i] == lims[level] && e[i] == lims[level] + 1;
    RankDecreases(c, e, n, n + 2, i);
  }

  lemma TrailLength(s: State)
    requires s.Inv()
    ensures |s.trail| <= s.n && |s.lims| - s.root <= s.n && s.root <= |s.lims|
  {
    hide Entails, State.LevelsOk, State.ReasonsOk, State.ArenaOk, State.WatchesOk, State.Covered;
    TrailFits(s.trail, s.n);
    LevelsFit(s, |s.lims|);
  }

  // Clauses of several literals, after the cut.
  lemma LearntParts(s: State, t: State, c: seq<Lit>)
    requires s.Inv() && s.root < |s.lims| && Learnt(s, c)
    requires CancelledTo(s, t, BackLevel(s, c)) && t.Inv()
    ensures t.f == s.f && DistinctVars(c) && Entails(t.f, LitSet(c)) && |c| >= 1 && t.n == s.n
    ensures t.Unassigned(c[0]) && forall i :: 1 <= i < |c| ==> c[i].Not() in t.trail && c[i].v < t.n
    ensures |c| == 1 ==> Entails(t.f, {c[0]}) && BackLevel(s, c) == s.root
  {
    hide State.Inv, Entails;
    LearntAfterCut(s, t, c);
    if |c| == 1 { assert LitSet(c) == {c[0]} by { assert c == [c[0]]; } }
  }

  lemma LearntLevels(s: State, c: seq<Lit>)
    requires Learnt(s, c)
    ensures |c| >= 1 && forall i :: 1 <= i < |c| ==> c[i].v < |s.levels|
  {
    hide Entails;
  }

  lemma LastLim(s: State, level: nat)
    requires s.LimsOk() && level < |s.lims|
    ensures s.lims[level] <= s.lims[|s.lims| - 1] <= |s.trail|
  {
  }

  lemma InvLevels(s: State)
    requires s.Inv()
    ensures |s.levels| == |s.reasons| == |s.assigns| == s.n
    ensures s.lims != [] ==> s.lims[|s.lims| - 1] <= |s.trail|
  {
    hide Entails, State.LevelsOk, State.ReasonsOk, State.ArenaOk, State.WatchesOk, State.Covered;
  }

  lemma AbsentSame(was: seq<int>, pos: seq<int>, t: seq<Lit>)
    requires |pos| == |was| && (forall u :: 0 <= u < |pos| ==> (pos[u] == -1 <==> was[u] == -1)) && Absent(was, t)
    ensures Absent(pos, t)
  {
  }

  // The state after the learnt clause has been recorded.
  lemma RecordedFacts(t: State, u: State, l: Lit)
    requires t.Inv() && t.AssumedOk(t.root) && t.root <= |t.lims|
    requires u.trail == t.trail + [l] && u.lims == t.lims && u.root == t.root && u.assumed == t.assumed
    requires l.v < |t.levels| && |u.levels| == |t.levels|
    requires u.levels[l.v] == 0 || u.levels[l.v] == |t.lims|
    ensures u.AssumedOk(u.root) && u.QueueOk(|t.trail|)
  {
    hide Entails, State.TrailOk, State.LevelsOk, State.ReasonsOk, State.ArenaOk, State.WatchesOk, State.Covered;
    forall i | 0 <= i < u.root
      ensures u.assumed[i] in u.trail[..if u.SegEnd(i + 1) <= |u.trail| then u.SegEnd(i + 1) else |u.trail|]
    {
      assert t.SegEnd(i + 1) <= u.SegEnd(i + 1);
      var k :| 0 <= k < t.SegEnd(i + 1) && t.trail[..t.SegEnd(i + 1)][k] == t.assumed[i];
      assert u.trail[k] == t.assumed[i];
    }
  }

  lemma RecordedAbsent(pos: seq<int>, t: seq<Lit>, u: seq<Lit>, l: Lit)
    requires Absent(pos, t) && u == t + [l]
    ensures Absent(pos, u) && Absent(pos, u[..|t|]) && Absent(pos, u[..|t| + 1])
  {
    assert u[..|t|] == t && u[..|t| + 1] == u;
  }

  // What order_select has taken out of the heap is assigned, apart from its choice.
  lemma SelectedAbsent(s: State, was: seq<int>, pos: seq<int>, next: int)
    requires s.Inv() && Absent(was, s.trail) && |pos| == |was| == s.n == |s.assigns|
    requires forall v :: 0 <= v < s.n && pos[v] == -1 && was[v] != -1 ==> v == next || s.assigns[v] != X
    ensures forall u :: 0 <= u < |pos| && pos[u] == -1 && u != next ==>
      Lit(u, false) in s.trail || Lit(u, true) in s.trail
    ensures !(0 <= next < s.n) ==> Absent(pos, s.trail)
  {
    hide Entails, State.LimsOk, State.LevelsOk, State.ReasonsOk, State.ArenaOk, State.WatchesOk, State.Covered;
    forall u | 0 <= u < |pos| && pos[u] == -1 && u != next ensures Lit(u, false) in s.trail || Lit(u, true) in s.trail {
      if was[u] != -1 { assert Lit(u, s.assigns[u] == Zero) in s.trail; }
    }
  }

  lemma AllAssigned(s: State, pos: seq<int>)
    requires s.Inv() && Absent(pos, s.trail) && |pos| == s.n && forall v :: 0 <= v < |pos| ==> pos[v] == -1
    ensures Total(s)
  {
    hide Entails, State.LevelsOk, State.ReasonsOk, State.ArenaOk, State.WatchesOk, State.Covered;
    forall v | 0 <= v < |s.assigns| ensures s.assigns[v] != X {
      assert pos[v] == -1;
      var l := if Lit(v, false) in s.trail then Lit(v, false) else Lit(v, true);
      var k :| 0 <= k < |s.trail| && s.trail[k] == l;
      assert s.assigns[s.trail[k].v] == ValueOf(l);
    }
  }

  lemma TotalModel(s: State)
    requires s.Inv() && Total(s) && s.NoneFalse(s.trail) && s.AssumedOk(s.root)
    ensures IsModel(s.f, s.assumed, ModelOf(s.assigns))
  {
    hide Entails, State.TrailOk, State.LevelsOk, State.ReasonsOk, State.ArenaOk, State.WatchesOk, State.Covered,
      IsModel, Total;
    TotalIsModel(s);
  }

  lemma RunGrown(s: State, t: State)
    requires s.Inv() && Grown(s, t) && s.AssumedOk(s.root)
    ensures t.AssumedOk(t.root) && s.trail <= t.trail
    ensures forall h :: h in t.arena ==> h in s.arena
  {
    hide Entails, State.TrailOk, State.LevelsOk, State.ReasonsOk, State.ArenaOk, State.WatchesOk, State.Covered;
    GrownAssumed(s, t, s.root);
  }

  // The round ended in a conflict: t is the state after learning, lims the limits before.
  lemma ConflictLowers(t: State, lims: seq<nat>, len: nat)
    requires t.Inv() && |t.lims| < |lims| && t.lims == lims[..|t.lims|] && |t.trail| == lims[|t.lims|] + 1
    requires |lims| - t.root <= t.n
    ensures Measure(t.n, t.lims, t.root, |t.trail|) < Measure(t.n, lims, t.root, len)
    requires t.root <= |t.lims|
  {
    hide State.Inv, Measure;
    TrailLength(t);
    BackjumpLowers(t.n, lims, t.root, len, |t.lims|);
  }

  // The round ended in a decision.
  lemma DecidedLowers(t: State, lims: seq<nat>, len: nat)
    requires t.Inv() && t.root <= |lims| && |t.trail| >= 1 && len <= |t.trail| - 1 && t.lims == lims + [|t.trail| - 1]
    ensures Measure(t.n, t.lims, t.root, |t.trail|) < Measure(t.n, lims, t.root, len)
  {
    hide State.Inv, Measure;
    TrailLength(t);
    DecisionLowers(t.n, lims, t.root, len, |t.trail| - 1);
  }
}
