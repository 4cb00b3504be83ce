// The elementary state changes and the proofs that they keep the invariants.
module SatSteps {
  import opened Cnf
  import opened SatState

  function Enqueued(s: State, l: Lit, from: Reason): State
    requires l.v < |s.assigns| == |s.levels| == |s.reasons|
  {
    s.(assigns := s.assigns[l.v := ValueOf(l)], levels := s.levels[l.v := |s.lims|],
       reasons := s.reasons[l.v := from], trail := s.trail + [l])
  }

  lemma TrueIffOnTrail(s: State, l: Lit)
    requires s.TrailOk()
    ensures s.IsTrue(l) <==> l in s.trail
    ensures s.IsFalse(l) <==> l.Not() in s.trail
  {
  }

  // With no decision and no assumption, everything on the trail follows from the clauses.
  lemma LevelZeroEntailed(s: State, l: Lit)
    requires s.TrailOk() && s.LimsOk() && s.LevelsOk()
    requires l in s.trail && (s.lims == [] || s.levels[l.v] == 0)
    ensures Entails(s.f, {l})
  {
    var k :| 0 <= k < |s.trail| && s.trail[k] == l;
    assert s.LevelAt(k);
  }

  ghost predicate Implied(s: State, l: Lit, from: Reason) {
    match from
    case NoReason => s.lims == [] && Entails(s.f, {l})
    case BinReason(q) =>
      q in s.trail && q.v < |s.levels| && Entails(s.f, {l, q.Not()}) &&
      (s.levels[q.v] == 0 || s.levels[q.v] == |s.lims|)
    case ClauseReason(h) =>
      h in s.arena && s.ClauseOk(s.arena[h]) && s.arena[h][0] == l &&
      forall i :: 1 <= i < |s.arena[h]| ==> s.arena[h][i].Not() in s.trail
  }

  lemma ImpliedAtLevelZero(s: State, l: Lit, from: Reason)
    requires s.TrailOk() && s.LimsOk() && s.LevelsOk() && s.lims == [] && Implied(s, l, from)
    ensures Entails(s.f, {l})
  {
    match from
    case NoReason =>
    case BinReason(q) =>
      LevelZeroEntailed(s, q);
      assert q.Not().Not() == q;
      DropRefuted(s.f, {l, q.Not()}, {l});
    case ClauseReason(h) =>
      var c := s.arena[h];
      forall m | m in LitSet(c) && m !in {l} ensures Entails(s.f, {m.Not()}) {
        var i :| 0 <= i < |c| && c[i] == m;
        LevelZeroEntailed(s, m.Not());
      }
      DropRefuted(s.f, LitSet(c), {l});
  }

  lemma EnqueueTrail(s: State, l: Lit, from: Reason)
    requires s.TrailOk() && s.LimsOk() && s.Unassigned(l)
    ensures Enqueued(s, l, from).TrailOk() && Enqueued(s, l, from).LimsOk()
    ensures l !in s.trail && l.Not() !in s.trail
  {
    var t := Enqueued(s, l, from);
    forall v | 0 <= v < t.n && t.assigns[v] != X ensures Lit(v, t.assigns[v] == Zero) in t.trail {
      if v == l.v {
        assert Lit(v, t.assigns[v] == Zero) == l;
        assert t.trail[|s.trail|] == l;
      } else {
        assert Lit(v, s.assigns[v] == Zero) in s.trail;
      }
    }
  }

  lemma EnqueueLevels(s: State, l: Lit, from: Reason)
    requires s.TrailOk() && s.LimsOk() && s.LevelsOk() && s.Unassigned(l) && Implied(s, l, from)
    ensures Enqueued(s, l, from).TrailOk() && Enqueued(s, l, from).LimsOk() && Enqueued(s, l, from).LevelsOk()
  {
    hide Entails;
    EnqueueTrail(s, l, from);
    var t := Enqueued(s, l, from);
    if s.lims == [] { ImpliedAtLevelZero(s, l, from); }
    forall k | 0 <= k < |t.trail| ensures t.LevelAt(k) {
      if k < |s.trail| {
        assert s.LevelAt(k);
        assert t.trail[k] == s.trail[k];
      }
    }
  }

  lemma EnqueueOldReason(s: State, l: Lit, from: Reason, k: nat)
    requires l.v < |s.assigns| == |s.levels| == |s.reasons|
    requires k < |s.trail| && s.trail[k].v < |s.levels| && s.ReasonAt(k)
    requires forall i :: 0 <= i < |s.trail| ==> s.trail[i].v != l.v
    ensures Enqueued(s, l, from).ReasonAt(k)
  {
    hide Entails;
    var t := Enqueued(s, l, from);
    assert t.trail[..k] == s.trail[..k];
    assert t.trail[k] == s.trail[k];
  }

  lemma EnqueueNewReason(s: State, l: Lit, from: Reason)
    requires l.v < |s.assigns| == |s.levels| == |s.reasons| == s.n
    requires Implied(s, l, from)
    requires forall i :: 0 <= i < |s.trail| ==> s.trail[i].v != l.v
    ensures Enqueued(s, l, from).ReasonAt(|s.trail|)
  {
    hide Entails;
    var t := Enqueued(s, l, from);
    assert t.trail[..|s.trail|] == s.trail;
    assert t.trail[|s.trail|] == l;
  }

  lemma EnqueueReasons(s: State, l: Lit, from: Reason)
    requires |s.assigns| == |s.levels| == |s.reasons| == s.n && l.v < s.n
    requires s.ReasonsOk() && Implied(s, l, from)
    requires forall i :: 0 <= i < |s.trail| ==> s.trail[i].v != l.v
    ensures Enqueued(s, l, from).ReasonsOk()
  {
    hide Entails;
    var t := Enqueued(s, l, from);
    forall k | 0 <= k < |t.trail| ensures t.trail[k].v < |t.levels| && t.ReasonAt(k) {
      if k < |s.trail| {
        EnqueueOldReason(s, l, from, k);
      } else {
        EnqueueNewReason(s, l, from);
      }
    }
    forall j | t.root <= j < |t.lims| ensures t.lims[j] < |t.trail| && t.reasons[t.trail[t.lims[j]].v].NoReason? {
      assert t.trail[t.lims[j]] == s.trail[s.lims[j]];
    }
  }

  lemma SameWatchesOk(s: State, t: State)
    requires t.n == s.n && t.f == s.f && t.arena == s.arena && t.wl == s.wl
    ensures s.WatchesOk() ==> t.WatchesOk()
  {
    hide State.EntryOk, State.Watched, State.Paired;
    SameEntries(s, t);
  }

  lemma SameEntries(s: State, t: State)
    requires t.n == s.n && t.f == s.f && t.arena == s.arena && t.wl == s.wl
    ensures forall l, w :: s.EntryOk(l, w) ==> t.EntryOk(l, w)
    ensures forall h :: h in s.arena && |s.arena[h]| >= 2 && s.Watched(h) ==> t.Watched(h)
    ensures forall h :: h in s.arena && |s.arena[h]| >= 2 && s.Paired(h) ==> t.Paired(h)
  {
    hide Entails;
  }

  lemma EnqueueClauses(s: State, l: Lit, from: Reason)
    requires l.v < |s.assigns| == |s.levels| == |s.reasons|
    ensures s.ArenaOk() ==> Enqueued(s, l, from).ArenaOk()
    ensures s.WatchesOk() ==> Enqueued(s, l, from).WatchesOk()
  {
    hide Entails, State.WatchesOk;
    var t := Enqueued(s, l, from);
    assert forall c :: s.ClauseOk(c) ==> t.ClauseOk(c);
    SameWatchesOk(s, t);
  }

  lemma EnqueueCovered(s: State, l: Lit, from: Reason)
    requires l.v < |s.assigns| == |s.levels| == |s.reasons| && s.LimsOk() && s.Covered()
    ensures Enqueued(s, l, from).Covered()
  {
    var t := Enqueued(s, l, from);
    forall c | c in t.f ensures t.CoveredClause(c) {
      assert s.CoveredClause(c);
      var e := if 0 < |s.lims| then s.lims[0] else |s.trail|;
      assert t.trail[..e] == s.trail[..e];
      var e' := if 0 < |t.lims| && t.lims[0] <= |t.trail| then t.lims[0] else |t.trail|;
      assert t.trail[..e] <= t.trail[..e'];
    }
  }

  lemma EnqueueInv(s: State, l: Lit, from: Reason)
    requires s.Inv() && s.Unassigned(l) && Implied(s, l, from)
    ensures Enqueued(s, l, from).Inv()
    ensures l !in s.trail && l.Not() !in s.trail
  {
    hide Entails, Implied, State.LevelsOk, State.ReasonsOk, State.ArenaOk, State.WatchesOk, State.Covered;
    EnqueueTrail(s, l, from);
    EnqueueLevels(s, l, from);
    EnqueueReasons(s, l, from);
    EnqueueClauses(s, l, from);
    EnqueueCovered(s, l, from);
  }
}
