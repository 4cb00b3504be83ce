// Opening a level for a decision or an assumption, and learning a clause after a conflict.
module SatLevels {
  import opened Cnf
  import opened SatState
  import opened SatSteps
  import opened SatUndo
  import opened SatAnalysis
  import opened SatClauses

  // A new, still empty level; an assumption also raises the root level.
  function NewLevel(s: State, assumption: bool, l: Lit): State {
    if assumption then s.(lims := s.lims + [|s.trail|], root := s.root + 1, assumed := s.assumed + [l])
    else s.(lims := s.lims + [|s.trail|])
  }

  lemma NewLevelTrail(s: State, assumption: bool, l: Lit)
    requires s.TrailOk() && s.LimsOk() && s.LevelsOk() && (assumption ==> s.root == |s.lims|)
    ensures NewLevel(s, assumption, l).TrailOk() && NewLevel(s, assumption, l).LevelsOk()
    ensures assumption ==> NewLevel(s, assumption, l).LimsOk()
  {
    hide Entails;
    var t := NewLevel(s, assumption, l);
    forall k | 0 <= k < |t.trail| ensures t.trail[k].v < |t.levels| && t.LevelAt(k) { assert s.LevelAt(k); }
  }

  lemma NewLevelReasons(s: State, assumption: bool, l: Lit)
    requires s.LimsOk() && s.LevelsOk() && s.ReasonsOk() && (assumption ==> s.root == |s.lims|)
    ensures forall k :: 0 <= k < |s.trail| ==>
      s.trail[k].v < |s.levels| == |s.reasons| && NewLevel(s, assumption, l).ReasonAt(k)
    ensures assumption ==> NewLevel(s, assumption, l).ReasonsOk()
  {
    hide Entails, State.ReasonAt, State.LevelAt;
    var t := NewLevel(s, assumption, l);
    forall k | 0 <= k < |s.trail| ensures s.trail[k].v < |s.levels| && t.ReasonAt(k) {
      assert s.ReasonAt(k) && s.LevelAt(k);
      NewLevelReasonAt(s, assumption, l, k);
    }
  }

  lemma NewLevelReasonAt(s: State, assumption: bool, l: Lit, k: nat)
    requires k < |s.trail| && s.trail[k].v < |s.levels| == |s.reasons| && s.ReasonAt(k) && s.LevelAt(k)
    requires s.root <= |s.lims| && |s.assumed| == s.root && (assumption ==> s.root == |s.lims|)
    ensures NewLevel(s, assumption, l).ReasonAt(k)
  {
    hide Entails;
  }

  lemma NewLevelRest(s: State, assumption: bool, l: Lit)
    requires s.ArenaOk() && s.WatchesOk() && s.Covered() && s.LimsOk()
    ensures NewLevel(s, assumption, l).ArenaOk() && NewLevel(s, assumption, l).WatchesOk()
    ensures NewLevel(s, assumption, l).Covered()
  {
    hide State.ArenaOk, State.WatchesOk, State.Covered;
    var t := NewLevel(s, assumption, l);
    SameClausesOk(s, t);
    assert Fixed(t) == Fixed(s);
    SameCovered(s, t);
  }

  // Pushing an assumption that is already true, or already false, opens an empty level.
  lemma NewRootLevelInv(s: State, l: Lit)
    requires s.Inv() && s.root == |s.lims|
    ensures NewLevel(s, true, l).Inv()
  {
    hide State.TrailOk, State.LimsOk, State.LevelsOk, State.ReasonsOk, State.ArenaOk, State.WatchesOk, State.Covered;
    NewLevelTrail(s, true, l);
    NewLevelReasons(s, true, l);
    NewLevelRest(s, true, l);
  }

  function Opened(s: State, assumption: bool, l: Lit): State
    requires l.v < |s.assigns| == |s.levels| == |s.reasons|
  {
    Enqueued(NewLevel(s, assumption, l), l, NoReason)
  }

  lemma OpenedTrail(s: State, assumption: bool, l: Lit)
    requires s.TrailOk() && s.LimsOk() && s.LevelsOk() && s.Unassigned(l) && (assumption ==> s.root == |s.lims|)
    ensures Opened(s, assumption, l).TrailOk() && Opened(s, assumption, l).LimsOk()
  {
    EnqueueTrail(s, l, NoReason);
    assert Opened(s, assumption, l).trail == Enqueued(s, l, NoReason).trail;
    assert Opened(s, assumption, l).assigns == Enqueued(s, l, NoReason).assigns;
  }

  lemma OpenedLevels(s: State, assumption: bool, l: Lit)
    requires s.TrailOk() && s.LimsOk() && s.LevelsOk() && s.Unassigned(l) && (assumption ==> s.root == |s.lims|)
    ensures Opened(s, assumption, l).LevelsOk()
  {
    hide Entails;
    var t := Opened(s, assumption, l);
    forall k | 0 <= k < |t.trail| ensures t.trail[k].v < |t.levels| && t.LevelAt(k) {
      if k < |s.trail| {
        assert s.LevelAt(k);
        assert t.trail[k] == s.trail[k];
      }
    }
  }

  lemma OpenedReasons(s: State, assumption: bool, l: Lit)
    requires |s.assigns| == |s.levels| == |s.reasons| == s.n && l.v < s.n
    requires s.LimsOk() && s.LevelsOk() && s.ReasonsOk() && (assumption ==> s.root == |s.lims|)
    requires forall i :: 0 <= i < |s.trail| ==> s.trail[i].v != l.v
    ensures Opened(s, assumption, l).ReasonsOk()
  {
    hide Entails, State.ReasonAt, State.LevelAt;
    NewLevelReasons(s, assumption, l);
    var u := NewLevel(s, assumption, l);
    var t := Opened(s, assumption, l);
    forall k | 0 <= k < |t.trail| ensures t.trail[k].v < |t.levels| && t.ReasonAt(k) {
      if k < |s.trail| {
        assert s.trail[k].v < |s.levels| && u.ReasonAt(k);
        EnqueueOldReason(u, l, NoReason, k);
      } else {
        OpenedNewReason(s, assumption, l);
      }
    }
    forall j | t.root <= j < |t.lims| ensures t.lims[j] < |t.trail| && t.reasons[t.trail[t.lims[j]].v].NoReason? {
      if j < |s.lims| { assert t.trail[t.lims[j]] == s.trail[s.lims[j]]; }
    }
  }

  lemma OpenedNewReason(s: State, assumption: bool, l: Lit)
    requires |s.assigns| == |s.levels| == |s.reasons| == s.n && l.v < s.n && s.LimsOk()
    requires assumption ==> s.root == |s.lims|
    ensures Opened(s, assumption, l).ReasonAt(|s.trail|)
  {
    hide Entails;
    assert Opened(s, assumption, l).trail[|s.trail|] == l;
  }

  lemma OpenedRest(s: State, assumption: bool, l: Lit)
    requires s.ArenaOk() && s.WatchesOk() && s.Covered() && s.LimsOk() && l.v < |s.assigns| == |s.levels| == |s.reasons|
    ensures var t := Opened(s, assumption, l); t.ArenaOk() && t.WatchesOk() && t.Covered()
  {
    hide State.ArenaOk, State.WatchesOk, State.Covered;
    var t := Opened(s, assumption, l);
    SameClausesOk(s, t);
    assert Fixed(t) == Fixed(s);
    SameCovered(s, t);
  }

  // A decision or an assumption on an unassigned variable keeps the invariants.
  lemma OpenedInv(s: State, assumption: bool, l: Lit)
    requires s.Inv() && s.Unassigned(l) && (assumption ==> s.root == |s.lims|)
    ensures Opened(s, assumption, l).Inv()
  {
    hide State.LimsOk, State.LevelsOk, State.ReasonsOk, State.ArenaOk, State.WatchesOk, State.Covered;
    OpenedTrail(s, assumption, l);
    OpenedLevels(s, assumption, l);
    OpenedReasons(s, assumption, l);
    OpenedRest(s, assumption, l);
  }

  // ---- The learnt clause ----

  // The clause that conflict analysis returns.
  ghost predicate Learnt(s: State, c: seq<Lit>) {
    && s.lims != [] && |c| >= 1 && DistinctVars(c) && Entails(s.f, LitSet(c))
    && (exists k :: Top(s) <= k < |s.trail| && s.trail[k] == c[0].Not())
    && (forall i :: 1 <= i < |c| ==> FalseBelow(s, c[i]))
    && (forall i :: 2 <= i < |c| ==> s.levels[c[i].v] <= s.levels[c[1].v])
  }

  // The level to which the search returns.
  function BackLevel(s: State, c: seq<Lit>): nat {
    if |c| > 1 && c[1].v < |s.levels| && s.levels[c[1].v] > s.root then s.levels[c[1].v] else s.root
  }

  lemma BackLevelLower(s: State, c: seq<Lit>)
    requires s.Inv() && s.root < |s.lims| && Learnt(s, c)
    ensures s.root <= BackLevel(s, c) < |s.lims|
  {
    hide Entails, State.ReasonsOk, State.ArenaOk, State.WatchesOk, State.Covered;
    if |c| > 1 {
      var k :| 0 <= k < Top(s) && s.trail[..Top(s)][k] == c[1].Not();
      LevelOfPosition(s, k);
    }
  }

  lemma FirstUnassigned(s: State, t: State, c: seq<Lit>, b: nat)
    requires s.LimsOk() && s.lims != [] && b < |s.lims| && |c| >= 1 && CancelledTo(s, t, b)
    requires exists k :: Top(s) <= k < |s.trail| && s.trail[k] == c[0].Not()
    ensures t.Unassigned(c[0])
  {
    var k :| Top(s) <= k < |s.trail| && s.trail[k] == c[0].Not();
    assert s.lims[b] <= Top(s);
  }

  lemma StillFalse(s: State, t: State, l: Lit, b: nat)
    requires s.LimsOk() && s.LevelsOk() && s.root <= b < |s.lims| && FalseBelow(s, l) && s.levels[l.v] <= b
    requires CancelledTo(s, t, b)
    ensures l.Not() in t.trail
  {
    hide Entails;
    var j :| 0 <= j < Top(s) && s.trail[..Top(s)][j] == l.Not();
    PositionBelowCut(s, j, b);
    assert t.trail[j] == s.trail[j];
  }

  // After the cut the first literal is unassigned and all others are still false.
  lemma LearntAfterCut(s: State, t: State, c: seq<Lit>)
    requires s.Inv() && s.root < |s.lims| && Learnt(s, c)
    requires CancelledTo(s, t, BackLevel(s, c)) && t.Inv()
    ensures t.Unassigned(c[0]) && c[0].Not() !in t.trail
    ensures forall i :: 1 <= i < |c| ==> c[i].Not() in t.trail && c[i].v < s.n
  {
    hide Entails, State.LimsOk, State.LevelsOk, State.ReasonsOk, State.ArenaOk, State.WatchesOk, State.Covered,
      CancelledTo, Top;
    var b := BackLevel(s, c);
    BackLevelLower(s, c);
    FirstUnassigned(s, t, c, b);
    forall i | 1 <= i < |c| ensures c[i].Not() in t.trail && c[i].v < s.n {
      assert FalseBelow(s, c[i]);
      StillFalse(s, t, c[i], b);
    }
    NotOnTrail(t, c[0]);
  }

  lemma NotOnTrail(t: State, l: Lit)
    requires t.TrailOk() && t.Unassigned(l)
    ensures l !in t.trail && l.Not() !in t.trail
  {
  }

  lemma PositionBelowCut(s: State, j: nat, b: nat)
    requires s.LimsOk() && s.LevelsOk() && s.root <= b < |s.lims| && j < |s.trail| && s.trail[j].v < |s.levels|
    requires 0 < s.levels[s.trail[j].v] <= b
    ensures j < s.lims[b]
  {
    hide Entails;
    assert s.LevelAt(j);
  }

  // A unit learnt clause goes to the end of the root segment but is given level 0.
  function UnitRecorded(s: State, l: Lit): State
    requires l.v < |s.assigns| == |s.levels| == |s.reasons|
  {
    var t := Enqueued(s, l, NoReason);
    t.(levels := t.levels[l.v := 0])
  }

  lemma UnitReasonAt(s: State, l: Lit, k: nat)
    requires |s.assigns| == |s.levels| == |s.reasons| && l.v < |s.levels| && k < |s.trail|
    requires s.trail[k].v < |s.levels| && s.ReasonAt(k)
    requires forall i :: 0 <= i < |s.trail| ==> s.trail[i].v != l.v
    ensures UnitRecorded(s, l).ReasonAt(k)
  {
    hide Entails;
    var t := UnitRecorded(s, l);
    assert t.trail[..k] == s.trail[..k];
    assert t.trail[k] == s.trail[k];
  }

  lemma UnitRecordedInv(s: State, l: Lit)
    requires s.Inv() && s.root == |s.lims| && s.Unassigned(l) && Entails(s.f, {l})
    ensures UnitRecorded(s, l).Inv()
  {
    hide Entails, State.ReasonAt, State.ArenaOk, State.WatchesOk, State.Covered;
    var t := UnitRecorded(s, l);
    EnqueueTrail(s, l, NoReason);
    assert t.trail == Enqueued(s, l, NoReason).trail && t.assigns == Enqueued(s, l, NoReason).assigns;
    UnitLevels(s, l);
    NotOnTrail(s, l);
    assert forall i :: 0 <= i < |s.trail| ==> s.trail[i].v != l.v;
    UnitReasons(s, l);
    SameClausesOk(s, t);
    EnqueueCovered(s, l, NoReason);
    assert Fixed(t) == Fixed(Enqueued(s, l, NoReason));
    SameCovered(Enqueued(s, l, NoReason), t);
  }

  lemma UnitLevels(s: State, l: Lit)
    requires s.LimsOk() && s.LevelsOk() && s.root == |s.lims| && s.Unassigned(l) && Entails(s.f, {l})
    requires l.v < |s.assigns| == |s.levels| == |s.reasons|
    requires s.TrailOk()
    ensures UnitRecorded(s, l).LevelsOk()
  {
    hide Entails;
    var t := UnitRecorded(s, l);
    forall k | 0 <= k < |t.trail| ensures t.trail[k].v < |t.levels| && t.LevelAt(k) {
      if k < |s.trail| {
        assert s.LevelAt(k);
        assert t.trail[k] == s.trail[k];
      }
    }
  }

  lemma UnitReasons(s: State, l: Lit)
    requires |s.assigns| == |s.levels| == |s.reasons| && l.v < |s.levels|
    requires s.ReasonsOk() && s.LimsOk() && s.root == |s.lims|
    requires forall i :: 0 <= i < |s.trail| ==> s.trail[i].v != l.v
    ensures UnitRecorded(s, l).ReasonsOk()
  {
    hide Entails;
    var t := UnitRecorded(s, l);
    forall k | 0 <= k < |t.trail| ensures t.trail[k].v < |t.levels| && t.ReasonAt(k) {
      if k < |s.trail| {
        UnitReasonAt(s, l, k);
      } else {
        assert t.trail[k] == l;
      }
    }
  }

  // The clause before its second literal is chosen.
  ghost predicate Asserting(s: State, c: seq<Lit>) {
    && s.lims != [] && |c| >= 1 && DistinctVars(c) && Entails(s.f, LitSet(c))
    && (exists k :: Top(s) <= k < |s.trail| && s.trail[k] == c[0].Not())
    && (forall i :: 1 <= i < |c| ==> FalseBelow(s, c[i]))
  }

  // Exchanging literal 1 with one of the highest level among the false ones.
  lemma ChooseSecond(s: State, c: seq<Lit>, m: nat)
    requires Asserting(s, c) && |c| > 1 && 1 <= m < |c|
    requires forall i :: 1 <= i < |c| ==> c[i].v < |s.levels| && s.levels[c[i].v] <= s.levels[c[m].v]
    ensures Learnt(s, SatWatches.Swap(c, 1, m))
  {
    hide Entails, FalseBelow;
    var d := SatWatches.Swap(c, 1, m);
    assert d[0] == c[0];
    forall i | 1 <= i < |d| ensures FalseBelow(s, d[i]) {
      assert d[i] == c[if i == 1 then m else if i == m then 1 else i];
    }
  }

  lemma AssertingLevels(s: State, c: seq<Lit>)
    requires Asserting(s, c)
    ensures forall i :: 1 <= i < |c| ==> c[i].v < |s.levels|
    ensures |c| == 1 ==> Learnt(s, c)
  {
    hide Entails;
  }

  // ---- Recording the learnt clause ----

  lemma RecordClause(t: State, h: nat, c: seq<Lit>)
    requires t.Inv() && h !in t.arena && |c| >= 2 && DistinctVars(c) && Entails(t.f, LitSet(c)) && t.NoneFalse(t.trail)
    requires t.Unassigned(c[0]) && forall i :: 1 <= i < |c| ==> c[i].Not() in t.trail && c[i].v < t.n
    ensures WithClause(t, h, c, true).Inv() && WithClause(t, h, c, true).NoneFalse(t.trail)
    ensures Implied(WithClause(t, h, c, true), c[0], ClauseReason(h)) && WithClause(t, h, c, true).Unassigned(c[0])
  {
    hide Entails, State.LimsOk, State.LevelsOk, State.ReasonsOk, State.ArenaOk, State.WatchesOk, State.Covered,
      State.NoneFalse;
    NotOnTrail(t, c[0]);
    assert t.ClauseOk(c);
    NewClauseBase(t, h, c, true);
    NewClauseCovered(t, h, c, true);
    NewClauseNoneFalse(t, h, c, true, t.trail);
    assert WithClause(t, h, c, true).ClauseOk(c);
  }

  lemma UnassignedBounds(s: State, l: Lit)
    requires s.Inv() && s.Unassigned(l)
    ensures l.v < |s.assigns| == |s.levels| == |s.reasons|
  {
    hide Entails;
  }
}
