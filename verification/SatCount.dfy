// What the number of conflicts counts: clauses stored, units recorded and the last refutation.
module SatCount {
  import opened Cnf
  import opened SatState
  import opened SatSteps
  import opened SatLevels
  import opened SatPropagation
  import opened SatClauses
  import opened SatUndo
  import opened SatTight

  // Either one more clause has been stored or one more literal recorded as a unit.
  ghost predicate OneLearnt(s: State, h: nat, t: State, h': nat) {
    || (h' == h + 1 && t.Units() == s.Units())
    || (h' == h && s.Units() <= t.Units() && |t.Units()| == |s.Units()| + 1)
  }

  lemma LearntCounts(s: State, h: nat, t: State, h': nat)
    requires OneLearnt(s, h, t, h')
    ensures h' + |t.Units()| == h + |s.Units()| + 1 && s.Units() <= t.Units() && h <= h'
  {
    hide State.Units;
  }

  lemma LearntFrom(s: State, t: State, h: nat, u: State, h': nat)
    requires t.Units() == s.Units() && OneLearnt(t, h, u, h')
    ensures OneLearnt(s, h, u, h')
  {
    hide State.Units;
  }

  // A recorded unit is on the trail below the end of the root level.
  lemma UnitBelow(s: State, l: Lit, level: nat)
    requires s.LimsOk() && s.LevelsOk() && l in s.Units() && s.root <= level < |s.lims|
    ensures s.lims[level] <= |s.trail| && l in s.trail[..s.lims[level]]
  {
    hide Entails;
    var k :| 0 <= k < |s.trail| && s.trail[k] == l;
    assert s.LevelAt(k) && s.lims[s.root] <= s.lims[level];
    assert s.trail[..s.lims[level]][k] == l;
  }

  // So it is kept by every cut above that level.
  lemma CutUnits(s: State, t: State, level: nat)
    requires s.TrailOk() && s.LimsOk() && s.LevelsOk() && CancelledTo(s, t, level) && s.root <= level
    ensures t.Units() == s.Units()
  {
    hide State.LevelsOk, State.LimsOk, State.TrailOk, CancelledTo;
    CutTrail(s, t, level);
    forall l: Lit ensures l in t.Units() <==> l in s.Units() {
      if l in s.Units() { UnitBelow(s, l, level); }
      if l in t.trail { KeptReason(s, t, level, l); }
    }
  }

  lemma CutTrail(s: State, t: State, level: nat)
    requires CancelledTo(s, t, level)
    ensures level < |s.lims| && s.lims[level] <= |s.trail| && t.trail == s.trail[..s.lims[level]]
    ensures t.levels == s.levels
  {
  }

  lemma KeptReason(s: State, t: State, level: nat, l: Lit)
    requires s.TrailOk() && CancelledTo(s, t, level) && l in t.trail
    ensures l in s.trail && l.v < |s.reasons| == |t.reasons| && t.reasons[l.v] == s.reasons[l.v]
  {
    var k :| 0 <= k < |t.trail| && t.trail[k] == l;
    assert s.trail[k] == l;
  }

  lemma OpenedUnits(s: State, l: Lit)
    requires s.TrailOk() && s.Unassigned(l) && l.v < |s.assigns| == |s.levels| == |s.reasons|
    ensures Opened(s, false, l).Units() == s.Units()
  {
    hide Entails;
    UnassignedElsewhere(s, l);
    forall m: Lit ensures m in Opened(s, false, l).Units() <==> m in s.Units() { }
  }

  lemma UnassignedElsewhere(s: State, l: Lit)
    requires s.TrailOk() && s.Unassigned(l)
    ensures forall m :: m in s.trail ==> m.v != l.v
  {
    forall m | m in s.trail ensures m.v != l.v { var k :| 0 <= k < |s.trail| && s.trail[k] == m; }
  }

  lemma RecordedCount(s: State, t: State, h: nat, c: seq<Lit>)
    requires s.TrailOk() && |c| >= 1 && s.Unassigned(c[0])
    requires if |c| > 1 then RecordedAs(s, t, h, c)
      else c[0].v < |s.assigns| == |s.levels| == |s.reasons| && t == UnitRecorded(s, c[0])
    ensures OneLearnt(s, h, t, if |c| > 1 then h + 1 else h)
  {
    hide Entails, State.Units, RecordedAs, UnitRecorded, State.TrailOk, State.Unassigned;
    if |c| > 1 { LongCount(s, t, h, c); } else { UnitCount(s, c[0]); }
  }

  lemma LongCount(s: State, t: State, h: nat, c: seq<Lit>)
    requires s.TrailOk() && |c| >= 1 && s.Unassigned(c[0]) && RecordedAs(s, t, h, c)
    ensures t.Units() == s.Units()
  {
    hide Entails;
    UnassignedElsewhere(s, c[0]);
    forall m: Lit ensures m in t.Units() <==> m in s.Units() { }
  }

  lemma UnitCount(s: State, l: Lit)
    requires s.TrailOk() && s.Unassigned(l) && l.v < |s.assigns| == |s.levels| == |s.reasons|
    ensures l !in s.Units() && UnitRecorded(s, l).Units() == s.Units() + {l}
  {
    hide Entails;
    UnassignedElsewhere(s, l);
    forall m: Lit ensures m in UnitRecorded(s, l).Units() <==> m in s.Units() + {l} { }
  }

  lemma RunUnits(s: State, t: State, level: nat)
    requires s.Inv() && CancelledTo(s, t, level) && s.root <= level
    ensures t.Units() == s.Units()
  {
    hide State.LevelsOk, State.LimsOk, State.TrailOk, State.ReasonsOk, State.ArenaOk, State.WatchesOk, State.Covered,
      CancelledTo, State.Units;
    CutUnits(s, t, level);
  }

  lemma DecidedUnits(s: State, l: Lit)
    requires s.Inv() && s.Unassigned(l) && l.v < |s.assigns| == |s.levels| == |s.reasons|
    ensures Opened(s, false, l).Units() == s.Units()
  {
    hide State.LevelsOk, State.LimsOk, State.TrailOk, State.ReasonsOk, State.ArenaOk, State.WatchesOk, State.Covered,
      State.Units, Opened;
    OpenedUnits(s, l);
  }

  lemma GrownUnits(s: State, t: State)
    requires Grown(s, t)
    ensures t.Units() == s.Units()
  {
  }

  lemma UnitsEntailed(s: State)
    requires s.Inv() || Refuted(s.f, {})
    ensures forall l :: l in s.Units() ==> Entails(s.f, {l})
  {
    forall l | l in s.Units() ensures Entails(s.f, {l}) { if s.Inv() { UnitEntailed(s, l); } }
  }

  lemma UnitEntailed(s: State, l: Lit)
    requires s.Inv() && l in s.Units()
    ensures Entails(s.f, {l})
  {
    hide Entails, State.TrailOk, State.LimsOk, State.ReasonsOk, State.ArenaOk, State.WatchesOk, State.Covered;
    var k :| 0 <= k < |s.trail| && s.trail[k] == l;
    assert s.LevelAt(k);
  }
}
