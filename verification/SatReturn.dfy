// Popping one of several assumptions need not leave a propagated trail. A run of the solver: under
// two assumptions a clause is learnt whose second literal is false at the first level, so that it
// is unit there, and nobody looks at it again when the second assumption is taken back.
module SatReturn {
  import opened Cnf
  import opened SatState
  import opened SatPropagation
  import opened SatUndo
  import opened SatAnalysis
  import opened SatClauses
  import opened SatLevels
  import opened SatCalls
  import opened SatInput
  import opened SatGrow
  import opened SatAdd
  import opened SatTight
  import opened SatExamples
  import opened SatSolver

  // Every combination of the variables 0 and 1 is excluded under variable 2.
  function Clauses(): set<Clause> {
    {Three(false, false, true), Three(false, true, true), Three(true, false, true), Three(true, true, true)}
  }

  // Without the assumption the clauses say nothing: any values of the variables 0 and 1 will do.
  lemma AnyModel(f: set<Clause>, a: Assignment)
    requires f <= Clauses() && !a(2)
    ensures Models(a, f)
  {
    forall c | c in f ensures SomeHolds(a, LitSet(c)) {
      assert c[2] == Neg(2);
      assert Neg(2) in LitSet(c) && Holds(a, Neg(2));
    }
  }

  lemma NotRefuted(f: set<Clause>)
    requires f <= Clauses()
    ensures !Refuted(f, LitSet([]))
  {
    hide Clauses, Models;
    AnyModel(f, (v: nat) => false);
  }

  // ---- The clauses ----

  // What matters of the state while clauses are added: nothing is in the list of the assumption.
  ghost predicate Loaded(s: State, f: set<Clause>) {
    && s.n == 3 && s.assigns == [X, X, X] && |s.levels| == |s.reasons| == 3
    && s.trail == [] && s.lims == [] && s.root == 0 && s.assumed == []
    && s.f == f && (forall c :: c in f ==> c in s.arena.Values) && Pos(2) in s.wl && s.wl[Pos(2)] == []
  }

  lemma BareLoaded()
    ensures Loaded(Bare(), {})
  {
  }

  lemma ThreeAdded(s: State, t: State, f: set<Clause>, x: bool, y: bool, c: seq<Lit>, h: nat)
    requires Loaded(s, f) && h !in s.arena
    requires Added(s.(f := f + {Three(x, y, true)}), t, Three(x, y, true), c, h)
    ensures Loaded(t, f + {Three(x, y, true)})
  {
    hide Loaded, Listed;
    var d := Three(x, y, true);
    LoadedFields(s, f);
    if SatisfiedOrTautology(s.assigns, d) {
      assert forall l :: l in d ==> l.Not() !in d;
      assert false;
    }
    hide SatisfiedOrTautology;
    OnlyThree(c, x, y, true);
    ThreeStored(s, t, f, x, y, h);
  }

  lemma LoadedFields(s: State, f: set<Clause>)
    requires Loaded(s, f)
    ensures s.assigns == [X, X, X]
  {
  }

  lemma ThreeStored(s: State, t: State, f: set<Clause>, x: bool, y: bool, h: nat)
    requires Loaded(s, f) && h !in s.arena
    requires t == WithClause(s.(f := f + {Three(x, y, true)}), h, Three(x, y, true), false)
    ensures Loaded(t, f + {Three(x, y, true)})
  {
    var d := Three(x, y, true);
    assert t.arena == s.arena[h := d] && d[0].v == 0 && d[1].v == 1;
    forall e | e in t.f ensures e in t.arena.Values {
      if e == d {
        assert h in t.arena && t.arena[h] == e;
      } else {
        var g :| g in s.arena && s.arena[g] == e;
        assert g in t.arena && t.arena[g] == e;
      }
    }
  }

  method Add(s: Solver, x: bool, y: bool)
    requires s.Ready() && s.Saturated() && s.qhead == 0 && Loaded(s.St(), s.f) && s.f <= Clauses()
    modifies s
    ensures s.Ready() && s.Saturated() && s.qhead == 0 && Loaded(s.St(), s.f) && s.f == old(s.f) + {Three(x, y, true)}
  {
    hide Solver.Ready, Solver.Saturated, Added, Refuted, KeptAs;
    ghost var s0 := s.St();
    NextHandle(s);
    var ok := s.AddClause(Three(x, y, true));
    NotRefuted(s.f);
    ghost var c :| s.Outcome(WithVars(s0, 3), Three(x, y, true), c, old(s.nextHandle));
    ThreeAdded(s0, s.St(), s0.f, x, y, c, old(s.nextHandle));
  }

  lemma NextHandle(s: Solver)
    requires s.Ready()
    ensures s.nextHandle !in s.arena
  {
    hide State.Inv, State.NoneFalse, State.AssumedOk, Absent;
  }

  // The four clauses.
  method Load(s: Solver)
    requires s.Ready() && s.Saturated() && s.qhead == 0
    requires s.St() == State(0, {}, [], [], [], [], [], 0, [], map[], {}, map[])
    modifies s
    ensures s.Ready() && s.Saturated() && s.qhead == 0 && Loaded(s.St(), Clauses())
  {
    hide Solver.Ready, Solver.Saturated, Loaded, Three;
    BareVars(s.St());
    BareLoaded();
    s.SetNVars(3);
    Add(s, false, false);
    Add(s, false, true);
    Add(s, true, false);
    Add(s, true, true);
    assert s.f == Clauses();
  }

  // ---- Two assumptions ----

  // The second push finds its literal true and opens an empty level.
  ghost predicate Assumed(s: State) {
    && s.n == 3 && s.assigns == [X, X, One] && |s.levels| == |s.reasons| == 3
    && s.trail == [Pos(2)] && s.lims == [0, 1] && s.root == 2 && s.assumed == [Pos(2), Pos(2)]
    && s.f == Clauses() && Holding(s)
  }

  // The clauses are stored, in any order of their literals.
  ghost predicate Holding(s: State) {
    forall x, y :: Stored(s, x, y)
  }

  ghost predicate Stored(s: State, x: bool, y: bool) {
    exists h :: h in s.arena && LitSet(s.arena[h]) == LitSet(Three(x, y, true))
  }

  lemma LoadedHolding(s: State)
    requires Loaded(s, Clauses())
    ensures Holding(s)
  {
    forall x, y ensures Stored(s, x, y) {
      assert Three(x, y, true) in Clauses();
      var h :| h in s.arena && s.arena[h] == Three(x, y, true);
    }
  }

  lemma GrownHolding(s: State, t: State)
    requires Grown(s, t) && Holding(s)
    ensures Holding(t)
  {
    forall x, y ensures Stored(t, x, y) {
      assert Stored(s, x, y);
      var h :| h in s.arena && LitSet(s.arena[h]) == LitSet(Three(x, y, true));
      assert LitSet(t.arena[h]) == LitSet(s.arena[h]);
    }
  }

  lemma PushedOnce(s: State, t: State)
    requires Loaded(s, Clauses()) && t == Pushed(s, Pos(2))
    ensures t.trail == [Pos(2)] && t.lims == [0] && Pos(2) in t.wl && t.wl[Pos(2)] == []
    ensures |t.assigns| == |t.levels| == |t.reasons| == 3 && t.assigns[2] == One
    ensures Assumed(Pushed(t, Pos(2)))
  {
    LoadedHolding(s);
    hide Clauses;
    var u := Pushed(t, Pos(2));
    assert t.trail == [Pos(2)] && !t.Unassigned(Pos(2));
    assert u.assigns == [X, X, One] && u.trail == [Pos(2)] && u.lims == [0, 1];
    forall x, y ensures Stored(u, x, y) {
      assert Stored(s, x, y);
    }
  }

  method PushTwice(s: Solver)
    requires s.Ready() && s.Saturated() && s.qhead == 0 && Loaded(s.St(), Clauses())
    modifies s
    ensures s.Ready() && s.Saturated() && s.qhead == |s.trail| && Assumed(s.St())
  {
    hide Solver.Ready, Solver.Saturated, Solver.CutsKept, Solver.Rejected, Refuted, FinalClause, Clauses, Pushed,
      Holding;
    PushedOnce(s.St(), Pushed(s.St(), Pos(2)));
    var ok := s.Push(Pos(2));
    QueueEmpty(s);
    ok := s.Push(Pos(2));
    QueueEmpty(s);
  }

  lemma QueueEmpty(s: Solver)
    requires s.Ready()
    ensures s.lims != [] ==> s.qhead == |s.trail|
    ensures s.Core()
  {
    hide State.Inv, State.NoneFalse, State.AssumedOk, Absent;
  }

  // ---- The conflict ----

  // A literal of variable 0 or 1 is true on top of the assumption.
  ghost predicate Crowded(s: State) {
    && Holding(s) && Pos(2) in s.trail && exists l :: l in s.trail && l.v < 2
  }

  lemma ThreeLong(c: seq<Lit>, x: bool, y: bool)
    requires LitSet(c) == LitSet(Three(x, y, true))
    ensures |c| >= 3 && (forall m :: m in c <==> m == Lit(0, x) || m == Lit(1, y) || m == Neg(2))
  {
    var d := Three(x, y, true);
    assert d[0] in LitSet(c) && d[1] in LitSet(c) && d[2] in LitSet(c);
    var i :| 0 <= i < |c| && c[i] == d[0];
    var j :| 0 <= j < |c| && c[j] == d[1];
    var k :| 0 <= k < |c| && c[k] == d[2];
    assert i != j && j != k && i != k;
    forall m ensures m in c <==> m == Lit(0, x) || m == Lit(1, y) || m == Neg(2) {
      assert m in c <==> m in LitSet(c);
      assert m in LitSet(d) <==> m in d;
    }
  }

  // With two literals false the third has to be true.
  lemma ThirdForced(s: State, x: bool, y: bool, l: Lit)
    requires Propagated(s) && Stored(s, x, y) && Pos(2) in s.trail
    requires (l == Lit(0, x) && Lit(1, !y) in s.trail) || (l == Lit(1, y) && Lit(0, !x) in s.trail)
    ensures l in s.trail
  {
    var h :| h in s.arena && LitSet(s.arena[h]) == LitSet(Three(x, y, true));
    ThreeLong(s.arena[h], x, y);
    assert AllButOneFalse(s, s.arena[h], l);
  }

  // Both values of the other variable are then forced.
  lemma NeverPropagated(s: State)
    requires s.Inv() && Crowded(s)
    ensures !Propagated(s)
  {
    hide State.Inv, Propagated, Stored;
    OneValue(s);
    if Propagated(s) {
      var l :| l in s.trail && l.v < 2;
      if l.v == 0 {
        ThirdForced(s, !l.neg, false, Pos(1));
        ThirdForced(s, !l.neg, true, Neg(1));
      } else {
        ThirdForced(s, false, !l.neg, Pos(0));
        ThirdForced(s, true, !l.neg, Neg(0));
      }
    }
  }

  lemma OneValue(s: State)
    requires s.Inv()
    ensures forall v: nat :: !(Pos(v) in s.trail && Neg(v) in s.trail)
  {
    hide Entails, State.LimsOk, State.LevelsOk, State.ReasonsOk, State.ArenaOk, State.WatchesOk, State.Covered;
  }

  lemma GrownCrowded(s: State, t: State)
    requires Grown(s, t) && Crowded(s)
    ensures Crowded(t)
  {
    hide Holding, Grown;
    GrownHolding(s, t);
    GrownTrail(s, t);
  }

  // Propagation cannot end without a conflict.
  method MustClash(s: Solver) returns (confl: Conflict)
    requires s.Running() && s.Saturated() && Crowded(s.St())
    modifies s
    ensures s.Clashing(confl) && confl != NoConflict && s.CutsKept() && s.lims == old(s.lims)
    ensures Grown(old(s.St()), s.St()) && KeptOverdue(old(s.St()), s.St(), old(s.qhead)) && s.St().Inv()
  {
    hide Solver.Running, Solver.Clashing, Solver.Quiescent, Solver.CutsKept, Solver.Saturated, Grown, KeptOverdue,
      Crowded, State.Inv;
    ghost var t := s.St();
    confl := s.PropagateRunning();
    GrownCrowded(t, s.St());
    if confl == NoConflict {
      QuietPropagated(s);
      NeverPropagated(s.St());
      assert false;
    }
    ClashInv(s, confl);
  }

  lemma QuietPropagated(s: Solver)
    requires s.Quiescent() && s.Saturated()
    ensures s.St().Inv() && Propagated(s.St())
  {
    hide State.Inv, State.NoneFalse, State.AssumedOk, Absent, Propagated, CutsClosed, State.Settled;
    assert s.trail[..s.qhead] == s.trail;
    SettledClosed(s.St(), s.qhead);
  }

  lemma ClashInv(s: Solver, confl: Conflict)
    requires s.Clashing(confl)
    ensures s.St().Inv()
  {
    hide State.Inv, State.NoneFalse, State.AssumedOk, Absent, Conflicting;
  }

  // ---- The learnt clause ----

  // The conflict comes after one decision on top of the assumptions.
  ghost predicate Deciding(s: State) {
    && s.lims == [0, 1, 1] && s.root == 2 && s.assumed == [Pos(2), Pos(2)] && s.f == Clauses()
    && [Pos(2)] <= s.trail && Holding(s)
  }

  lemma GrownDeciding(s: State, t: State)
    requires Grown(s, t) && Deciding(s)
    ensures Deciding(t) && t.n == s.n
  {
    hide Holding;
    GrownHolding(s, t);
  }

  // What follows from the clauses needs the assumption.
  lemma NotEntailed(l: Lit)
    requires l.v < 2
    ensures !Entails(Clauses(), {l})
  {
    hide Clauses;
    var a := (v: nat) => v == l.v && l.neg;
    AnyModel(Clauses(), a);
    assert !SomeHolds(a, {l});
  }

  // The learnt clause has the first assumption as its second literal.
  lemma LearntPair(s: State, c: seq<Lit>)
    requires s.Inv() && Deciding(s) && Learnt(s, c) && s.n == 3
    ensures |c| == 2 && c[0].v < 2 && c[1] == Neg(2)
  {
    hide Entails, State.LimsOk, State.LevelsOk, State.ReasonsOk, State.ArenaOk, State.WatchesOk, State.Covered,
      Clauses, Holding;
    assert s.trail[..1] == [Pos(2)];
    var k :| 1 <= k < |s.trail| && s.trail[k] == c[0].Not();
    assert s.trail[0] == Pos(2) && s.trail[0].v != s.trail[k].v;
    forall i | 1 <= i < |c| ensures c[i] == Neg(2) {
      assert FalseBelow(s, c[i]);
      assert c[i].Not() == Pos(2);
    }
    assert |c| > 2 ==> c[1].v == c[2].v;
    if |c| == 1 {
      assert LitSet(c) == {c[0]} by { assert c == [c[0]]; }
      NotEntailed(c[0]);
    }
  }

  // After recording it is overdue at the end of the first level.
  lemma PairOverdue(s: State, t: State, h: nat, c: seq<Lit>)
    requires RecordedAs(s, t, h, c) && c[1] == Neg(2) && s.trail == [Pos(2)]
    ensures t.Overdue(1)
  {
    hide Listed;
    assert t.trail[1] == c[0] && t.trail[..1] == [Pos(2)];
    assert c[1].Not() == Pos(2);
    assert t.ForcedBefore(1, 1);
  }

  // ---- The search under both assumptions ----

  // Variables 0 and 1 are in the heap, so that one of them is chosen.
  lemma FreeVariable(s: Solver, next: int)
    requires s.Chosen(next) && Assumed(s.St()) && (next == -1 ==> s.Quiescent())
    ensures next == 0 || next == 1
  {
    hide State.Inv, State.NoneFalse, State.AssumedOk, Clauses, Holding;
    if next == -1 { InHeap(s); }
  }

  lemma InHeap(s: Solver)
    requires s.Quiescent() && s.trail == [Pos(2)]
    ensures |s.orderpos| > 0 ==> s.orderpos[0] != -1
  {
    hide State.Inv, State.NoneFalse, State.AssumedOk;
    assert s.trail[..s.qhead] == s.trail;
  }

  lemma DecidedCrowded(s: State, t: State, l: Lit)
    requires Assumed(s) && l.v < 2 && t == Opened(s, false, l)
    ensures Crowded(t) && Deciding(t) && t.n == 3
  {
    hide Clauses, Stored;
    assert t.trail == [Pos(2), l];
    forall x, y ensures Stored(t, x, y) { StoredIn(s, t, x, y); }
  }

  lemma StoredIn(s: State, t: State, x: bool, y: bool)
    requires Holding(s) && forall h :: h in s.arena ==> h in t.arena && t.arena[h] == s.arena[h]
    ensures Stored(t, x, y)
  {
    assert Stored(s, x, y);
    var h :| h in s.arena && LitSet(s.arena[h]) == LitSet(Three(x, y, true));
    assert t.arena[h] == s.arena[h];
  }

  // The search up to its first conflict: nothing is left to propagate, variable 0 or 1 is
  // decided, and propagation cannot end without a conflict.
  method DecideAndClash(s: Solver) returns (confl: Conflict)
    requires s.Ready() && s.Saturated() && s.qhead == |s.trail| && Assumed(s.St())
    modifies s
    ensures s.Clashing(confl) && confl != NoConflict && s.CutsKept() && Deciding(s.St()) && s.n == 3 && s.St().Inv()
  {
    hide Solver.Ready, Solver.Running, Solver.Clashing, Solver.Quiescent, Solver.CutsKept, Solver.Saturated, Grown,
      KeptOverdue, Clauses, Holding, Crowded, State.Inv, Solver.Chosen, State.NoneFalse, State.AssumedOk, Opened;
    s.ReadyRuns();
    confl := s.PropagateRunning();
    var next := s.SelectNext();
    FreeVariable(s, next);
    ghost var t := s.St();
    s.DecideNext(next, |s.trail|);
    DecidedCrowded(t, s.St(), if s.polarity[next] then Lit(next, false) else Lit(next, true));
    ghost var u := s.St();
    confl := MustClash(s);
    GrownDeciding(u, s.St());
  }

  lemma OneLeft(s: State)
    requires s.AssumedOk(2) && s.assumed == [Pos(2), Pos(2)] && |s.trail| == 1
    ensures s.trail == [Pos(2)]
  {
    assert s.assumed[0] in s.trail;
  }

  lemma RecordedCrowded(s: State, t: State, h: nat, c: seq<Lit>)
    requires RecordedAs(s, t, h, c) && Holding(s) && s.trail == [Pos(2)] && c[0].v < 2
    ensures Crowded(t)
  {
    hide Listed, Stored;
    assert t.trail == [Pos(2), c[0]];
    forall x, y ensures Stored(t, x, y) { StoredIn(s, t, x, y); }
  }

  lemma SameHolding(s: State, t: State)
    requires Holding(s) && t.arena == s.arena
    ensures Holding(t)
  {
    hide Stored;
    forall x, y ensures Stored(t, x, y) { StoredIn(s, t, x, y); }
  }

  // The pair is learnt and its first literal becomes true at the root level.
  method LearnPair(s: Solver, confl: Conflict)
    requires s.Clashing(confl) && s.CutsKept() && Deciding(s.St()) && s.n == 3 && s.St().Inv()
    modifies s
    ensures s.Running() && s.Saturated() && Crowded(s.St()) && s.St().Overdue(1) && s.qhead == 1
    ensures s.lims == [0, 1] && s.root == 2 && s.assumed == [Pos(2), Pos(2)] && s.f == Clauses()
  {
    hide State.Inv, State.NoneFalse, State.AssumedOk, Absent, Conflicting, Clauses, Holding, Crowded, Learnt,
      Solver.Running, Solver.Saturated, Solver.CutsKept, Entails, DistinctVars, State.Overdue, Solver.Recordable;
    var learnt := s.AnalyzeConflict(confl);
    LearntPair(s.St(), learnt);
    ghost var u := s.St();
    ghost var level, deep := s.LearnBack(learnt);
    SameHolding(u, s.St());
    RecordPair(s, learnt);
  }

  method RecordPair(s: Solver, c: seq<Lit>)
    requires s.Recordable(c) && s.Saturated() && |c| == 2 && c[0].v < 2 && c[1] == Neg(2) && Holding(s.St())
    requires s.lims == [0, 1] && s.root == 2 && s.assumed == [Pos(2), Pos(2)] && |s.trail| == 1 && s.f == Clauses()
    modifies s
    ensures s.Running() && s.Saturated() && Crowded(s.St()) && s.St().Overdue(1) && s.qhead == 1
    ensures s.lims == [0, 1] && s.root == 2 && s.assumed == [Pos(2), Pos(2)] && s.f == Clauses()
  {
    hide State.Inv, State.NoneFalse, State.AssumedOk, Absent, Clauses, Holding, Crowded, Solver.Running,
      Solver.Saturated, Entails, DistinctVars, CutApart, State.Overdue, RecordedAs;
    OneLeft(s.St());
    ghost var t, h := s.St(), s.nextHandle;
    s.Record(c);
    PairOverdue(t, s.St(), h, c);
    RecordedCrowded(t, s.St(), h, c);
    RecordedFields(t, s.St(), h, c);
    RecordedRoot(t, s.St(), h, c);
    s.ActVarDecay();
  }

  lemma RecordedRoot(s: State, t: State, h: nat, c: seq<Lit>)
    requires RecordedAs(s, t, h, c)
    ensures t.assumed == s.assumed && t.root == s.root && t.f == s.f
  {
    hide Listed;
  }

  // At the root level the next conflict ends the search.
  method LearnAndFail(s: Solver, confl: Conflict)
    requires s.Clashing(confl) && s.CutsKept() && Deciding(s.St()) && s.n == 3 && s.St().Inv()
    modifies s
    ensures s.Withdrawable() && s.CutsKept() && s.lims == [0, 1] && s.root == 2 && s.assumed == [Pos(2), Pos(2)]
    ensures s.St().Overdue(1) && s.f == Clauses()
  {
    hide Solver.Running, Solver.Clashing, Solver.Withdrawable, Solver.Saturated, Solver.CutsKept, Clauses, Holding,
      Crowded, State.Inv, State.Overdue, Grown, KeptOverdue, Refuted, FinalClause;
    LearnPair(s, confl);
    ghost var t := s.St();
    var again := MustClash(s);
    StillOverdue(t, s.St());
    s.ConflictAtRoot(again);
  }

  lemma StillOverdue(s: State, t: State)
    requires Grown(s, t) && KeptOverdue(s, t, 1) && s.Overdue(1)
    ensures t.Overdue(1) && t.lims == s.lims && t.root == s.root && t.assumed == s.assumed && t.f == s.f
  {
  }

  // ---- The pop ----

  // sat_solver_pop for the second assumption.
  method PopSecond(s: Solver)
    requires s.Withdrawable() && s.CutsKept() && s.lims == [0, 1] && s.root == 2 && s.assumed == [Pos(2), Pos(2)]
    requires s.St().Overdue(1)
    modifies s
    ensures s.Ready() && s.assumed == [Pos(2)] && s.qhead == |s.trail| && s.f == old(s.f)
    ensures !s.St().Closed(|s.trail|) && !s.Saturated()
  {
    hide Solver.Ready, Solver.Poppable, Solver.Withdrawable, Solver.Saturated, Solver.CutsKept, State.Overdue,
      State.Closed, State.Inv, CancelledTo, Unset;
    s.WithdrawablePops();
    ghost var t := s.St();
    s.Pop();
    NotClosed(t, s.St());
  }

  lemma NotClosed(s: State, t: State)
    requires CancelledTo(s, t, 1) && !s.Closed(s.lims[1])
    ensures !t.Closed(|t.trail|)
  {
    hide State.Settled, Unset;
    assert t.trail[..|t.trail|] == s.trail[..s.lims[1]];
    if t.Settled(t.trail, t.trail) { SameWatchesSettled(t, s, t.trail, t.trail); }
  }

  // Both assumptions are pushed, the search refutes them, and the second one is popped: the solver
  // is ready under the first one, yet its trail is not closed under propagation.
  method PoppedOpen() returns (s: Solver)
    ensures fresh(s) && s.Ready() && s.assumed == [Pos(2)] && s.qhead == |s.trail| && s.f == Clauses()
    ensures !s.St().Closed(|s.trail|) && !s.Saturated()
  {
    hide Solver.Ready, Solver.Clashing, Solver.Withdrawable, Solver.Saturated, Solver.CutsKept, Clauses, Loaded,
      State.Inv, State.Overdue, State.Closed;
    s := new Solver();
    Load(s);
    PushTwice(s);
    var confl := DecideAndClash(s);
    LearnAndFail(s, confl);
    PopSecond(s);
  }
}
