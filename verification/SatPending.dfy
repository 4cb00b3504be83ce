// Using the solver again after a failed assumption while level-0 units still wait in the
// queue: the cut counts them as propagated, so that a clause can stay false without anyone
// looking at it again. A run of the solver shows what comes of it.
module SatPending {
  import opened Cnf
  import opened SatState
  import opened SatSteps
  import opened SatUndo
  import opened SatLevels
  import opened SatClauses
  import opened SatVerdict
  import opened SatCalls
  import opened SatInput
  import opened SatGrow
  import opened SatAdd
  import opened SatHeap
  import opened SatPropagation
  import opened SatExamples
  import opened SatSolver

  // ~a or ~b or c, a, b for the variables 0, 1 and 2.
  function Long(): Clause { Three(true, true, false) }

  function Clauses(): set<Clause> {
    {Long(), [Pos(0)], [Pos(1)]}
  }

  lemma HasModel()
    ensures IsModel(Clauses(), [], [true, true, true])
  {
    var a := AssignmentOf([true, true, true]);
    assert Pos(2) in LitSet(Long()) && Pos(0) in LitSet([Pos(0)]) && Pos(1) in LitSet([Pos(1)]);
    assert Holds(a, Pos(0)) && Holds(a, Pos(1)) && Holds(a, Pos(2));
  }

  lemma NotModel()
    ensures !Models(AssignmentOf([true, true, false]), Clauses())
  {
    assert Long() in Clauses() && !SomeHolds(AssignmentOf([true, true, false]), LitSet(Long()));
  }

  // ---- Adding the clauses ----

  // The long clause under handle 0, then the units.
  function Stored(): State {
    Bare().(f := {Long()}, arena := map[0 := Long()], wl := Lists([ClauseWatch(0)]))
  }

  // Both units are on the trail and nothing has been propagated.
  function Loaded(): State {
    Stored().(f := Clauses(), assigns := [One, One, X], trail := [Pos(0), Pos(1)])
  }

  lemma LongListed()
    ensures Listed(Lists([]), 0, Long()) == Lists([ClauseWatch(0)])
  {
    var wl, w := Lists([]), ClauseWatch(0);
    assert [] + [w] == [w];
    assert AddTo(wl, Pos(0), w) == wl[Pos(0) := [w]];
    assert Neg(0).Not() == Pos(0) && Neg(1).Not() == Pos(1);
    assert Listed(wl, 0, Long()) == wl[Pos(0) := [w]][Pos(1) := [w]];
  }

  lemma LongAdded(s: State, t: State, c: seq<Lit>)
    requires s == Bare().(f := {Long()}) && Added(s, t, Long(), c, 0)
    ensures t == Stored()
  {
    hide Listed, Lists, DistinctVars, SortedCodes;
    if SatisfiedOrTautology(s.assigns, Long()) {
      assert forall l :: l in Long() ==> l.Not() !in Long();
      assert false;
    }
    OnlyThree(c, true, true, false);
    LongListed();
  }

  lemma UnitAdded(s: State, t: State, l: Lit, c: seq<Lit>, h: nat)
    requires l.v < |s.assigns| == |s.levels| == |s.reasons| && s.assigns[l.v] == X && Added(s, t, [l], c, h)
    ensures t == Enqueued(s, l, NoReason)
  {
    if SatisfiedOrTautology(s.assigns, [l]) { assert false; }
    assert l in [l] && l in c;
    assert forall i :: 0 <= i < |c| ==> c[i] == l;
    assert c == [l];
  }

  method Load(s: Solver)
    requires s.St() == State(0, {}, [], [], [], [], [], 0, [], map[], {}, map[]) && s.nextHandle == 0 && s.Ready()
    requires s.polarity == []
    modifies s
    ensures s.Ready() && s.St() == Loaded() && s.PolarityKept([])
  {
    hide Solver.Ready, Added, Clauses, Long, Widened, Refuted;
    ghost var s0 := s.St();
    BareVars(s0);
    s.SetNVars(3);
    AddLongClause(s);
    AddUnits(s);
  }

  method AddLongClause(s: Solver)
    requires s.St() == Bare() && s.nextHandle == 0 && s.Ready() && s.PolarityKept([])
    modifies s
    ensures s.Ready() && s.St() == Stored() && s.PolarityKept([])
  {
    hide Solver.Ready, Added, Refuted, KeptAs;
    var ok := s.AddClause(Long());
    NotRefuted(s.f);
    ghost var c :| s.Outcome(WithVars(Bare(), 3), Long(), c, 0);
    LongAdded(Given(WithVars(Bare(), 3), Long()), s.St(), c);
  }

  lemma NotRefuted(f: set<Clause>)
    requires f <= Clauses()
    ensures !Refuted(f, LitSet([]))
  {
    hide Clauses;
    HasModel();
    assert Models(AssignmentOf([true, true, true]), f);
  }

  method AddUnits(s: Solver)
    requires s.Ready() && s.St() == Stored() && s.PolarityKept([])
    modifies s
    ensures s.Ready() && s.St() == Loaded() && s.PolarityKept([])
  {
    hide Solver.Ready, Added, Long, Refuted;
    AddUnit(s, 0);
    AddUnit(s, 1);
    assert s.f == Clauses();
    assert s.St() == Loaded();
  }

  method AddUnit(s: Solver, v: nat)
    requires s.Ready() && s.PolarityKept([]) && s.n == 3 && v < 3 && s.lims == []
    requires |s.assigns| == |s.levels| == |s.reasons| == 3 && s.assigns[v] == X && s.f <= Clauses()
    requires [Pos(v)] in Clauses()
    modifies s
    ensures s.Ready() && s.PolarityKept([])
    ensures s.St() == Enqueued(old(s.St()).(f := old(s.f) + {[Pos(v)]}), Pos(v), NoReason)
  {
    hide Solver.Ready, Added, Clauses, Refuted, KeptAs;
    ghost var s0, h := s.St(), s.nextHandle;
    s.ReadyAssumed();
    var ok := s.AddClause([Pos(v)]);
    NotRefuted(s.f);
    assert s0.assumed == [];
    ghost var c :| s.Outcome(WithVars(s0, s.n), [Pos(v)], c, h);
    UnitAdded(s0.(f := s.f), s.St(), Pos(v), c, h);
  }

  // ---- A failed assumption ----

  lemma FalseClause()
    ensures !Loaded().NoneFalse(Loaded().trail)
  {
    var s := Loaded();
    assert s.trail[0] == Pos(0) && s.trail[1] == Pos(1);
    assert BothFalse(s.arena[0], s.trail);
  }

  lemma NothingCut(t: State)
    requires CancelledTo(NewLevel(Loaded(), true, Neg(0)), t, 0) && t.root == 0 && t.assumed == []
    ensures t == Loaded()
  {
    var s := NewLevel(Loaded(), true, Neg(0));
    assert t.assigns == s.assigns && t.reasons == s.reasons && t.trail == s.trail;
  }

  // Push ~0 and pop it: the state is the one before, but the units count as propagated.
  method PushAndPop(s: Solver)
    requires s.Ready() && s.St() == Loaded() && s.PolarityKept([])
    modifies s
    ensures s.St() == Loaded() && s.Core() && s.qhead == |s.trail| && s.PolarityKept([]) && !s.Ready()
  {
    hide Clauses, State.Inv, State.NoneFalse, State.SafeCut, Absent, HeapOk, State.AssumedOk, FailedPush, Refuted,
      FinalClause, CancelledTo;
    assert Neg(0).Not() == s.trail[0];
    var ok := s.Push(Neg(0));
    assert s.St() == NewLevel(Loaded(), true, Neg(0));
    ghost var polarity := s.polarity;
    NewLevelSafe(Loaded(), Neg(0));
    FalseClause();
    s.Pop();
    NothingCut(s.St());
    assert s.polarity == polarity;
  }

  // ---- The next search ----

  // The loop of the search from here on: propagation finds nothing to do, variable 2 is
  // decided, its list is empty, and the assignment is stored as the model.
  method SearchOn(s: Solver)
    requires s.St() == Loaded() && s.Core() && s.qhead == |s.trail| && s.PolarityKept([])
    modifies s
    ensures s.model == [true, true, false]
  {
    hide Clauses, State.Inv, State.NoneFalse, Absent, HeapOk, State.QueueOk, Grown;
    QuietStart(s.St());
    var confl := s.PropagateFrom(2);
    QuietStart(s.St());
    confl := s.PropagateFrom(2);    // sat_solver_simplify, at level 0
    HeapSize(s.n, s.activity, s.order, s.orderpos);
    assert s.trail[..s.qhead] == Loaded().trail;
    InHeap(s.orderpos);
    var next, random := s.OrderSelect();
    assert next == 2;
    DecideLast(s);
  }

  // Variable 2 is decided, and nothing is left to propagate or to decide.
  method DecideLast(s: Solver)
    requires s.St() == Loaded() && s.St().Inv() && s.qhead == 2 && s.Ordered() && s.PolarityKept([])
    requires |s.polarity| == 3
    modifies s
    ensures s.model == [true, true, false]
  {
    hide Clauses, State.Inv, State.NoneFalse, HeapOk, State.QueueOk, Grown;
    DecidedQuiet();
    s.OpenDecision(2);
    var confl := s.PropagateFrom(2);
    var next, random := s.OrderSelect();
    assert next == -1;
    s.CopyModel();
  }

  function Decided(): State {
    Loaded().(lims := [2], assigns := [One, One, Zero], levels := [0, 0, 1], trail := [Pos(0), Pos(1), Neg(2)])
  }

  // Two literals wait before the queue, no clause is false after them.
  lemma QuietStart(s: State)
    requires s == Loaded()
    ensures s.QueueOk(2) && s.NoneFalse(s.trail[2..2]) && s.Unwatched(s.trail[2..])
  {
  }

  lemma DecidedQuiet()
    requires Loaded().Inv()
    ensures Opened(Loaded(), false, Neg(2)) == Decided() && Decided().Inv()
    ensures Decided().QueueOk(2) && Decided().NoneFalse(Decided().trail[2..2])
    ensures Decided().Unwatched(Decided().trail[2..])
  {
    hide State.Inv, Clauses;
    assert Opened(Loaded(), false, Neg(2)).trail == Decided().trail;
    OpenedInv(Loaded(), false, Neg(2));
  }

  lemma InHeap(pos: seq<int>)
    requires Absent(pos, Loaded().trail) && |pos| == 3
    ensures pos[2] != -1
  {
  }

  // The clauses have a model, and yet the assignment stored as a model falsifies one of them.
  method PendingUnitsLost() returns (model: seq<bool>)
    ensures |model| == 3 && !Models(AssignmentOf(model), Clauses()) && IsModel(Clauses(), [], [true, true, true])
  {
    hide Clauses, Models, IsModel, Solver.Ready, Solver.Core;
    var s := new Solver();
    Load(s);
    PushAndPop(s);
    SearchOn(s);
    model := s.model;
    HasModel();
    NotModel();
  }
}
