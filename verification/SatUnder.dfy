// A clause added while an assumption is pushed: what the assumption satisfies is dropped, and no trace
// of the clause is left for the time after the assumption has been popped.
module SatUnder {
  import opened Cnf
  import opened SatState
  import opened SatCalls
  import opened SatInput
  import opened SatGrow
  import opened SatAdd
  import opened SatExamples
  import opened SatSolver

  function Either(): Clause { [Pos(0), Pos(1)] }

  // Nothing is stored.
  ghost predicate Blank(s: State) {
    s.arena == map[] && forall l :: l in s.wl ==> s.wl[l] == []
  }

  lemma ThreePushed(s: State)
    requires s == Bare()
    ensures var t := Pushed(s, Pos(0));
      t.assigns == [One, X, X] && t.f == {} && t.assumed == [Pos(0)] && t.lims == [0] && t.n == 3 && Blank(t)
  {
  }

  // The assumption makes the clause true, so that adding it changes nothing.
  lemma Dropped(s: State, t: State, c: seq<Lit>, h: nat)
    requires s.assigns == [One, X, X] && Added(Given(s, Either()), t, Either(), c, h)
    ensures t == Given(s, Either()) && SatisfiedOrTautology(s.assigns, Either())
  {
    assert Pos(0) in Either() && s.assigns[0] == ValueOf(Pos(0));
    AddedCases(s, t, Either(), c, h);
  }

  lemma NotCovered(s: State)
    requires Blank(s) && s.lims == [0]
    ensures !s.CoveredClause(Either())
  {
    assert forall x: Lit :: x in Either() ==> x.Not() !in Either();
    assert forall x: Lit, y: Lit :: x.Not() in s.wl ==> BinWatch(y) !in s.wl[x.Not()];
  }

  lemma NotRefuted()
    ensures !Refuted({Either()}, LitSet([Pos(0)]))
  {
    var a := (v: nat) => true;
    assert Pos(0) in LitSet(Either()) && Holds(a, Pos(0));
    assert Models(a, {Either()}) && AllHold(a, LitSet([Pos(0)]));
  }

  lemma NotKept(s: State, c: seq<Lit>)
    requires SatisfiedOrTautology(s.assigns, Either()) && !s.CoveredClause(Either())
    ensures !KeptAs(s, Either(), c)
  {
  }

  lemma NotReady(s: Solver, t: State, c: seq<Lit>, h: nat)
    requires t.assigns == [One, X, X] && Blank(t) && t.lims == [0] && s.Outcome(t, Either(), c, h)
    ensures s.St() == Given(t, Either()) && !s.Ready()
  {
    hide Solver.Ready, Added, KeptAs, Blank, SatisfiedOrTautology, State.CoveredClause;
    Dropped(t, s.St(), c, h);
    NotCovered(t);
    NotKept(t, c);
  }

  lemma EitherVars()
    ensures Either() != [] && forall l :: l in Either() ==> l.v < 3
  {
  }

  lemma SameWidths(s: State, n: nat)
    requires s.n == n
    ensures WithVars(s, n) == s
  {
  }

  lemma GivenBlank(s: State)
    requires Blank(s)
    ensures Blank(Given(s, Either()))
  {
  }

  method PushFirst(s: Solver)
    requires s.Ready() && s.St() == Bare()
    modifies s
    ensures s.Ready() && s.n == 3 && s.assigns == [One, X, X] && s.f == {} && s.assumed == [Pos(0)] && s.lims == [0]
    ensures Blank(s.St())
  {
    hide Solver.Ready, Solver.Rejected, Refuted, FinalClause, Pushed, Blank, Solver.Saturated, Solver.Propagating;
    s.ReadyAssumed();
    ThreePushed(s.St());
    BareLists();
    var ok := s.Push(Pos(0));
  }

  lemma BareLists()
    ensures Pos(0) in Bare().wl && Bare().wl[Pos(0)] == [] && Bare().trail == [] && Bare().n == 3
  {
  }

  // sat_solver_addclause while the assumption is pushed.
  method AddUnder(s: Solver) returns (ok: bool)
    requires s.Ready() && s.n == 3 && s.assigns == [One, X, X] && s.f == {} && s.assumed == [Pos(0)] && s.lims == [0]
    requires Blank(s.St())
    modifies s
    ensures ok && s.f == {Either()} && s.assumed == [Pos(0)] && Blank(s.St()) && !s.Ready()
  {
    hide Solver.Ready, Refuted, Either, Blank, Solver.Outcome, Solver.Saturated, Solver.PolarityKept;
    ghost var t, h := s.St(), s.nextHandle;
    EitherVars();
    ok := s.AddClause(Either());
    SameWidths(t, s.n);
    assert s.f == {Either()} && (!ok ==> s.St() == Given(t, Either()));
    NotRefuted();
    ghost var c :| s.Outcome(t, Either(), c, h);
    NotReady(s, t, c, h);
    GivenBlank(t);
  }

  // The clause counts as given, and the solver has nothing of it.
  method ClauseLost() returns (s: Solver, ok: bool)
    ensures fresh(s) && ok && s.f == {Either()} && s.assumed == [Pos(0)] && Blank(s.St()) && !s.Ready()
  {
    hide Solver.Ready, Widened, Either, Blank, Bare, Solver.Saturated, Solver.PolarityKept;
    s := new Solver();
    BareVars(s.St());
    s.SetNVars(3);
    PushFirst(s);
    ok := AddUnder(s);
  }
}
