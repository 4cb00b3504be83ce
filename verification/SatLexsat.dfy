// The lexicographically least satisfying assignment.
module SatLexsat {
  import opened Cnf
  import opened SatState
  import opened SatVerdict
  import opened SatCalls
  import opened SatCore
  import opened SatSolver

  // The values that an assignment gives to the variables of lits, and those lits stands for.
  function Bits(a: Assignment, lits: seq<Lit>): (r: seq<bool>)
    ensures |r| == |lits| && forall i :: 0 <= i < |r| ==> r[i] == a(lits[i].v)
  {
    seq(|lits|, i requires 0 <= i < |lits| => a(lits[i].v))
  }

  function Given(lits: seq<Lit>): (r: seq<bool>)
    ensures |r| == |lits| && forall i :: 0 <= i < |r| ==> r[i] == !lits[i].neg
  {
    seq(|lits|, i requires 0 <= i < |lits| => !lits[i].neg)
  }

  predicate LexLeq(x: seq<bool>, y: seq<bool>)
    requires |x| == |y|
  {
    x == [] || (!x[0] && y[0]) || (x[0] == y[0] && LexLeq(x[1..], y[1..]))
  }

  ghost predicate Satisfies(a: Assignment, f: set<Clause>, assumed: seq<Lit>) {
    Models(a, f) && AllHold(a, LitSet(assumed))
  }

  // No satisfying assignment is below the one that lits stands for.
  ghost predicate NoSmaller(f: set<Clause>, assumed: seq<Lit>, lits: seq<Lit>) {
    forall a: Assignment :: Satisfies(a, f, assumed) ==> LexLeq(Given(lits), Bits(a, lits))
  }

  // lits stands for a satisfying assignment, and for the least one.
  ghost predicate LexLeast(f: set<Clause>, assumed: seq<Lit>, lits: seq<Lit>) {
    NoSmaller(f, assumed, lits) && exists a: Assignment :: Satisfies(a, f, assumed) && Bits(a, lits) == Given(lits)
  }

  // The order on sequences in two parts.
  lemma {:induction false} LexParts(x: seq<bool>, y: seq<bool>, v: seq<bool>, w: seq<bool>)
    requires |x| == |y| && |v| == |w|
    ensures LexLeq(x + v, y + w) <==> LexLeq(x, y) && (x == y ==> LexLeq(v, w))
  {
    if x == [] {
      assert x + v == v && y + w == w;
    } else {
      LexParts(x[1..], y[1..], v, w);
      assert (x + v)[1..] == x[1..] + v && (y + w)[1..] == y[1..] + w;
      assert x == y <==> x[0] == y[0] && x[1..] == y[1..];
    }
  }

  lemma SplitBits(a: Assignment, pre: seq<Lit>, post: seq<Lit>)
    ensures Bits(a, pre + post) == Bits(a, pre) + Bits(a, post) && Given(pre + post) == Given(pre) + Given(post)
  {
  }

  lemma LexSplit(a: Assignment, pre: seq<Lit>, post: seq<Lit>)
    ensures LexLeq(Given(pre + post), Bits(a, pre + post)) <==>
            LexLeq(Given(pre), Bits(a, pre)) && (Given(pre) == Bits(a, pre) ==> LexLeq(Given(post), Bits(a, post)))
  {
    SplitBits(a, pre, post);
    LexParts(Given(pre), Bits(a, pre), Given(post), Bits(a, post));
  }

  lemma Agreement(a: Assignment, f: set<Clause>, assumed: seq<Lit>, pre: seq<Lit>)
    ensures Satisfies(a, f, assumed + pre) <==> Satisfies(a, f, assumed) && Given(pre) == Bits(a, pre)
  {
    if Satisfies(a, f, assumed + pre) {
      forall l | l in LitSet(assumed) ensures Holds(a, l) { assert l in LitSet(assumed + pre); }
      forall i | 0 <= i < |pre| ensures Given(pre)[i] == Bits(a, pre)[i] { assert pre[i] in LitSet(assumed + pre); }
    }
    if Satisfies(a, f, assumed) && Given(pre) == Bits(a, pre) {
      forall l | l in LitSet(assumed + pre) ensures Holds(a, l) {
        if l !in LitSet(assumed) {
          var i :| 0 <= i < |pre| && pre[i] == l;
          assert Given(pre)[i] == Bits(a, pre)[i];
        }
      }
    }
  }

  // The least assignment under a prefix that nothing is below is the least of all.
  lemma Compose(f: set<Clause>, assumed: seq<Lit>, pre: seq<Lit>, post: seq<Lit>)
    requires NoSmaller(f, assumed, pre) && LexLeast(f, assumed + pre, post)
    ensures LexLeast(f, assumed, pre + post)
  {
    hide Satisfies, LexLeq;
    forall a: Assignment | Satisfies(a, f, assumed) ensures LexLeq(Given(pre + post), Bits(a, pre + post)) {
      LexSplit(a, pre, post);
      Agreement(a, f, assumed, pre);
    }
    var a: Assignment :| Satisfies(a, f, assumed + pre) && Bits(a, post) == Given(post);
    Agreement(a, f, assumed, pre);
    SplitBits(a, pre, post);
  }

  lemma Decompose(f: set<Clause>, assumed: seq<Lit>, pre: seq<Lit>, post: seq<Lit>)
    requires NoSmaller(f, assumed, pre + post)
    ensures NoSmaller(f, assumed, pre) && NoSmaller(f, assumed + pre, post)
  {
    hide Satisfies, LexLeq;
    forall a: Assignment | Satisfies(a, f, assumed) ensures LexLeq(Given(pre), Bits(a, pre)) { LexSplit(a, pre, post); }
    forall a: Assignment | Satisfies(a, f, assumed + pre) ensures LexLeq(Given(post), Bits(a, post)) {
      LexSplit(a, pre, post);
      Agreement(a, f, assumed, pre);
    }
  }

  // The literal that has to be flipped stands for the value 0.
  lemma MismatchIsZero(f: set<Clause>, assumed: seq<Lit>, lits: seq<Lit>, a: Assignment, i: nat)
    requires NoSmaller(f, assumed, lits) && Satisfies(a, f, assumed) && i < |lits|
    requires !Holds(a, lits[i]) && forall j :: 0 <= j < i ==> Holds(a, lits[j])
    ensures lits[i].neg
  {
    var post := lits[i..];
    assert lits == lits[..i] + post;
    LexSplit(a, lits[..i], post);
    assert Given(lits[..i]) == Bits(a, lits[..i]);
  }

  // Flipping the last literal of a prefix that cannot hold.
  lemma Flip(f: set<Clause>, assumed: seq<Lit>, pre: seq<Lit>, l: Lit)
    requires NoSmaller(f, assumed, pre + [l]) && Refuted(f, LitSet(assumed + (pre + [l]))) && l.neg
    ensures NoSmaller(f, assumed, pre + [l.Not()])
  {
    hide LexLeq;
    Decompose(f, assumed, pre, [l]);
    forall a: Assignment | Satisfies(a, f, assumed) ensures LexLeq(Given(pre + [l.Not()]), Bits(a, pre + [l.Not()])) {
      LexSplit(a, pre, [l.Not()]);
      Agreement(a, f, assumed, pre + [l]);
      SplitBits(a, pre, [l]);
      if Given(pre) == Bits(a, pre) {
        FlippedBit(a, l);
      }
    }
  }

  lemma FlippedBit(a: Assignment, l: Lit)
    requires Given([l]) != Bits(a, [l])
    ensures LexLeq(Given([l.Not()]), Bits(a, [l.Not()]))
  {
    assert Given([l])[0] != Bits(a, [l])[0];
    assert Given([l.Not()])[0] == Bits(a, [l.Not()])[0];
    assert Given([l.Not()])[1..] == [];
  }

  lemma {:induction false} ZerosLeast(x: seq<bool>, y: seq<bool>)
    requires |x| == |y| && forall i :: 0 <= i < |x| ==> !x[i]
    ensures LexLeq(x, y)
  {
    if x != [] { ZerosLeast(x[1..], y[1..]); }
  }

  lemma ZeroLits(f: set<Clause>, assumed: seq<Lit>, lits: seq<Lit>)
    requires forall i :: 0 <= i < |lits| ==> lits[i].neg
    ensures NoSmaller(f, assumed, lits)
  {
    forall a: Assignment | Satisfies(a, f, assumed) ensures LexLeq(Given(lits), Bits(a, lits)) {
      ZerosLeast(Given(lits), Bits(a, lits));
    }
  }

  lemma EmptyLeast(f: set<Clause>, assumed: seq<Lit>, a: Assignment)
    requires Satisfies(a, f, assumed)
    ensures LexLeast(f, assumed, [])
  {
    assert Bits(a, []) == Given([]);
  }

  // ---- The procedure ----

  predicate InRange(p: seq<Lit>, n: nat) {
    forall i :: 0 <= i < |p| ==> p[i].v < n
  }

  // Help the solver: decide every variable the way p gives it.
  method SetPolarities(s: Solver, p: array<Lit>, lo: nat)
    requires s.Ready() && lo <= p.Length && InRange(p[lo..], s.n)
    modifies s`polarity
    ensures s.Ready()
  {
    hide Solver.Ready;
    for i := lo to p.Length
      invariant s.Ready()
    {
      assert p[lo..][i - lo] == p[i];
      s.SetLiteralPolarity(p[i]);
    }
  }

  // The first literal that the stored model does not make true.
  method FirstMismatch(s: Solver, p: array<Lit>, lo: nat) returns (i: nat)
    requires lo <= p.Length && InRange(p[lo..], |s.model|)
    ensures lo <= i <= p.Length && forall j :: lo <= j < i ==> Holds(AssignmentOf(s.model), p[j])
    ensures i < p.Length ==> !Holds(AssignmentOf(s.model), p[i])
  {
    i := lo;
    while i < p.Length
      invariant lo <= i <= p.Length && forall j :: lo <= j < i ==> Holds(AssignmentOf(s.model), p[j])
    {
      assert p[lo..][i - lo] == p[i];
      if p[i] != Lit(p[i].v, !s.model[p[i].v]) {
        return;
      }
      i := i + 1;
    }
  }

  lemma NotRefuted(a: Assignment, f: set<Clause>, assumed: seq<Lit>, lits: seq<Lit>)
    requires Satisfies(a, f, assumed) && forall i :: 0 <= i < |lits| ==> Holds(a, lits[i])
    ensures !Refuted(f, LitSet(assumed + lits))
  {
    assert Given(lits) == Bits(a, lits);
    Agreement(a, f, assumed, lits);
  }

  // Assume p[lo..end]; only the last push can fail, since a satisfies the others.
  method PushUpTo(s: Solver, p: array<Lit>, lo: nat, end: nat, ghost a: Assignment) returns (ok: bool)
    requires s.Ready() && s.qhead == |s.trail| && lo < end <= p.Length && InRange(p[lo..], s.n)
    requires Satisfies(a, s.f, s.assumed) && forall j :: lo <= j < end - 1 ==> Holds(a, p[j])
    modifies s`assigns, s`levels, s`reasons, s`trail, s`qhead, s`lims, s`root, s`assumed, s`arena, s`wl,
             s`binary, s`tags, s`tagged, s`confFinal
    ensures s.assumed == old(s.assumed) + p[lo..end] && s.root == old(s.root) + (end - lo)
    ensures ok ==> s.Ready() && s.qhead == |s.trail|
    ensures !ok ==> s.Withdrawable() && Refuted(s.f, LitSet(s.assumed))
  {
    hide Solver.Ready, Solver.Withdrawable, Solver.Poppable, Solver.Rejected, Solver.Core, Solver.CutBack,
      State.AssumedOk, State.NoneFalse, Satisfies, Refuted, LitSet, FinalClause;
    ok := true;
    var i := lo;
    while i < end && ok
      invariant lo <= i <= end && s.assumed == old(s.assumed) + p[lo..i] && s.root == old(s.root) + (i - lo)
      invariant ok ==> s.Ready() && s.qhead == |s.trail|
      invariant !ok ==> i == end && s.Withdrawable() && Refuted(s.f, LitSet(s.assumed))
      decreases end - i
    {
      assert p[lo..][i - lo] == p[i];
      ok := s.Push(p[i]);
      assert p[lo..i + 1] == p[lo..i] + [p[i]];
      assert s.assumed == old(s.assumed) + p[lo..i + 1];
      if i < end - 1 { NotRefuted(a, s.f, old(s.assumed), p[lo..i + 1]); }
      if ok { s.ReadyAssumed(); }
      i := i + 1;
    }
  }

  // Take back the newest assumptions, one by one.
  method PopMany(s: Solver, count: nat)
    requires s.Ready() && count <= s.root
    modifies s`assigns, s`reasons, s`polarity, s`order, s`orderpos, s`trail, s`qhead, s`lims, s`root, s`assumed
    ensures s.Ready() && s.root == old(s.root) - count && s.assumed == old(s.assumed)[..s.root]
    ensures old(s.qhead) == |old(s.trail)| ==> s.qhead == |s.trail|
  {
    hide Solver.Ready, Solver.Withdrawable, Solver.Poppable, Solver.Rejected, Solver.Core, Solver.CutBack,
      State.AssumedOk, State.NoneFalse;
    s.ReadyAssumed();
    var i := 0;
    while i < count
      invariant 0 <= i <= count && s.Ready() && s.root == old(s.root) - i && s.assumed == old(s.assumed)[..s.root]
      invariant old(s.qhead) == |old(s.trail)| ==> s.qhead == |s.trail|
    {
      s.ReadyWithdrawable();
      s.Pop();
      i := i + 1;
    }
  }

  // Assume p[lo..end] and solve.
  method SolveUpTo(s: Solver, p: array<Lit>, lo: nat, end: nat, ghost a: Assignment) returns (status: Status)
    requires s.Ready() && s.qhead == |s.trail| && lo < end <= p.Length && InRange(p[lo..], s.n)
    requires Satisfies(a, s.f, s.assumed) && forall j :: lo <= j < end - 1 ==> Holds(a, p[j])
    modifies s`assigns, s`levels, s`reasons, s`trail, s`qhead, s`lims, s`root, s`assumed, s`arena, s`learnts, s`wl,
             s`binary, s`nextHandle, s`order, s`orderpos, s`activity, s`varInc, s`polarity,
             s`tags, s`tagged, s`model, s`confFinal, s`conflicts, s`late
    ensures s.assumed == old(s.assumed) + p[lo..end] && s.root == old(s.root) + (end - lo)
    ensures status == True ==> s.Ready() && IsModel(s.f, s.assumed, s.model)
    ensures status == False ==> s.Withdrawable() && Refuted(s.f, LitSet(s.assumed))
    ensures status == Undef ==> s.Ready() && s.OverLimit()
  {
    hide Solver.Ready, Solver.Withdrawable, Solver.Poppable, Solver.Rejected, Solver.Core, Solver.CutBack,
      State.AssumedOk, State.NoneFalse, Satisfies, Refuted, LitSet, FinalClause, IsModel, FinalCore, Solver.Uncounted,
      State.Units, Solver.Saturated, Solver.CutsKept, Solver.OverLimit;
    var ok := PushUpTo(s, p, lo, end, a);
    status := False;
    if ok {
      status := s.SolveInternal();
    }
  }

  // Take p[i] back and assume its negation instead.
  method Exchange(s: Solver, p: array<Lit>, lo: nat, i: nat, ghost assumed0: seq<Lit>)
    requires s.Withdrawable() && lo <= i < p.Length && p[i].v < s.n && s.assumed == assumed0 + p[lo..i + 1]
    requires !Refuted(s.f, LitSet(assumed0 + (p[lo..i] + [p[i].Not()])))
    modifies s`assigns, s`levels, s`reasons, s`trail, s`qhead, s`lims, s`root, s`assumed, s`arena, s`wl,
             s`binary, s`tags, s`tagged, s`confFinal, s`polarity, s`order, s`orderpos, p
    ensures s.Ready() && s.assumed == assumed0 + p[lo..i + 1] && s.root == old(s.root)
    ensures p[..] == old(p[..])[i := old(p[i]).Not()]
  {
    hide Solver.Ready, Solver.Withdrawable, Solver.Poppable, Solver.Rejected, Solver.Core, Solver.CutBack,
      State.AssumedOk, State.NoneFalse, Solver.Saturated, Solver.CutsKept, Solver.Propagating, Refuted, LitSet,
      FinalClause;
    ghost var pre := p[lo..i];
    assert p[lo..i + 1] == pre + [p[i]];
    s.WithdrawablePops();
    s.Pop();
    assert s.assumed == assumed0 + pre;
    p[i] := p[i].Not();
    assert p[lo..i + 1] == pre + [p[i]] && assumed0 + pre + [p[i]] == assumed0 + (pre + [p[i]]);
    var ok := s.Push(p[i]);
  }

  // Flip p[i], which cannot hold after p[lo..i], and start again from zeros after it.
  method FlipAt(s: Solver, p: array<Lit>, lo: nat, i: nat, ghost assumed0: seq<Lit>, ghost a: Assignment)
    requires s.Withdrawable() && lo <= i < p.Length && InRange(p[lo..], s.n)
    requires s.assumed == assumed0 + p[lo..i + 1] && Refuted(s.f, LitSet(s.assumed))
    requires NoSmaller(s.f, assumed0, p[lo..i + 1]) && p[i].neg
    requires Satisfies(a, s.f, assumed0) && !Holds(a, p[i]) && forall j :: lo <= j < i ==> Holds(a, p[j])
    modifies s`assigns, s`levels, s`reasons, s`trail, s`qhead, s`lims, s`root, s`assumed, s`arena, s`wl,
             s`binary, s`tags, s`tagged, s`confFinal, s`polarity, s`order, s`orderpos, p
    ensures s.Ready() && s.assumed == assumed0 + p[lo..i + 1] && s.root == old(s.root)
    ensures p[..i] == old(p[..i]) && SameVars(p[..], old(p[..]))
    ensures NoSmaller(s.f, assumed0, p[lo..i + 1]) && NoSmaller(s.f, s.assumed, p[i + 1..])
    ensures Satisfies(a, s.f, s.assumed)
  {
    hide Solver.Ready, Solver.Withdrawable, Satisfies, Refuted, LitSet, NoSmaller;
    ghost var pre, l := p[lo..i], p[i];
    assert p[lo..i + 1] == pre + [l];
    Flip(s.f, assumed0, pre, l);
    FlippedHolds(a, s.f, assumed0, pre, l.Not());
    assert p[lo..][i - lo] == p[i];
    Exchange(s, p, lo, i, assumed0);
    assert p[lo..i + 1] == pre + [l.Not()];
    Zeros(p, i + 1);
    assert p[lo..i + 1] == pre + [l.Not()];
    ZeroLits(s.f, s.assumed, p[i + 1..]);
  }

  lemma FlippedHolds(a: Assignment, f: set<Clause>, assumed: seq<Lit>, pre: seq<Lit>, l: Lit)
    requires Satisfies(a, f, assumed) && Holds(a, l) && forall j :: 0 <= j < |pre| ==> Holds(a, pre[j])
    ensures Satisfies(a, f, assumed + (pre + [l])) && !Refuted(f, LitSet(assumed + (pre + [l])))
  {
    assert Given(pre + [l]) == Bits(a, pre + [l]);
    Agreement(a, f, assumed, pre + [l]);
  }

  ghost predicate SameVars(p: seq<Lit>, q: seq<Lit>) {
    |p| == |q| && forall k :: 0 <= k < |p| ==> p[k].v == q[k].v
  }

  // The remaining literals stand for zeros.
  method Zeros(p: array<Lit>, lo: nat)
    requires lo <= p.Length
    modifies p
    ensures p[..lo] == old(p[..lo]) && SameVars(p[..], old(p[..])) && forall k :: 0 <= k < |p[lo..]| ==> p[lo..][k].neg
  {
    for i := lo to p.Length
      invariant forall k :: 0 <= k < p.Length ==> p[k].v == old(p[k]).v
      invariant forall k :: lo <= k < i ==> p[k].neg
      invariant forall k :: 0 <= k < lo ==> p[k] == old(p[k])
    {
      p[i] := Lit(p[i].v, true);
    }
  }

  lemma ModelSatisfies(f: set<Clause>, assumed: seq<Lit>, model: seq<bool>)
    requires IsModel(f, assumed, model)
    ensures Satisfies(AssignmentOf(model), f, assumed)
  {
  }

  // No mismatch: the given literals are the answer.
  lemma ModelIsLeast(f: set<Clause>, assumed: seq<Lit>, lits: seq<Lit>, a: Assignment)
    requires NoSmaller(f, assumed, lits) && Satisfies(a, f, assumed)
    requires forall i :: 0 <= i < |lits| ==> Holds(a, lits[i])
    ensures LexLeast(f, assumed, lits)
  {
    assert Bits(a, lits) == Given(lits);
  }

  lemma Mismatch(f: set<Clause>, assumed: seq<Lit>, lits: seq<Lit>, a: Assignment, i: nat)
    requires NoSmaller(f, assumed, lits) && Satisfies(a, f, assumed) && i < |lits|
    requires !Holds(a, lits[i]) && forall j :: 0 <= j < i ==> Holds(a, lits[j])
    ensures NoSmaller(f, assumed, lits[..i + 1]) && NoSmaller(f, assumed + lits[..i + 1], lits[i + 1..]) && lits[i].neg
  {
    hide Satisfies, NoSmaller;
    assert lits == lits[..i + 1] + lits[i + 1..];
    Decompose(f, assumed, lits[..i + 1], lits[i + 1..]);
    MismatchIsZero(f, assumed, lits, a, i);
  }

  lemma Conclude(f: set<Clause>, assumed: seq<Lit>, pre: seq<Lit>, post: seq<Lit>, b: Assignment, status: Status)
    requires NoSmaller(f, assumed, pre) && Satisfies(b, f, assumed + pre)
    requires status == True ==> LexLeast(f, assumed + pre, post)
    requires status == False ==> Refuted(f, LitSet(assumed + pre))
    ensures status != False && (status == True ==> LexLeast(f, assumed, pre + post))
  {
    hide NoSmaller, LexLeast;
    if status == True { Compose(f, assumed, pre, post); }
  }

  lemma RangeKept(q: seq<Lit>, p: seq<Lit>, lo: nat, i: nat, n: nat)
    requires SameVars(p, q) && lo <= i <= |q| && InRange(q[lo..], n)
    ensures InRange(p[i..], n)
  {
    forall k | 0 <= k < |p[i..]| ensures p[i..][k].v < n {
      assert q[lo..][i + k - lo] == q[i + k];
    }
  }

  // sat_solver_solve_lexsat on the literals from position lo on.
  method Lexsat(s: Solver, p: array<Lit>, lo: nat) returns (status: Status)
    requires s.Ready() && lo < p.Length && InRange(p[lo..], s.n)
    requires NoSmaller(s.f, s.assumed, p[lo..])
    modifies s`assigns, s`levels, s`reasons, s`trail, s`qhead, s`lims, s`root, s`assumed, s`arena, s`learnts, s`wl,
             s`binary, s`nextHandle, s`order, s`orderpos, s`activity, s`varInc, s`polarity,
             s`tags, s`tagged, s`model, s`confFinal, s`conflicts, s`late, p
    ensures s.assumed == old(s.assumed) && s.root == old(s.root)
    ensures p[..lo] == old(p[..lo]) && SameVars(p[..], old(p[..]))
    ensures status == True ==> s.Ready() && LexLeast(s.f, s.assumed, p[lo..])
    ensures status == False ==> Refuted(s.f, LitSet(s.assumed)) && (0 < s.root ==> s.Withdrawable())
    ensures status == Undef ==> s.Ready() && s.OverLimit()
    decreases p.Length - lo, 3
  {
    hide Solver.Ready, Solver.Withdrawable, Solver.Poppable, Solver.Rejected, Solver.Core, Solver.CutBack,
      State.AssumedOk, State.NoneFalse, Solver.Saturated, Solver.CutsKept, Satisfies, Refuted, LitSet, FinalClause,
      NoSmaller, LexLeast, IsModel, Solver.Uncounted, State.Units, Solver.OverLimit, FinalCore;
    SetPolarities(s, p, lo);
    status := s.SolveInternal();
    if status == True {
      s.ReadyAssumed();
      status := Lower(s, p, lo);
    }
  }

  // The model found may be lower than the literals: start again at the first that it shows not to hold.
  method Lower(s: Solver, p: array<Lit>, lo: nat) returns (status: Status)
    requires s.Ready() && s.qhead == |s.trail| && lo < p.Length && InRange(p[lo..], s.n)
    requires NoSmaller(s.f, s.assumed, p[lo..]) && IsModel(s.f, s.assumed, s.model) && |s.assumed| == s.root
    requires |s.model| == s.n
    modifies s`assigns, s`levels, s`reasons, s`trail, s`qhead, s`lims, s`root, s`assumed, s`arena, s`learnts, s`wl,
             s`binary, s`nextHandle, s`order, s`orderpos, s`activity, s`varInc, s`polarity,
             s`tags, s`tagged, s`model, s`confFinal, s`conflicts, s`late, p
    ensures s.Ready() && s.assumed == old(s.assumed) && s.root == old(s.root)
    ensures p[..lo] == old(p[..lo]) && SameVars(p[..], old(p[..])) && status != False
    ensures status == True ==> LexLeast(s.f, s.assumed, p[lo..])
    ensures status == Undef ==> s.OverLimit()
    decreases p.Length - lo, 2
  {
    hide Solver.Ready, Solver.OverLimit, Satisfies, LitSet, NoSmaller, LexLeast, IsModel;
    ghost var a := AssignmentOf(s.model);
    ModelSatisfies(s.f, s.assumed, s.model);
    var i := FirstMismatch(s, p, lo);
    if i == p.Length {
      ModelIsLeast(s.f, s.assumed, p[lo..], a);
      return True;
    }
    status := ContinueAndPop(s, p, lo, i, a);
  }

  // The assumptions that the rest of the search needs are taken back after it.
  method ContinueAndPop(s: Solver, p: array<Lit>, lo: nat, i: nat, ghost a: Assignment) returns (status: Status)
    requires s.Ready() && s.qhead == |s.trail| && |s.assumed| == s.root && lo <= i < p.Length && InRange(p[lo..], s.n)
    requires NoSmaller(s.f, s.assumed, p[lo..]) && Satisfies(a, s.f, s.assumed)
    requires !Holds(a, p[i]) && forall j :: lo <= j < i ==> Holds(a, p[j])
    modifies s`assigns, s`levels, s`reasons, s`trail, s`qhead, s`lims, s`root, s`assumed, s`arena, s`learnts, s`wl,
             s`binary, s`nextHandle, s`order, s`orderpos, s`activity, s`varInc, s`polarity,
             s`tags, s`tagged, s`model, s`confFinal, s`conflicts, s`late, p
    ensures s.Ready() && s.assumed == old(s.assumed) && s.root == old(s.root)
    ensures p[..lo] == old(p[..lo]) && SameVars(p[..], old(p[..])) && status != False
    ensures status == True ==> LexLeast(s.f, s.assumed, p[lo..])
    ensures status == Undef ==> s.OverLimit()
    decreases p.Length - lo, 1
  {
    hide Solver.Ready, Solver.Withdrawable, Satisfies, NoSmaller, LexLeast, InRange, SameVars;
    status := Continue(s, p, lo, i, a);
    PopMany(s, i + 1 - lo);
  }

  // The literals before position i hold in a, the one at i does not.
  method Continue(s: Solver, p: array<Lit>, lo: nat, i: nat, ghost a: Assignment) returns (status: Status)
    requires s.Ready() && s.qhead == |s.trail| && |s.assumed| == s.root && lo <= i < p.Length && InRange(p[lo..], s.n)
    requires NoSmaller(s.f, s.assumed, p[lo..]) && Satisfies(a, s.f, s.assumed)
    requires !Holds(a, p[i]) && forall j :: lo <= j < i ==> Holds(a, p[j])
    modifies s`assigns, s`levels, s`reasons, s`trail, s`qhead, s`lims, s`root, s`assumed, s`arena, s`learnts, s`wl,
             s`binary, s`nextHandle, s`order, s`orderpos, s`activity, s`varInc, s`polarity,
             s`tags, s`tagged, s`model, s`confFinal, s`conflicts, s`late, p
    ensures s.Ready() && old(s.assumed) <= s.assumed && s.root == old(s.root) + (i + 1 - lo)
    ensures p[..lo] == old(p[..lo]) && SameVars(p[..], old(p[..])) && status != False
    ensures status == True ==> LexLeast(s.f, old(s.assumed), p[lo..])
    ensures status == Undef ==> s.OverLimit()
    decreases p.Length - lo, 0
  {
    hide Solver.Ready, Solver.Withdrawable, Solver.Poppable, Solver.Rejected, Solver.Core, Solver.CutBack,
      State.AssumedOk, State.NoneFalse, Solver.Saturated, Solver.CutsKept, Refuted, Satisfies, LitSet, FinalClause,
      NoSmaller, LexLeast, IsModel;
    ghost var was, f, q := s.assumed, s.f, p[..];
    ghost var b;
    status, b := Fix(s, p, lo, i, a);
    if status == Undef {
      return;
    }
    ghost var pre := p[lo..i + 1];
    if i + 1 < p.Length {
      RangeKept(q, p[..], lo, i + 1, s.n);
      status := Lexsat(s, p, i + 1);
    } else {
      EmptyLeast(f, s.assumed, b);
      assert p[i + 1..] == [];
    }
    Conclude(s.f, was, pre, p[i + 1..], b, status);
    SplitAt(p[..], lo, i + 1);
    assert p[..][lo..] == p[lo..] && p[..][lo..i + 1] == p[lo..i + 1] && p[..][i + 1..] == p[i + 1..];
  }

  lemma SplitAt(q: seq<Lit>, lo: nat, m: nat)
    requires lo <= m <= |q|
    ensures q[lo..] == q[lo..m] + q[m..]
  {
  }

  // Assume the literals up to position i, the last of them flipped when it cannot hold; b is
  // a model that agrees with them.
  method Fix(s: Solver, p: array<Lit>, lo: nat, i: nat, ghost a: Assignment)
    returns (status: Status, ghost b: Assignment)
    requires s.Ready() && s.qhead == |s.trail| && |s.assumed| == s.root && lo <= i < p.Length && InRange(p[lo..], s.n)
    requires NoSmaller(s.f, s.assumed, p[lo..]) && Satisfies(a, s.f, s.assumed)
    requires !Holds(a, p[i]) && forall j :: lo <= j < i ==> Holds(a, p[j])
    modifies s`assigns, s`levels, s`reasons, s`trail, s`qhead, s`lims, s`root, s`assumed, s`arena, s`learnts, s`wl,
             s`binary, s`nextHandle, s`order, s`orderpos, s`activity, s`varInc, s`polarity,
             s`tags, s`tagged, s`model, s`confFinal, s`conflicts, s`late, p
    ensures s.Ready() && s.assumed == old(s.assumed) + p[lo..i + 1] && s.root == old(s.root) + (i + 1 - lo)
    ensures p[..lo] == old(p[..lo]) && SameVars(p[..], old(p[..])) && status != False
    ensures status == Undef ==> s.OverLimit()
    ensures status == True ==> NoSmaller(s.f, old(s.assumed), p[lo..i + 1]) && NoSmaller(s.f, s.assumed, p[i + 1..])
    ensures status == True ==> Satisfies(b, s.f, s.assumed)
  {
    hide Solver.Ready, Solver.Withdrawable, Solver.Core, Solver.CutBack, State.AssumedOk, State.NoneFalse, Refuted,
      Satisfies, LitSet, NoSmaller, IsModel;
    ghost var was := s.assumed;
    b := a;
    Mismatch(s.f, was, p[lo..], a, i - lo);
    assert p[lo..i + 1] == p[lo..][..i + 1 - lo] && p[i + 1..] == p[lo..][i + 1 - lo..];
    assert p[i] == p[lo..][i - lo];
    status := SolveUpTo(s, p, lo, i + 1, a);
    if status == True {
      b := AssignmentOf(s.model);
      ModelSatisfies(s.f, s.assumed, s.model);
    } else if status == False {
      FlipAt(s, p, lo, i, was, a);
      status := True;
    }
  }
}
