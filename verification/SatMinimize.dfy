// Minimising a set of assumptions that refutes the clauses.
module SatMinimize {
  import opened Cnf
  import opened SatState
  import opened SatCalls
  import opened SatSolver
  import opened SatLexsat

  function RemoveLit(c: seq<Lit>, k: nat): seq<Lit>
    requires k < |c|
  {
    c[..k] + c[k + 1..]
  }

  // Under the assumptions base, r refutes the clauses, and no literal of r can be dropped.
  ghost predicate Irredundant(f: set<Clause>, base: seq<Lit>, r: seq<Lit>) {
    Refutes(f, base, r) && forall k :: 0 <= k < |r| ==> !Refutes(f, base, RemoveLit(r, k))
  }

  // Under the assumptions base, the literals r refute the clauses.
  ghost predicate Refutes(f: set<Clause>, base: seq<Lit>, r: seq<Lit>) {
    Refuted(f, LitSet(base + r))
  }

  function Part(q: seq<Lit>, lo: nat, end: nat): (r: seq<Lit>)
    requires lo <= end <= |q|
    ensures |r| == end - lo
  {
    q[lo..end]
  }

  lemma RefutedMore(f: set<Clause>, c: seq<Lit>, d: seq<Lit>)
    requires Refuted(f, LitSet(c)) && forall l :: l in c ==> l in d
    ensures Refuted(f, LitSet(d))
  {
    assert LitSet(c) <= LitSet(d);
  }

  lemma SingleIrredundant(f: set<Clause>, base: seq<Lit>, x: Lit)
    requires Refuted(f, LitSet(base + [x])) && !Refuted(f, LitSet(base))
    ensures Irredundant(f, base, [x])
  {
    assert base + RemoveLit([x], 0) == base;
  }

  lemma NoneIrredundant(f: set<Clause>, base: seq<Lit>)
    requires Refuted(f, LitSet(base))
    ensures Irredundant(f, base, [])
  {
    assert base + [] == base;
  }

  // A part that is irredundant under more assumptions and refutes without them.
  lemma FewerAssumptions(f: set<Clause>, base: seq<Lit>, left: seq<Lit>, r: seq<Lit>)
    requires Irredundant(f, base + left, r) && Refuted(f, LitSet(base + r))
    ensures Irredundant(f, base, r)
  {
    hide Refuted;
    forall k | 0 <= k < |r| ensures !Refuted(f, LitSet(base + RemoveLit(r, k))) {
      if Refuted(f, LitSet(base + RemoveLit(r, k))) {
        RefutedMore(f, base + RemoveLit(r, k), base + left + RemoveLit(r, k));
      }
    }
  }

  // Two parts, each irredundant under the other.
  lemma Join(f: set<Clause>, base: seq<Lit>, left: seq<Lit>, r: seq<Lit>, l: seq<Lit>)
    requires Irredundant(f, base + left, r) && Irredundant(f, base + r, l) && forall x :: x in l ==> x in left
    ensures Irredundant(f, base, r + l)
  {
    hide Refuted;
    assert base + r + l == base + (r + l);
    forall k | 0 <= k < |r + l| ensures !Refuted(f, LitSet(base + RemoveLit(r + l, k))) {
      if k < |r| {
        assert RemoveLit(r + l, k) == RemoveLit(r, k) + l;
        if Refuted(f, LitSet(base + RemoveLit(r + l, k))) {
          RefutedMore(f, base + RemoveLit(r + l, k), base + left + RemoveLit(r, k));
        }
      } else {
        assert base + RemoveLit(r + l, k) == base + r + RemoveLit(l, k - |r|);
      }
    }
  }

  // ---- Assuming and withdrawing ----

  // Withdraw the newest assumptions after a search or a push.
  method Withdraw(s: Solver, count: nat, ghost base: seq<Lit>)
    requires (s.Ready() || s.Withdrawable()) && 0 < count
    requires base <= s.assumed && s.root == |base| + count
    modifies s`assigns, s`reasons, s`polarity, s`order, s`orderpos, s`trail, s`qhead, s`lims, s`root, s`assumed
    ensures s.Ready() && s.qhead == |s.trail| && s.root == |base| && s.assumed == base
  {
    hide Solver.Ready, Solver.Withdrawable, Solver.Poppable, Solver.Rejected, Solver.Core, Solver.CutBack,
      State.AssumedOk, State.NoneFalse;
    if s.Ready() { s.ReadyWithdrawable(); }
    s.WithdrawablePops();
    s.Pop();
    s.ReadyAssumed();
    PopMany(s, count - 1);
    s.ReadyAssumed();
  }

  // Assume p[lo..end]. When a push fails everything is withdrawn and the number of literals
  // pushed is returned, otherwise 0.
  method Assume(s: Solver, p: array<Lit>, lo: nat, end: nat) returns (failed: nat)
    requires s.Ready() && s.qhead == |s.trail| && lo <= end <= p.Length && InRange(p[..], s.n)
    modifies s`assigns, s`levels, s`reasons, s`trail, s`qhead, s`lims, s`root, s`assumed, s`arena, s`wl,
             s`binary, s`tags, s`tagged, s`confFinal, s`polarity, s`order, s`orderpos
    ensures s.Ready() && s.qhead == |s.trail| && failed <= end - lo
    ensures failed == 0 ==> s.assumed == old(s.assumed) + Part(p[..], lo, end) && s.root == old(s.root) + (end - lo)
    ensures failed > 0 ==>
      s.assumed == old(s.assumed) && s.root == old(s.root) && Refutes(s.f, s.assumed, Part(p[..], lo, lo + failed))
  {
    hide Solver.Ready, Solver.Withdrawable, Solver.Poppable, Solver.Rejected, Solver.Core, Solver.CutBack,
      State.AssumedOk, State.NoneFalse, Refuted, LitSet, FinalClause;
    s.ReadyAssumed();
    var i := lo;
    while i < end
      invariant lo <= i <= end && s.Ready() && s.qhead == |s.trail|
      invariant s.assumed == old(s.assumed) + p[lo..i] && s.root == old(s.root) + (i - lo)
    {
      assert p[..][i] == p[i];
      var ok := s.Push(p[i]);
      assert p[lo..i + 1] == p[lo..i] + [p[i]];
      assert s.assumed == old(s.assumed) + p[lo..i + 1];
      i := i + 1;
      if !ok {
        assert p[..][lo..i] == p[lo..i];
        Withdraw(s, i - lo, old(s.assumed));
        return i - lo;
      }
      s.ReadyAssumed();
    }
    assert p[..][lo..end] == p[lo..i];
    failed := 0;
  }

  // Solve, with a fresh conflict limit if one is given.
  method SolveLimited(s: Solver, nConfLimit: nat) returns (status: Status)
    requires s.Ready() && s.qhead == |s.trail|
    modifies s`assigns, s`levels, s`reasons, s`trail, s`qhead, s`lims, s`arena, s`learnts, s`wl,
             s`binary, s`nextHandle, s`order, s`orderpos, s`activity, s`varInc, s`polarity,
             s`tags, s`tagged, s`model, s`confFinal, s`conflicts, s`late, s`confLimit
    ensures status == True ==> !Refuted(s.f, LitSet(s.assumed))
    ensures status == False ==> Refuted(s.f, LitSet(s.assumed)) && (0 < s.root ==> s.Withdrawable())
    ensures status == Undef ==> s.OverLimit()
    ensures status != False ==> s.Ready() && s.qhead == |s.trail|
    ensures s.confLimit == if nConfLimit == 0 then old(s.confLimit) else old(s.conflicts) + nConfLimit
  {
    hide Solver.Ready, Solver.Withdrawable, FinalClause;
    if nConfLimit != 0 {
      s.confLimit := s.conflicts + nConfLimit;
    }
    status := s.SolveInternal();
  }

  // q with the first k literals of its right part moved before its left part.
  function Fronted(q: seq<Lit>, lo: nat, mid: nat, k: nat): seq<Lit>
    requires lo <= mid && mid + k <= |q|
  {
    q[..lo] + q[mid..mid + k] + q[lo..mid] + q[mid + k..]
  }

  lemma FrontedAt(q: seq<Lit>, m: seq<Lit>, r: seq<Lit>, lo: nat, mid: nat, k: nat, temp: seq<Lit>)
    requires lo <= mid && mid + k <= |q| && temp == q[lo..mid] && Shifted(q, m, lo, mid - lo, k)
    requires Filled(m, r, lo + k, temp)
    ensures r == Fronted(q, lo, mid, k)
  {
    assert r[..lo] == q[..lo];
    assert r[lo..lo + k] == q[mid..mid + k];
    assert r[lo + k..mid + k] == q[lo..mid];
    assert r[mid + k..] == q[mid + k..];
    assert r == r[..lo] + r[lo..lo + k] + r[lo + k..mid + k] + r[mid + k..];
  }

  // Copy k literals down by d positions to position dst.
  method CopyDown(p: array<Lit>, dst: nat, d: nat, k: nat)
    requires dst + d + k <= p.Length
    modifies p
    ensures Shifted(old(p[..]), p[..], dst, d, k)
  {
    hide Shifted;
    ghost var q := p[..];
    ShiftedNone(q, dst, d);
    for i := 0 to k
      invariant Shifted(q, p[..], dst, d, i) && |p[..]| == p.Length
    {
      ShiftedMore(q, p[..], dst, d, i);
      p[dst + i] := p[dst + i + d];
    }
  }

  lemma ShiftedNone(q: seq<Lit>, dst: nat, d: nat)
    requires dst + d <= |q|
    ensures Shifted(q, q, dst, d, 0)
  {
  }

  lemma ShiftedMore(q: seq<Lit>, r: seq<Lit>, dst: nat, d: nat, i: nat)
    requires Shifted(q, r, dst, d, i) && dst + d + i < |q|
    ensures |r| == |q| && Shifted(q, r[dst + i := r[dst + i + d]], dst, d, i + 1)
  {
    assert r[dst + i + d] == q[dst + i + d];
  }

  method CopyFrom(temp: seq<Lit>, p: array<Lit>, dst: nat)
    requires dst + |temp| <= p.Length
    modifies p
    ensures Filled(old(p[..]), p[..], dst, temp)
  {
    ghost var q := p[..];
    var i := 0;
    while i < |temp|
      invariant 0 <= i <= |temp|
      invariant forall j :: dst <= j < dst + i ==> p[j] == temp[j - dst]
      invariant forall j :: 0 <= j < p.Length && !(dst <= j < dst + i) ==> p[j] == q[j]
    {
      p[dst + i] := temp[i];
      i := i + 1;
    }
  }

  method MoveToFront(p: array<Lit>, lo: nat, mid: nat, k: nat)
    requires lo <= mid && mid + k <= p.Length
    modifies p
    ensures p[..] == Fronted(old(p[..]), lo, mid, k)
  {
    hide Fronted, Shifted, Filled;
    ghost var q := p[..];
    var temp := p[..][lo..mid];
    CopyDown(p, lo, mid - lo, k);
    ghost var m := p[..];
    assert Shifted(q, m, lo, mid - lo, k);
    CopyFrom(temp, p, lo + k);
    ghost var r := p[..];
    assert Filled(m, r, lo + k, temp);
    FrontedAt(q, m, r, lo, mid, k, temp);
  }

  // r is q with k literals copied down by d positions to position dst.
  ghost predicate Shifted(q: seq<Lit>, r: seq<Lit>, dst: nat, d: nat, k: nat) {
    && |r| == |q| && dst + d + k <= |q|
    && (forall j :: dst <= j < dst + k ==> r[j] == q[j + d])
    && (forall j :: 0 <= j < |q| && !(dst <= j < dst + k) ==> r[j] == q[j])
  }

  // r is q with temp copied to position dst.
  ghost predicate Filled(q: seq<Lit>, r: seq<Lit>, dst: nat, temp: seq<Lit>) {
    && |r| == |q| && dst + |temp| <= |q|
    && (forall j :: dst <= j < dst + |temp| ==> r[j] == temp[j - dst])
    && (forall j :: 0 <= j < |q| && !(dst <= j < dst + |temp|) ==> r[j] == q[j])
  }

  // ---- Reordering ----

  // r is q with the literals from lo to end in another order.
  ghost predicate Reordered(q: seq<Lit>, r: seq<Lit>, lo: nat, end: nat) {
    && lo <= end <= |q| == |r| && r[..lo] == q[..lo] && r[end..] == q[end..]
    && multiset(r[lo..end]) == multiset(q[lo..end])
  }

  lemma ReorderedSelf(q: seq<Lit>, lo: nat, end: nat)
    requires lo <= end <= |q|
    ensures Reordered(q, q, lo, end)
  {
  }

  lemma ReorderedLength(q: seq<Lit>, r: seq<Lit>, lo: nat, end: nat)
    requires Reordered(q, r, lo, end)
    ensures |r| == |q| && end <= |q|
  {
  }

  lemma ReorderedWiden(q: seq<Lit>, r: seq<Lit>, lo: nat, end: nat, lo': nat, end': nat)
    requires Reordered(q, r, lo, end) && lo' <= lo && end <= end' <= |q|
    ensures Reordered(q, r, lo', end')
  {
    assert r[..lo'] == r[..lo][..lo'] && q[..lo'] == q[..lo][..lo'];
    assert r[end'..] == r[end..][end' - end..] && q[end'..] == q[end..][end' - end..];
    assert r[lo'..end'] == r[..lo][lo'..] + r[lo..end] + r[end..][..end' - end];
    assert q[lo'..end'] == q[..lo][lo'..] + q[lo..end] + q[end..][..end' - end];
  }

  lemma ReorderedTwice(q: seq<Lit>, r: seq<Lit>, t: seq<Lit>, lo: nat, end: nat)
    requires Reordered(q, r, lo, end) && Reordered(r, t, lo, end)
    ensures Reordered(q, t, lo, end)
  {
  }

  lemma FrontedReordered(q: seq<Lit>, lo: nat, mid: nat, k: nat)
    requires lo <= mid && mid + k <= |q|
    ensures var r := Fronted(q, lo, mid, k);
      Reordered(q, r, lo, mid + k) && Part(r, lo, lo + k) == Part(q, mid, mid + k) &&
      Part(r, lo + k, mid + k) == Part(q, lo, mid)
  {
    var r := Fronted(q, lo, mid, k);
    assert r[lo..mid + k] == q[mid..mid + k] + q[lo..mid];
    assert q[lo..mid + k] == q[lo..mid] + q[mid..mid + k];
  }

  lemma ReorderedRange(q: seq<Lit>, r: seq<Lit>, lo: nat, end: nat, n: nat)
    requires Reordered(q, r, lo, end) && InRange(q, n)
    ensures InRange(r, n)
  {
    forall k | 0 <= k < |r| ensures r[k].v < n {
      if k < lo {
        assert r[k] == r[..lo][k] == q[..lo][k] == q[k];
      } else if k < end {
        assert r[lo..end][k - lo] in multiset(q[lo..end]);
        var j :| 0 <= j < |q[lo..end]| && q[lo..end][j] == r[k];
        assert q[lo + j] == r[k];
      } else {
        assert r[k] == r[end..][k - end] == q[end..][k - end] == q[k];
      }
    }
  }

  lemma ReorderedMembers(q: seq<Lit>, r: seq<Lit>, lo: nat, end: nat, m: nat)
    requires Reordered(q, r, lo, end) && lo <= m <= end
    ensures forall x :: x in Part(r, lo, m) ==> x in Part(q, lo, end)
  {
    forall x | x in r[lo..m] ensures x in q[lo..end] {
      assert r[lo..m] == r[lo..end][..m - lo];
      assert x in r[lo..end];
      assert x in multiset(r[lo..end]);
    }
  }

  lemma ReorderedLeft(q: seq<Lit>, r: seq<Lit>, lo: nat, mid: nat, end: nat)
    requires Reordered(q, r, mid, end) && lo <= mid
    ensures Part(r, lo, mid) == Part(q, lo, mid)
  {
    assert r[lo..mid] == r[..mid][lo..] && q[lo..mid] == q[..mid][lo..];
  }

  lemma PartJoin(q: seq<Lit>, lo: nat, mid: nat, end: nat)
    requires lo <= mid <= end <= |q|
    ensures Part(q, lo, end) == Part(q, lo, mid) + Part(q, mid, end)
  {
  }

  // ---- The procedure ----

  lemma RefutesRest(f: set<Clause>, base: seq<Lit>, q: seq<Lit>, lo: nat, mid: nat, end: nat)
    requires lo <= mid <= end <= |q| && Refutes(f, base, Part(q, lo, end))
    ensures Refutes(f, base + Part(q, lo, mid), Part(q, mid, end))
  {
    assert base + Part(q, lo, end) == base + Part(q, lo, mid) + Part(q, mid, end);
  }

  lemma SwapParts(f: set<Clause>, base: seq<Lit>, left: seq<Lit>, right: seq<Lit>)
    requires Refutes(f, base + left, right)
    ensures Refutes(f, base + right, left)
  {
    hide Refuted;
    RefutedMore(f, base + left + right, base + right + left);
  }

  lemma RefutesTogether(f: set<Clause>, base: seq<Lit>, right: seq<Lit>, left: seq<Lit>)
    requires Refutes(f, base + right, left)
    ensures Refutes(f, base, right + left)
  {
    assert base + right + left == base + (right + left);
  }

  // The outcome for one literal, the last one assumed being the only open question.
  lemma OneLiteral(f: set<Clause>, base: seq<Lit>, q: seq<Lit>, lo: nat)
    requires lo < |q| && Refutes(f, base, Part(q, lo, lo + 1)) && !Refuted(f, LitSet(base))
    ensures Irredundant(f, base, Part(q, lo, lo + 1))
  {
    assert Part(q, lo, lo + 1) == [q[lo]];
    SingleIrredundant(f, base, q[lo]);
  }

  lemma NoLiteral(f: set<Clause>, base: seq<Lit>, q: seq<Lit>, lo: nat)
    requires lo <= |q| && Refuted(f, LitSet(base))
    ensures Irredundant(f, base, Part(q, lo, lo))
  {
    NoneIrredundant(f, base);
    assert Part(q, lo, lo) == [];
  }

  lemma AssumedRefutes(f: set<Clause>, base: seq<Lit>, r: seq<Lit>)
    ensures Refuted(f, LitSet(base + r)) <==> Refutes(f, base, r)
  {
  }

  lemma IrredundantRefutes(f: set<Clause>, base: seq<Lit>, r: seq<Lit>)
    requires Irredundant(f, base, r)
    ensures Refutes(f, base, r)
  {
  }

  // No limit is set, so that every search is answered.
  predicate NoLimits(s: Solver, nConfLimit: nat)
    reads s`confLimit, s`timeLimit
  {
    nConfLimit == 0 && s.confLimit == 0 && !s.timeLimit
  }

  // sat_solver_minimize_assumptions on the len literals from position lo on. The answer is
  // exact when no search was cut short by a limit.
  method Minimize(s: Solver, p: array<Lit>, lo: nat, len: nat, nConfLimit: nat) returns (ret: nat, ghost exact: bool)
    requires s.Ready() && s.qhead == |s.trail| && 1 <= len && lo + len <= p.Length && InRange(p[..], s.n)
    requires Refutes(s.f, s.assumed, Part(p[..], lo, lo + len))
    modifies s`assigns, s`levels, s`reasons, s`trail, s`qhead, s`lims, s`root, s`assumed, s`arena, s`learnts, s`wl,
             s`binary, s`nextHandle, s`order, s`orderpos, s`activity, s`varInc, s`polarity,
             s`tags, s`tagged, s`model, s`confFinal, s`conflicts, s`late, s`confLimit, p
    ensures s.assumed == old(s.assumed) && s.root == old(s.root) && ret <= len
    ensures Reordered(old(p[..]), p[..], lo, lo + len)
    ensures Refutes(s.f, s.assumed, Part(p[..], lo, lo + ret))
    ensures exact ==> Irredundant(s.f, s.assumed, Part(p[..], lo, lo + ret))
    ensures old(NoLimits(s, nConfLimit)) ==> NoLimits(s, nConfLimit) && exact
    ensures 0 < ret ==> s.Ready() && s.qhead == |s.trail|
    ensures 0 < s.root ==> s.Withdrawable() || (s.Ready() && s.qhead == |s.trail|)
    decreases len
  {
    hide Solver.Ready, Solver.Withdrawable, Solver.Core, Solver.CutBack, State.AssumedOk, State.NoneFalse, Refuted,
      LitSet, Irredundant, InRange, Reordered, Refutes, Part;
    s.ReadyAssumed();
    ghost var q, base := p[..], s.assumed;
    if len == 1 {
      ReorderedSelf(q, lo, lo + len);
      ret, exact := MinimizeOne(s, p, lo, nConfLimit);
      return;
    }
    var nL := len / 2;
    var part, decided := LeftAlone(s, p, lo, nL, nConfLimit);
    if part > 0 {
      ret, exact := Minimize(s, p, lo, part, nConfLimit);
      ReorderedWiden(q, p[..], lo, lo + part, lo, lo + len);
      return;
    }
    ret, exact := MinimizeHalves(s, p, lo, nL, len - nL, nConfLimit, base, decided);
  }

  // Assume the left part and solve. When a prefix of it is refuted, all is withdrawn and the
  // length of that prefix is returned, otherwise 0.
  method LeftAlone(s: Solver, p: array<Lit>, lo: nat, nL: nat, nConfLimit: nat) returns (part: nat, ghost decided: bool)
    requires s.Ready() && s.qhead == |s.trail| && 1 <= nL && lo + nL <= p.Length && InRange(p[..], s.n)
    modifies s`assigns, s`levels, s`reasons, s`trail, s`qhead, s`lims, s`root, s`assumed, s`arena, s`learnts, s`wl,
             s`binary, s`nextHandle, s`order, s`orderpos, s`activity, s`varInc, s`polarity,
             s`tags, s`tagged, s`model, s`confFinal, s`conflicts, s`late, s`confLimit
    ensures s.Ready() && s.qhead == |s.trail| && part <= nL
    ensures part > 0 ==>
      s.assumed == old(s.assumed) && s.root == old(s.root) && Refutes(s.f, s.assumed, Part(p[..], lo, lo + part))
    ensures part == 0 ==> s.assumed == old(s.assumed) + Part(p[..], lo, lo + nL) && s.root == old(s.root) + nL
    ensures part == 0 && decided ==> !Refuted(s.f, LitSet(s.assumed))
    ensures old(NoLimits(s, nConfLimit)) ==> NoLimits(s, nConfLimit) && (part == 0 ==> decided)
  {
    hide Solver.Ready, Solver.Withdrawable, Solver.Core, Solver.CutBack, State.AssumedOk, State.NoneFalse, Refuted,
      LitSet, InRange, Refutes, Part;
    s.ReadyAssumed();
    ghost var base := s.assumed;
    decided := true;
    part := Assume(s, p, lo, lo + nL);
    if part == 0 {
      var status := SolveLimited(s, nConfLimit);
      decided := status == True;
      AssumedRefutes(s.f, base, Part(p[..], lo, lo + nL));
      if status == False {
        Withdraw(s, nL, base);
        part := nL;
      }
    }
  }

  // The left part is assumed and does not refute the clauses as far as is known.
  method MinimizeHalves(s: Solver, p: array<Lit>, lo: nat, nL: nat, nR: nat, nConfLimit: nat, ghost base: seq<Lit>,
                        ghost decided: bool)
    returns (ret: nat, ghost exact: bool)
    requires s.Ready() && s.qhead == |s.trail| && 1 <= nL && 1 <= nR && lo + nL + nR <= p.Length && InRange(p[..], s.n)
    requires s.assumed == base + Part(p[..], lo, lo + nL) && s.root == |base| + nL
    requires Refutes(s.f, base, Part(p[..], lo, lo + nL + nR))
    requires decided ==> !Refuted(s.f, LitSet(s.assumed))
    modifies s`assigns, s`levels, s`reasons, s`trail, s`qhead, s`lims, s`root, s`assumed, s`arena, s`learnts, s`wl,
             s`binary, s`nextHandle, s`order, s`orderpos, s`activity, s`varInc, s`polarity,
             s`tags, s`tagged, s`model, s`confFinal, s`conflicts, s`late, s`confLimit, p
    ensures s.assumed == base && s.root == |base| && ret <= nL + nR && Reordered(old(p[..]), p[..], lo, lo + nL + nR)
    ensures Refutes(s.f, s.assumed, Part(p[..], lo, lo + ret))
    ensures exact ==> Irredundant(s.f, s.assumed, Part(p[..], lo, lo + ret))
    ensures old(NoLimits(s, nConfLimit)) ==> NoLimits(s, nConfLimit) && (decided ==> exact)
    ensures 0 < ret ==> s.Ready() && s.qhead == |s.trail|
    ensures 0 < s.root ==> s.Withdrawable() || (s.Ready() && s.qhead == |s.trail|)
    decreases nL + nR, 2
  {
    hide Solver.Ready, Solver.Withdrawable, Solver.Core, Solver.CutBack, State.AssumedOk, State.NoneFalse, Refuted,
      LitSet, Irredundant, InRange, Reordered, Refutes, Part;
    ghost var q := p[..];
    var k: nat;
    k, exact := RightUnderLeft(s, p, lo, nL, nR, nConfLimit, base, decided);
    ghost var r := p[..];
    ret, exact := MinimizeRest(s, p, lo, k, nL, nConfLimit, exact, nL + nR);
    ReorderedWiden(r, p[..], lo, lo + k + nL, lo, lo + nL + nR);
    ReorderedTwice(q, r, p[..], lo, lo + nL + nR);
  }

  method MinimizeOne(s: Solver, p: array<Lit>, lo: nat, nConfLimit: nat) returns (ret: nat, ghost exact: bool)
    requires s.Ready() && s.qhead == |s.trail| && lo < p.Length
    requires Refutes(s.f, s.assumed, Part(p[..], lo, lo + 1))
    modifies s`assigns, s`levels, s`reasons, s`trail, s`qhead, s`lims, s`arena, s`learnts, s`wl,
             s`binary, s`nextHandle, s`order, s`orderpos, s`activity, s`varInc, s`polarity,
             s`tags, s`tagged, s`model, s`confFinal, s`conflicts, s`late, s`confLimit
    ensures ret <= 1 && Refutes(s.f, s.assumed, Part(p[..], lo, lo + ret))
    ensures exact ==> Irredundant(s.f, s.assumed, Part(p[..], lo, lo + ret))
    ensures old(NoLimits(s, nConfLimit)) ==> NoLimits(s, nConfLimit) && exact
    ensures 0 < ret ==> s.Ready() && s.qhead == |s.trail|
    ensures 0 < s.root ==> s.Withdrawable() || (s.Ready() && s.qhead == |s.trail|)
  {
    hide Solver.Ready, Solver.Withdrawable, Solver.Core, Solver.CutBack, State.AssumedOk, State.NoneFalse, Refuted,
      LitSet, Irredundant, Refutes, Part;
    var status := SolveLimited(s, nConfLimit);
    ret := if status != False then 1 else 0;
    exact := status != Undef;
    if status == True { OneLiteral(s.f, s.assumed, p[..], lo); }
    if status == False {
      NoLiteral(s.f, s.assumed, p[..], lo);
      IrredundantRefutes(s.f, s.assumed, Part(p[..], lo, lo));
    }
  }

  // Minimise the right part under the left one, which is assumed and does not refute the
  // clauses as far as is known; then move what is left of it to the front.
  method RightUnderLeft(s: Solver, p: array<Lit>, lo: nat, nL: nat, nR: nat, nConfLimit: nat, ghost base: seq<Lit>,
                        ghost decided: bool)
    returns (k: nat, ghost exact: bool)
    requires s.Ready() && s.qhead == |s.trail| && 1 <= nL && 1 <= nR && lo + nL + nR <= p.Length && InRange(p[..], s.n)
    requires s.assumed == base + Part(p[..], lo, lo + nL) && s.root == |base| + nL
    requires Refutes(s.f, base, Part(p[..], lo, lo + nL + nR))
    requires decided ==> !Refuted(s.f, LitSet(s.assumed))
    modifies s`assigns, s`levels, s`reasons, s`trail, s`qhead, s`lims, s`root, s`assumed, s`arena, s`learnts, s`wl,
             s`binary, s`nextHandle, s`order, s`orderpos, s`activity, s`varInc, s`polarity,
             s`tags, s`tagged, s`model, s`confFinal, s`conflicts, s`late, s`confLimit, p
    ensures s.Ready() && s.qhead == |s.trail| && s.assumed == base && s.root == |base| && k <= nR
    ensures Reordered(old(p[..]), p[..], lo, lo + nL + nR) && InRange(p[..], s.n)
    ensures Refutes(s.f, base + Part(p[..], lo + k, lo + k + nL), Part(p[..], lo, lo + k))
    ensures exact ==> Irredundant(s.f, base + Part(p[..], lo + k, lo + k + nL), Part(p[..], lo, lo + k))
    ensures old(NoLimits(s, nConfLimit)) ==> NoLimits(s, nConfLimit) && (decided ==> exact)
    decreases nL + nR, 0
  {
    hide Solver.Ready, Solver.Withdrawable, Solver.Core, Solver.CutBack, State.AssumedOk, State.NoneFalse, Refuted,
      LitSet, Irredundant, InRange, Reordered, Fronted, Refutes, Part;
    ghost var q := p[..];
    var mid := lo + nL;
    RefutesRest(s.f, base, q, lo, mid, mid + nR);
    k := 1;
    exact := decided;
    if nR == 1 {
      if decided { OneLiteral(s.f, s.assumed, q, mid); }
      ReorderedSelf(q, mid, mid + nR);
    } else {
      ghost var sure: bool;
      k, sure := Minimize(s, p, mid, nR, nConfLimit);
      exact := decided && sure;
    }
    ghost var r := p[..];
    Withdraw(s, nL, base);
    MoveToFront(p, lo, mid, k);
    FrontedFacts(q, r, lo, mid, k, mid + nR, s.n);
  }

  lemma FrontedFacts(q: seq<Lit>, r: seq<Lit>, lo: nat, mid: nat, k: nat, end: nat, n: nat)
    requires lo <= mid && mid + k <= end <= |q| == |r| && Reordered(q, r, mid, end) && InRange(q, n)
    ensures var t := Fronted(r, lo, mid, k);
      && Reordered(q, t, lo, end) && InRange(t, n)
      && Part(t, lo, lo + k) == Part(r, mid, mid + k) && Part(t, lo + k, mid + k) == Part(q, lo, mid)
  {
    hide Reordered, Fronted, Part, InRange;
    ReorderedLength(q, r, mid, end);
    var t := Fronted(r, lo, mid, k);
    ReorderedWiden(q, r, mid, end, lo, end);
    ReorderedLeft(q, r, lo, mid, end);
    FrontedReordered(r, lo, mid, k);
    ReorderedWiden(r, t, lo, mid + k, lo, end);
    ReorderedTwice(q, r, t, lo, end);
    ReorderedRange(q, t, lo, end, n);
  }

  // What is left of the right part is enough: its assumptions are taken back.
  method RightAlone(s: Solver, ghost q: seq<Lit>, ghost lo: nat, k: nat, ghost nL: nat, ghost base: seq<Lit>,
                    ghost exact0: bool)
    requires lo + k + nL <= |q| && s.assumed == base + Part(q, lo, lo + k) && s.root == |base| + k
    requires Refuted(s.f, LitSet(s.assumed)) && (0 < s.root ==> s.Withdrawable())
    requires exact0 ==> Irredundant(s.f, base + Part(q, lo + k, lo + k + nL), Part(q, lo, lo + k))
    modifies s`assigns, s`reasons, s`polarity, s`order, s`orderpos, s`trail, s`qhead, s`lims, s`root, s`assumed
    ensures s.assumed == base && s.root == |base| && Reordered(q, q, lo, lo + k + nL)
    ensures Refutes(s.f, base, Part(q, lo, lo + k))
    ensures exact0 ==> Irredundant(s.f, base, Part(q, lo, lo + k))
    ensures if 0 < k then s.Ready() && s.qhead == |s.trail| else 0 < s.root ==> s.Withdrawable()
  {
    hide Solver.Ready, Solver.Withdrawable, Refuted, LitSet, Irredundant, Reordered, Refutes, Part;
    AssumedRefutes(s.f, base, Part(q, lo, lo + k));
    ReorderedSelf(q, lo, lo + k + nL);
    Nothing(base, Part(q, lo, lo + k));
    if exact0 { FewerAssumptions(s.f, base, Part(q, lo + k, lo + k + nL), Part(q, lo, lo + k)); }
    if k > 0 { Withdraw(s, k, base); }
  }

  // What is left of the right part, k literals, is in front of the left part: see whether it
  // is enough, and minimise the left part under it if it is not.
  method MinimizeRest(s: Solver, p: array<Lit>, lo: nat, k: nat, nL: nat, nConfLimit: nat, ghost exact0: bool,
                      ghost total: nat)
    returns (ret: nat, ghost exact: bool)
    requires s.Ready() && s.qhead == |s.trail| && 1 <= nL && lo + k + nL <= p.Length && InRange(p[..], s.n)
    requires Refutes(s.f, s.assumed + Part(p[..], lo + k, lo + k + nL), Part(p[..], lo, lo + k))
    requires exact0 ==> Irredundant(s.f, s.assumed + Part(p[..], lo + k, lo + k + nL), Part(p[..], lo, lo + k))
    requires k < total && nL < total
    modifies s`assigns, s`levels, s`reasons, s`trail, s`qhead, s`lims, s`root, s`assumed, s`arena, s`learnts, s`wl,
             s`binary, s`nextHandle, s`order, s`orderpos, s`activity, s`varInc, s`polarity,
             s`tags, s`tagged, s`model, s`confFinal, s`conflicts, s`late, s`confLimit, p
    ensures s.assumed == old(s.assumed) && s.root == old(s.root) && ret <= k + nL
    ensures Reordered(old(p[..]), p[..], lo, lo + k + nL)
    ensures Refutes(s.f, s.assumed, Part(p[..], lo, lo + ret))
    ensures exact ==> Irredundant(s.f, s.assumed, Part(p[..], lo, lo + ret))
    ensures old(NoLimits(s, nConfLimit)) ==> NoLimits(s, nConfLimit) && (exact0 ==> exact)
    ensures 0 < ret ==> s.Ready() && s.qhead == |s.trail|
    ensures 0 < s.root ==> s.Withdrawable() || (s.Ready() && s.qhead == |s.trail|)
    decreases total, 1
  {
    hide Solver.Ready, Solver.Withdrawable, Solver.Core, Solver.CutBack, State.AssumedOk, State.NoneFalse, Refuted,
      LitSet, Irredundant, InRange, Reordered, Refutes, Part;
    s.ReadyAssumed();
    ghost var q, base := p[..], s.assumed;
    var failed := Assume(s, p, lo, lo + k);
    if failed > 0 {
      ret, exact := Minimize(s, p, lo, failed, nConfLimit);
      ReorderedWiden(q, p[..], lo, lo + failed, lo, lo + k + nL);
      return;
    }
    var status := SolveLimited(s, nConfLimit);
    if status == False {
      RightAlone(s, q, lo, k, nL, base, exact0);
      return k, exact0;
    }
    ret, exact := LeftUnderRight(s, p, lo, k, nL, nConfLimit, base, status == True, exact0, total);
  }

  lemma Nothing(base: seq<Lit>, r: seq<Lit>)
    ensures |r| == 0 ==> base + r == base
  {
  }

  // Minimise the left part under what is left of the right part.
  method LeftUnderRight(s: Solver, p: array<Lit>, lo: nat, k: nat, nL: nat, nConfLimit: nat,
                        ghost base: seq<Lit>, ghost decided: bool, ghost exact0: bool, ghost total: nat)
    returns (ret: nat, ghost exact: bool)
    requires s.Ready() && s.qhead == |s.trail| && 1 <= nL && lo + k + nL <= p.Length && InRange(p[..], s.n)
    requires s.assumed == base + Part(p[..], lo, lo + k) && s.root == |base| + k
    requires Refutes(s.f, base + Part(p[..], lo + k, lo + k + nL), Part(p[..], lo, lo + k))
    requires exact0 ==> Irredundant(s.f, base + Part(p[..], lo + k, lo + k + nL), Part(p[..], lo, lo + k))
    requires decided ==> !Refuted(s.f, LitSet(s.assumed))
    requires nL < total
    modifies s`assigns, s`levels, s`reasons, s`trail, s`qhead, s`lims, s`root, s`assumed, s`arena, s`learnts, s`wl,
             s`binary, s`nextHandle, s`order, s`orderpos, s`activity, s`varInc, s`polarity,
             s`tags, s`tagged, s`model, s`confFinal, s`conflicts, s`late, s`confLimit, p
    ensures s.assumed == base && s.root == |base| && ret <= k + nL && Reordered(old(p[..]), p[..], lo, lo + k + nL)
    ensures Refutes(s.f, base, Part(p[..], lo, lo + ret))
    ensures exact ==> Irredundant(s.f, base, Part(p[..], lo, lo + ret))
    ensures old(NoLimits(s, nConfLimit)) ==> NoLimits(s, nConfLimit) && (decided && exact0 ==> exact)
    ensures 0 < ret ==> s.Ready() && s.qhead == |s.trail|
    ensures 0 < s.root ==> s.Withdrawable() || (s.Ready() && s.qhead == |s.trail|)
    decreases total, 0
  {
    hide Solver.Ready, Solver.Withdrawable, Solver.Core, Solver.CutBack, State.AssumedOk, State.NoneFalse, Refuted,
      LitSet, Irredundant, InRange, Reordered, Refutes, Part;
    ghost var q := p[..];
    var at := lo + k;
    ghost var right, left := Part(q, lo, at), Part(q, at, at + nL);
    SwapParts(s.f, base, left, right);
    var m: nat := 1;
    exact := decided && exact0;
    if nL == 1 {
      if decided { OneLiteral(s.f, s.assumed, q, at); }
      ReorderedSelf(q, at, at + nL);
    } else {
      ghost var sure: bool;
      m, sure := Minimize(s, p, at, nL, nConfLimit);
      exact := exact && sure;
    }
    Nothing(base, right);
    if k > 0 { Withdraw(s, k, base); }
    ret := k + m;
    LeftFacts(s.f, base, q, p[..], lo, at, m, at + nL);
    if exact { Join(s.f, base, left, right, Part(p[..], at, at + m)); }
  }

  lemma LeftFacts(f: set<Clause>, base: seq<Lit>, q: seq<Lit>, t: seq<Lit>, lo: nat, at: nat, m: nat, end: nat)
    requires lo <= at && at + m <= end <= |q| == |t| && Reordered(q, t, at, end)
    requires Refutes(f, base + Part(q, lo, at), Part(t, at, at + m))
    ensures Reordered(q, t, lo, end) && Part(t, lo, at + m) == Part(q, lo, at) + Part(t, at, at + m)
    ensures Refutes(f, base, Part(t, lo, at + m)) && forall x :: x in Part(t, at, at + m) ==> x in Part(q, at, end)
  {
    hide Reordered, Part, Refutes;
    ReorderedLength(q, t, at, end);
    ReorderedWiden(q, t, at, end, lo, end);
    ReorderedLeft(q, t, lo, at, end);
    ReorderedMembers(q, t, at, end, at + m);
    PartJoin(t, lo, at, at + m);
    RefutesTogether(f, base, Part(q, lo, at), Part(t, at, at + m));
  }
}
