// The conflict-driven solver: its fields, propagation, conflict analysis and search.
module SatSolver {
  import opened Cnf
  import opened SatState
  import opened SatSteps
  import opened SatWatches
  import opened SatPropagation
  import opened SatHeap
  import opened SatUndo
  import opened SatAnalysis
  import opened SatClauses
  import opened SatLevels
  import opened SatVerdict
  import opened SatCalls
  import opened SatInput
  import opened SatRank
  import opened SatRestarts
  import opened SatGrow
  import opened SatTight
  import opened SatAdd
  import opened SatCount
  import opened SatCore
  import opened SatRedundant
  import opened SatUip

  class Solver {
    var n: nat
    ghost var f: set<Clause>
    var assigns: seq<Value>
    var levels: seq<nat>
    var reasons: seq<Reason>
    var trail: seq<Lit>
    var qhead: nat
    var lims: seq<nat>
    var root: nat
    ghost var assumed: seq<Lit>
    var arena: Arena
    var learnts: set<nat>
    var wl: Watches
    var binary: seq<Lit>        // the special binary clause of a conflict
    var nextHandle: nat

    var order: seq<nat>         // heap of variables
    var orderpos: seq<int>
    var activity: seq<nat>
    var varInc: nat
    var polarity: seq<bool>
    var tags: seq<nat>
    var tagged: seq<nat>
    var model: seq<bool>
    var confFinal: seq<Lit>
    var conflicts: nat
    var confLimit: nat          // 0: no limit
    var timeLimit: bool         // a limit on time, on propagations or by the caller is set
    var late: bool              // that limit has been reached
    var noRestarts: bool
    var skipSimplify: bool
    var learntMax: nat

    ghost function St(): State
      reads this`n, this`f, this`assigns, this`levels, this`reasons, this`trail, this`lims, this`root, this`assumed,
            this`arena, this`learnts, this`wl
    {
      State(n, f, assigns, levels, reasons, trail, lims, root, assumed, arena, learnts, wl)
    }

    method Enqueue(l: Lit, from: Reason) returns (ok: bool)
      requires l.v < |assigns| == |levels| == |reasons|
      modifies this`assigns, this`levels, this`reasons, this`trail
      ensures old(St()).Unassigned(l) ==> ok && St() == Enqueued(old(St()), l, from)
      ensures !old(St()).Unassigned(l) ==> St() == old(St()) && (ok <==> St().IsTrue(l))
    {
      if assigns[l.v] != X {
        return assigns[l.v] == ValueOf(l);
      }
      assigns := assigns[l.v := ValueOf(l)];
      levels := levels[l.v := |lims|];
      reasons := reasons[l.v := from];
      trail := trail + [l];
      ok := true;
    }

    // The literals of the clause found false.
    function ConflictLits(c: Conflict): seq<Lit>
      requires c.ClauseConflict? ==> c.h in arena
      reads this`arena, this`binary
    {
      match c
      case NoConflict => []
      case BinaryConflict => binary
      case ClauseConflict(h) => arena[h]
    }

    ghost predicate Stopped(t0: seq<Lit>, p: Lit, c: Conflict)
      reads this`n, this`f, this`assigns, this`levels, this`reasons, this`trail, this`lims, this`root, this`assumed,
            this`arena, this`learnts, this`wl, this`binary
    {
      && St().Inv() && St().NoneFalse(t0) && c != NoConflict && (c.ClauseConflict? ==> c.h in arena)
      && Conflicting(St(), ConflictLits(c), p) && Present(St(), ConflictLits(c))
    }

    // Visit entry j, the binary watch q, in the list of p: q has to be true.
    method VisitBinary(p: Lit, q: Lit, ghost j: nat, ghost t0: seq<Lit>, ghost t: seq<Lit>) returns (confl: Conflict)
      requires Visiting(St(), t0, t, p, j) && p in wl && j < |wl[p]| && wl[p][j] == BinWatch(q)
      modifies this`assigns, this`levels, this`reasons, this`trail, this`binary
      ensures GrownBy(old(St()), St(), p) && wl == old(wl)
      ensures confl == NoConflict ==> Visiting(St(), t0, t, p, j + 1)
      ensures confl != NoConflict ==> Stopped(t0, p, confl)
    {
      hide Entails, Grown, KeepsOverdue, Conflicting, Visiting, State.Inv, State.NoneFalse;
      ghost var s := St();
      BinaryVisited(s, t0, t, p, q, j);
      if assigns[q.v] == ValueOf(q) {
        return NoConflict;
      }
      var ok := Enqueue(q, BinReason(p));
      if !ok {
        binary := [q, p.Not()];
        return BinaryConflict;
      }
      return NoConflict;
    }

    // Put the watched literal that p makes false in position 1.
    method FalseLiteralSecond(p: Lit, h: nat, ghost t0: seq<Lit>, ghost t: seq<Lit>, ghost j: nat)
      requires Visiting(St(), t0, t, p, j) && h in arena && |arena[h]| >= 3
      requires arena[h][0] == p.Not() || arena[h][1] == p.Not()
      modifies this`arena
      ensures Visiting(St(), t0, t, p, j) && GrownBy(old(St()), St(), p)
      ensures arena.Keys == old(arena).Keys && |arena[h]| == |old(arena)[h]| && arena[h][1] == p.Not()
    {
      hide Entails, Grown, KeepsOverdue, Visiting;
      if arena[h][0] == p.Not() {
        SwapStep(St(), t0, t, p, j, h);
        arena := arena[h := Swap(arena[h], 0, 1)];
      } else {
        VisitingReflexive(St(), t0, t, p, j);
      }
    }

    // Look for a literal of the clause, from position 2 on, that is not false.
    method FindWatch(h: nat) returns (k: nat)
      requires h in arena && |arena[h]| >= 2 && forall i :: 0 <= i < |arena[h]| ==> arena[h][i].v < |assigns|
      ensures 2 <= k <= |arena[h]|
      ensures k < |arena[h]| ==> !St().IsFalse(arena[h][k])
      ensures forall i :: 2 <= i < k ==> St().IsFalse(arena[h][i])
    {
      k := 2;
      while k < |arena[h]|
        invariant 2 <= k <= |arena[h]|
        invariant forall i :: 2 <= i < k ==> St().IsFalse(arena[h][i])
      {
        if assigns[arena[h][k].v] != ValueOf(arena[h][k].Not()) {
          return;
        }
        k := k + 1;
      }
    }

    method MoveWatch(p: Lit, h: nat, k: nat, j: nat, ghost t0: seq<Lit>, ghost t: seq<Lit>)
      requires Visiting(St(), t0, t, p, j) && h in arena && 2 <= k < |arena[h]| && arena[h][0] !in trail
      requires p in wl && j < |wl[p]| && wl[p][j] == ClauseWatch(h) && arena[h][1] == p.Not()
      requires !St().IsFalse(arena[h][k])
      modifies this`arena, this`wl
      ensures Visiting(St(), t0, t, p, j) && GrownBy(old(St()), St(), p)
      ensures p in wl && |wl[p]| == |old(wl)[p]| - 1
    {
      hide Entails, Grown, KeepsOverdue, Visiting, Swap, RemoveAt;
      ghost var s := St();
      MoveStep(s, t0, t, h, k, p, j);
      var w := arena[h][k].Not();
      wl := wl[w := wl[w] + [ClauseWatch(h)]];
      arena := arena[h := Swap(arena[h], 1, k)];
      wl := wl[p := RemoveAt(wl[p], j)];
      assert St() == Moved(s, h, k, p, j);
    }

    // Every literal but the first is false: it has to be true.
    method UnitOrConflict(p: Lit, h: nat, ghost j: nat, ghost t0: seq<Lit>, ghost t: seq<Lit>) returns (ok: bool)
      requires Visiting(St(), t0, t, p, j) && h in arena && |arena[h]| >= 3
      requires arena[h][1] == p.Not() && arena[h][0] !in trail
      requires forall i :: 2 <= i < |arena[h]| ==> St().IsFalse(arena[h][i])
      modifies this`assigns, this`levels, this`reasons, this`trail
      ensures Visiting(St(), t0, t, p, j) && GrownBy(old(St()), St(), p)
      ensures ok ==> arena[h][0] in trail
      ensures !ok ==> Conflicting(St(), arena[h], p)
    {
      hide Entails, Conflicting, Visiting, Grown, KeepsOverdue, State.Inv;
      ghost var s := St();
      VisitingInv(s, t0, t, p, j);
      InvLevels(s);
      UnitStep(s, p, h);
      VisitingReflexive(s, t0, t, p, j);
      if s.Unassigned(arena[h][0]) {
        EnqueuedVisiting(s, t0, t, p, arena[h][0], j, ClauseReason(h));
        ForcedBy(s, arena[h][0], ClauseReason(h), p);
      }
      ok := Enqueue(arena[h][0], ClauseReason(h));
    }

    method VisitClause(p: Lit, h: nat, j: nat, ghost t0: seq<Lit>, ghost t: seq<Lit>)
      returns (next: nat, confl: Conflict)
      requires Visiting(St(), t0, t, p, j) && p in wl && j < |wl[p]| && wl[p][j] == ClauseWatch(h)
      modifies this`assigns, this`levels, this`reasons, this`trail, this`arena, this`wl
      ensures GrownBy(old(St()), St(), p) && p in wl
      ensures confl == NoConflict ==> Visiting(St(), t0, t, p, next) && 0 <= |wl[p]| - next < |old(wl)[p]| - j
      ensures confl != NoConflict ==> Stopped(t0, p, confl)
    {
      hide Entails, Grown, KeepsOverdue, Visiting, Conflicting, State.Inv;
      ghost var s0 := St();
      VisitingInv(s0, t0, t, p, j);
      ClauseEntry(s0, p, h, j);
      FalseLiteralSecond(p, h, t0, t, j);
      ghost var s1 := St();
      VisitingInv(s1, t0, t, p, j);
      ClauseVars(s1, h);
      if assigns[arena[h][0].v] == ValueOf(arena[h][0]) {
        TrueWatchVisited(s1, t0, t, p, j, h);
        return j + 1, NoConflict;
      }
      next, confl := VisitUndecided(p, h, j, t0, t);
      GrownByTransitive(s0, s1, St(), p);
    }

    // The first literal of the clause is not true and the second is false.
    method VisitUndecided(p: Lit, h: nat, j: nat, ghost t0: seq<Lit>, ghost t: seq<Lit>)
      returns (next: nat, confl: Conflict)
      requires Visiting(St(), t0, t, p, j) && p in wl && j < |wl[p]| && wl[p][j] == ClauseWatch(h)
      requires h in arena && |arena[h]| >= 3 && arena[h][1] == p.Not() && arena[h][0] !in trail
      modifies this`assigns, this`levels, this`reasons, this`trail, this`arena, this`wl
      ensures GrownBy(old(St()), St(), p) && p in wl
      ensures confl == NoConflict ==> Visiting(St(), t0, t, p, next) && 0 <= |wl[p]| - next < |old(wl)[p]| - j
      ensures confl != NoConflict ==> Stopped(t0, p, confl)
    {
      hide Entails, Grown, KeepsOverdue, Conflicting, Visited, State.Inv, State.NoneFalse;
      VisitingVars(St(), t0, t, p, j, h);
      var k := FindWatch(h);
      if k < |arena[h]| {
        MoveWatch(p, h, k, j, t0, t);
        return j, NoConflict;
      }
      var ok := UnitOrConflict(p, h, j, t0, t);
      if !ok {
        return j, ClauseConflict(h);
      }
      TrueWatchVisited(St(), t0, t, p, j, h);
      return j + 1, NoConflict;
    }

    method VisitEntry(p: Lit, j: nat, ghost t0: seq<Lit>, ghost t: seq<Lit>) returns (next: nat, confl: Conflict)
      requires Visiting(St(), t0, t, p, j) && p in wl && j < |wl[p]|
      modifies this`assigns, this`levels, this`reasons, this`trail, this`arena, this`wl, this`binary
      ensures GrownBy(old(St()), St(), p) && p in wl
      ensures confl == NoConflict ==> Visiting(St(), t0, t, p, next) && 0 <= |wl[p]| - next < |old(wl)[p]| - j
      ensures confl != NoConflict ==> Stopped(t0, p, confl)
    {
      hide *;
      match wl[p][j] {
        case BinWatch(q) =>
          confl := VisitBinary(p, q, j, t0, t);
          next := j + 1;
        case ClauseWatch(h) =>
          next, confl := VisitClause(p, h, j, t0, t);
      }
    }

    // Propagation has stopped at the list of the literal before qhead.
    ghost predicate Halted(lo: nat, confl: Conflict)
      reads this`n, this`f, this`assigns, this`levels, this`reasons, this`trail, this`lims, this`root, this`assumed,
            this`arena, this`learnts, this`wl, this`binary
      reads this`qhead
    {
      lo < qhead <= |trail| && Stopped(trail[lo..qhead - 1], trail[qhead - 1], confl)
    }

    // Visit the whole watch list of p.
    method VisitAll(p: Lit, ghost t0: seq<Lit>, ghost t: seq<Lit>) returns (confl: Conflict)
      requires Visiting(St(), t0, t, p, 0)
      modifies this`assigns, this`levels, this`reasons, this`trail, this`arena, this`wl, this`binary
      ensures p in wl && (confl == NoConflict ==> Visiting(St(), t0, t, p, |wl[p]|))
      ensures confl != NoConflict ==> Stopped(t0, p, confl)
      ensures old(p in wl && wl[p] == []) ==> confl == NoConflict && St() == old(St())
      ensures GrownBy(old(St()), St(), p)
    {
      hide Entails, Grown, KeepsOverdue, Conflicting, Visiting, State.Inv, Solver.Stopped;
      ghost var s0 := St();
      VisitingReflexive(s0, t0, t, p, 0);
      VisitingInv(s0, t0, t, p, 0);
      var j: nat := 0;
      while j < |wl[p]|
        invariant p in wl && j <= |wl[p]|
        invariant Visiting(St(), t0, t, p, j) && GrownBy(s0, St(), p)
        invariant s0.wl[p] == [] ==> St() == s0
        decreases |wl[p]| - j
      {
        ghost var s := St();
        j, confl := VisitEntry(p, j, t0, t);
        GrownByTransitive(s0, s, St(), p);
        if confl != NoConflict {
          return;
        }
        VisitingBound(St(), t0, t, p, j);
      }
      confl := NoConflict;
    }

    // The list of the literal before qhead is visited. Nothing is known of the trail before position lo.
    method VisitList(p: Lit, ghost lo: nat) returns (confl: Conflict)
      requires St().Inv() && 0 < qhead <= |trail| && St().ClearFrom(lo, qhead - 1) && Fresh(St(), p, qhead - 1)
      modifies this`assigns, this`levels, this`reasons, this`trail, this`arena, this`wl, this`binary
      ensures confl == NoConflict ==> St().Inv() && St().ClearFrom(lo, qhead)
      ensures confl == NoConflict && old(St().SettledTo(qhead - 1)) ==> St().SettledTo(qhead)
      ensures confl != NoConflict ==> Halted(lo, confl)
      ensures old(p in wl && wl[p] == []) ==> confl == NoConflict && St() == old(St())
      ensures GrownBy(old(St()), St(), p)
    {
      hide Entails, Grown, KeepsOverdue, Conflicting, Visiting, State.Inv, State.NoneFalse, State.SettledTo,
        Solver.Stopped;
      ghost var s0 := St();
      ghost var t0, t := trail[lo..qhead - 1], trail[lo..qhead];
      StartVisit(s0, lo, qhead - 1);
      confl := VisitAll(p, t0, t);
      EndVisit(s0, St(), lo, qhead, t0, t);
      if confl == NoConflict { ListVisited(s0, St(), lo, qhead, p, t0, t); }
    }

    // sat_solver_propagate when no clause is false among what has been visited.
    method Propagate() returns (confl: Conflict)
      requires St().Inv() && St().QueueOk(qhead) && St().NoneFalse(trail[..qhead])
      modifies this`assigns, this`levels, this`reasons, this`trail, this`qhead, this`arena, this`wl, this`binary
      ensures old(qhead) <= qhead <= |trail|
      ensures confl == NoConflict ==> qhead == |trail| && St().Inv() && St().NoneFalse(trail)
      ensures confl == NoConflict && old(St().SettledTo(qhead)) ==> St().Closed(|trail|) && Propagated(St())
      ensures old(Saturated()) ==> CutsKept() && (confl == NoConflict ==> Saturated())
      ensures confl != NoConflict ==> old(qhead) < qhead && Stopped(trail[..qhead - 1], trail[qhead - 1], confl)
      ensures old(qhead) == |old(trail)| ==> confl == NoConflict && St() == old(St()) && qhead == old(qhead)
      ensures old(St().Idle(qhead)) ==> confl == NoConflict && St() == old(St())
      ensures Grown(old(St()), St()) && KeptOverdue(old(St()), St(), old(qhead))
    {
      hide Entails, Grown, KeptOverdue, Conflicting, State.Inv, State.NoneFalse, State.Settled, State.QueueOk,
        State.Idle, Solver.Stopped, State.Closed, CutsClosed, Propagated;
      ghost var s0 := St();
      QueueStart(s0, qhead);
      PrefixFrom(trail, qhead);
      EmptyQueue(s0, qhead);
      confl := PropagateFrom(0);
      PrefixFrom(trail, qhead);
      if confl != NoConflict { PrefixFrom(trail, qhead - 1); }
      SettledClosed(St(), qhead);
      KeptTight(s0, St(), old(qhead));
    }

    // The work of sat_solver_propagate when nothing is known of the trail before position lo.
    method PropagateFrom(ghost lo: nat) returns (confl: Conflict)
      requires St().Inv() && St().QueueOk(qhead) && St().ClearFrom(lo, qhead)
      modifies this`assigns, this`levels, this`reasons, this`trail, this`qhead, this`arena, this`wl, this`binary
      ensures old(qhead) <= qhead <= |trail|
      ensures confl == NoConflict ==> qhead == |trail| && St().Inv() && St().ClearFrom(lo, qhead)
      ensures confl == NoConflict && old(St().SettledTo(qhead)) ==> St().SettledTo(qhead)
      ensures confl != NoConflict ==> old(qhead) < qhead && Halted(lo, confl)
      ensures old(St().Idle(qhead)) ==> confl == NoConflict && St() == old(St())
      ensures Grown(old(St()), St()) && KeptOverdue(old(St()), St(), old(qhead))
    {
      hide Entails, Grown, KeepsOverdue, KeptOverdue, Conflicting, State.Inv, State.ClearFrom, State.SettledTo,
        State.QueueOk, State.Idle, Solver.Halted, Fresh;
      ghost var s0 := St();
      OverdueSelf(s0, qhead);
      QueueStart(s0, qhead);
      confl := NoConflict;
      while confl == NoConflict && qhead < |trail|
        invariant old(qhead) <= qhead <= |trail| && Grown(s0, St())
        invariant confl == NoConflict ==> St().Inv() && St().QueueOk(qhead) && St().ClearFrom(lo, qhead)
        invariant confl == NoConflict && s0.SettledTo(old(qhead)) ==> St().SettledTo(qhead)
        invariant confl != NoConflict ==> old(qhead) < qhead && Halted(lo, confl)
        invariant s0.Idle(old(qhead)) ==> confl == NoConflict && St() == s0
        invariant KeptOverdue(s0, St(), old(qhead))
        decreases confl == NoConflict, n - qhead
      {
        ghost var s := St();
        QueueNext(s, qhead);
        IdleNext(s0, old(qhead), qhead);
        var p := trail[qhead];
        qhead := qhead + 1;
        confl := VisitList(p, lo);
        QueueStep(s0, s, St(), old(qhead), qhead, p);
      }
    }

    // What has been propagated stays so when levels are cut.
    ghost predicate Saturated()
      reads this`n, this`f, this`assigns, this`levels, this`reasons, this`trail, this`lims, this`root, this`assumed,
            this`arena, this`learnts, this`wl
      reads this`qhead
    {
      Tight(St(), qhead)
    }

    // Everything has been propagated and stays so when levels are cut.
    ghost predicate Propagating()
      reads this`n, this`f, this`assigns, this`levels, this`reasons, this`trail, this`lims, this`root, this`assumed,
            this`arena, this`learnts, this`wl
      reads this`qhead
    {
      Saturated() && qhead == |trail|
    }

    lemma PropagatingSaturated()
      ensures Propagating() ==> Saturated()
    {
    }

    ghost predicate CutsKept()
      reads this`n, this`f, this`assigns, this`levels, this`reasons, this`trail, this`lims, this`root, this`assumed,
            this`arena, this`learnts, this`wl
    {
      CutsClosed(St())
    }

    // ---- The variable order ----

    ghost predicate Ordered()
      reads this`n, this`activity, this`order, this`orderpos
    {
      HeapOk(n, activity, order, orderpos)
    }

    // order_update: move v up to its place.
    method OrderUpdate(v: nat)
      requires |activity| == n && Indexed(n, order, orderpos) && v < n && orderpos[v] != -1
      requires OrderedBelow(activity, order, orderpos[v])
      modifies this`order, this`orderpos
      ensures Ordered() && |orderpos| == |old(orderpos)|
      ensures forall u :: 0 <= u < n ==> (orderpos[u] == -1 <==> old(orderpos)[u] == -1)
    {
      var i := orderpos[v];
      var x := order[i];
      assert order[i := x] == order && orderpos[x := i] == orderpos;
      HoleAll(n, activity, order, orderpos, x, i);
      while i != 0 && activity[x] > activity[order[Parent(i)]]
        invariant Hole(n, activity, order, orderpos, x, i) && SameMembers(orderpos, old(orderpos), x)
        invariant OrderedBelow(activity, order[i := x], i)
        invariant forall k :: 0 <= k < |order| && k != i ==> order[k] < n
        decreases i
      {
        var parent := Parent(i);
        SiftUpMove(n, activity, order, orderpos, old(orderpos), x, i);
        order := order[i := order[parent]];
        orderpos := orderpos[order[i] := i];
        i := parent;
        HoleAll(n, activity, order, orderpos, x, i);
      }
      SiftUpFill(n, activity, order, orderpos, x, i);
      order := order[i := x];
      orderpos := orderpos[x := i];
    }

    // order_unassigned: back into the heap.
    method OrderUnassigned(v: nat)
      requires Ordered() && v < n
      modifies this`order, this`orderpos
      ensures Ordered() && orderpos[v] != -1
      ensures forall u :: 0 <= u < n && u != v ==> (orderpos[u] == -1 <==> old(orderpos)[u] == -1)
    {
      if orderpos[v] == -1 {
        orderpos := orderpos[v := |order|];
        order := order + [v];
        assert OrderedBelow(activity, order, orderpos[v]) by {
          forall j | 0 < j < |order| && j != orderpos[v] ensures Above(activity, order, Parent(j), j) {
            assert Above(activity, old(order), Parent(j), j);
          }
        }
        OrderUpdate(v);
      }
    }

    // Remove the first variable of the heap and restore the order from the top.
    method OrderPop() returns (next: nat)
      requires Ordered() && order != []
      modifies this`order, this`orderpos
      ensures Ordered() && next == old(order)[0] && next < n && orderpos[next] == -1 && |order| == |old(order)| - 1
      ensures forall u :: 0 <= u < n && u != next ==> (orderpos[u] == -1 <==> old(orderpos)[u] == -1)
    {
      next := order[0];
      var size := |order| - 1;
      var x := order[size];
      order := order[..size];
      orderpos := orderpos[next := -1];
      if size > 0 {
        SiftDown(x);
      }
    }

    // The hole at the top of the heap moves down until x fits into it.
    method SiftDown(x: nat)
      requires |activity| == n && x < n && |orderpos| == n && order != [] && orderpos[x] == |order|
      requires Indexed(n, order[0 := x], orderpos[x := 0]) && OrderedAbove(activity, order[0 := x], 0)
      modifies this`order, this`orderpos
      ensures Ordered() && |order| == |old(order)|
      ensures forall u :: 0 <= u < n && u != x ==> (orderpos[u] == -1 <==> old(orderpos)[u] == -1)
      ensures orderpos[x] != -1
    {
      hide Hole, OrderedAbove, Indexed;
      var size := |order|;
      var i, child := 0, 1;
      TopHole(n, activity, order, orderpos, x);
      HoleAll(n, activity, order, orderpos, x, i);
      while child < size
        invariant size == |order| && 0 <= i < size && child == 2 * i + 1
        invariant Hole(n, activity, order, orderpos, x, i) && SameMembers(orderpos, old(orderpos), x)
        invariant OrderedAbove(activity, order[i := x], i)
        invariant forall k :: 0 <= k < |order| && k != i ==> order[k] < n
        decreases size - i
      {
        if child + 1 < size && activity[order[child]] < activity[order[child + 1]] {
          child := child + 1;
        }
        assert LargerChild(activity, order, i, child);
        if activity[x] >= activity[order[child]] {
          break;
        }
        SiftDownMove(n, activity, order, orderpos, old(orderpos), x, i, child);
        order := order[i := order[child]];
        orderpos := orderpos[order[i] := i];
        i := child;
        child := 2 * child + 1;
        HoleAll(n, activity, order, orderpos, x, i);
      }
      SiftDownFill(n, activity, order, orderpos, x, i);
      order := order[i := x];
      orderpos := orderpos[order[i] := i];
    }

    // order_select: an unassigned variable, chosen at random or of largest activity, or
    // none when the heap has run out.
    method OrderSelect() returns (next: int, random: bool)
      requires Ordered() && |assigns| == n
      modifies this`order, this`orderpos
      ensures Ordered() && |orderpos| == |old(orderpos)|
      ensures next == -1 <==> !(0 <= next < n)
      ensures next == -1 ==> forall v :: 0 <= v < n ==> orderpos[v] == -1
      ensures next != -1 ==> assigns[next] == X
      ensures forall v :: 0 <= v < n && orderpos[v] == -1 && old(orderpos)[v] != -1 ==> v == next || assigns[v] != X
      ensures next != -1 && !random ==>
        forall v :: 0 <= v < n && old(orderpos)[v] != -1 && assigns[v] == X ==> activity[v] <= activity[next]
    {
      random := *;
      if random && n > 0 {
        next :| 0 <= next < n;
        if assigns[next] == X {
          return;
        }
      }
      random := false;
      while order != []
        invariant Ordered() && |orderpos| == |old(orderpos)|
        invariant forall v :: 0 <= v < n && orderpos[v] == -1 && old(orderpos)[v] != -1 ==> assigns[v] != X
        decreases |order|
      {
        label Before:
        var v := OrderPop();
        if assigns[v] == X {
          next := v;
          forall u | 0 <= u < n && old(orderpos)[u] != -1 && assigns[u] == X ensures activity[u] <= activity[next] {
            RootIsMaximum(activity, old@Before(order), old@Before(orderpos)[u]);
          }
          return;
        }
      }
      next := -1;
    }

    // act_var_bump for integer activities.
    method ActVarBump(v: nat)
      requires Ordered() && v < n
      modifies this`activity, this`varInc, this`order, this`orderpos
      ensures Ordered() && |orderpos| == |old(orderpos)|
      ensures forall u :: 0 <= u < n ==> (orderpos[u] == -1 <==> old(orderpos)[u] == -1)
    {
      hide Bumped, OrderedBelow, HeapOrdered;
      HeapSize(n, activity, order, orderpos);
      BumpKeepsOrder(n, activity, order, orderpos, varInc, v);
      var bumped := Bumped(activity, varInc, v);
      activity := bumped.0;
      varInc := bumped.1;
      if orderpos[v] != -1 {
        OrderUpdate(v);
      }
    }

    method ActVarDecay()
      modifies this`varInc
    {
      varInc := varInc + varInc / 16;
    }

    // ---- Undoing assignments ----

    // Unassign the variables of the trail from position bound on.
    method Unassign(bound: nat)
      requires St().TrailOk() && bound <= |trail| && |polarity| == n && lims != [] && lims[|lims| - 1] <= |trail|
      modifies this`assigns, this`reasons, this`polarity
      ensures |assigns| == n && |reasons| == n && |polarity| == n
      ensures Saved(trail, bound, lims[|lims| - 1], old(polarity), polarity)
      ensures forall k :: bound <= k < |trail| ==> trail[k].v < n && assigns[trail[k].v] == X
      ensures Unset(trail, bound, old(assigns), assigns) && Unset(trail, bound, old(reasons), reasons)
    {
      hide Unset, Saving, Saved, State.TrailOk;
      ghost var s := St();
      TrailSizes(s);
      AllSet(trail, bound, assigns);
      AllSet(trail, bound, reasons);
      SavedNone(trail, bound, lims[|lims| - 1], polarity);
      var lastLev := lims[|lims| - 1];
      var c := |trail| - 1;
      while c >= bound
        invariant bound - 1 <= c < |trail|
        invariant |assigns| == n && |reasons| == n && |polarity| == n
        invariant forall k :: 0 <= k < |trail| ==> trail[k].v < n
        invariant forall k :: c < k < |trail| ==> assigns[trail[k].v] == X
        invariant Unset(trail, bound, old(assigns), assigns) && Unset(trail, bound, old(reasons), reasons)
        invariant Saving(trail, bound, lastLev, c + 1, old(polarity), polarity)
      {
        var x := trail[c].v;
        UnsetMore(trail, bound, old(assigns), assigns, c, X);
        UnsetMore(trail, bound, old(reasons), reasons, c, NoReason);
        assigns := assigns[x := X];
        reasons := reasons[x := NoReason];
        SavedOne(s, bound, lastLev, c, old(polarity), polarity);
        if c < lastLev {
          polarity := polarity[x := !trail[c].neg];
        }
        c := c - 1;
      }
      SavedAll(trail, bound, lastLev, old(polarity), polarity);
    }

    // Put the variables of trail[bound..qhead] back into the heap.
    method Reinsert(bound: nat)
      requires Ordered() && qhead <= |trail| && (forall k :: 0 <= k < |trail| ==> trail[k].v < n)
      requires bound <= |trail| && Absent(orderpos, trail[..qhead])
      modifies this`order, this`orderpos
      ensures Ordered() && Absent(orderpos, trail[..bound])
    {
      var c := qhead - 1;
      while c >= bound
        invariant Ordered() && c < qhead && (qhead <= bound || bound - 1 <= c)
        invariant forall k :: c < k < qhead && bound <= k ==> orderpos[trail[k].v] != -1
        invariant Absent(orderpos, trail[..qhead])
      {
        OrderUnassigned(trail[c].v);
        c := c - 1;
      }
      forall v | 0 <= v < |orderpos| && orderpos[v] == -1
        ensures Lit(v, false) in trail[..bound] || Lit(v, true) in trail[..bound]
      {
        var l := if Lit(v, false) in trail[..qhead] then Lit(v, false) else Lit(v, true);
        var k :| 0 <= k < qhead && trail[..qhead][k] == l;
        assert trail[k] == l;
        if k < bound { assert trail[..bound][k] == l; }
      }
    }

    // sat_solver_canceluntil for a level that is open.
    method CancelUntil(level: nat)
      requires St().TrailOk() && St().LimsOk() && level < |lims|
      requires Ordered() && |polarity| == n && qhead <= |trail| && Absent(orderpos, trail[..qhead])
      modifies this`assigns, this`reasons, this`polarity, this`order, this`orderpos, this`trail, this`qhead, this`lims
      ensures CancelledTo(old(St()), St(), level) && root == old(root) && assumed == old(assumed)
      ensures Saved(old(trail), old(lims[level]), old(lims[|lims| - 1]), old(polarity), polarity)
      ensures Ordered() && |polarity| == n && qhead == |trail| && Absent(orderpos, trail[..qhead])
    {
      hide HeapOk, Absent, Unset, Saved;
      var bound := lims[level];
      Unassign(bound);
      Reinsert(bound);
      trail := trail[..bound];
      qhead := bound;
      lims := lims[..level];
      assert trail[..qhead] == trail;
    }

    // ---- Between calls ----

    ghost predicate Misc()
      reads this`n, this`polarity, this`model, this`tags, this`tagged, this`arena, this`nextHandle
    {
      |polarity| == n && ModelSized() && TagsClear() && HandlesBelow()
    }

    ghost predicate ModelSized()
      reads this`n, this`model
    {
      |model| == n
    }

    ghost predicate HandlesBelow()
      reads this`arena, this`nextHandle
    {
      forall h :: h in arena ==> h < nextHandle
    }

    ghost predicate TagsClear()
      reads this`n, this`tags, this`tagged
    {
      |tags| == n && tagged == [] && forall v :: 0 <= v < n ==> tags[v] == 0
    }

    ghost predicate Core()
      reads this`n, this`f, this`assigns, this`levels, this`reasons, this`trail, this`lims, this`root, this`assumed,
            this`arena, this`learnts, this`wl
      reads this`qhead, this`activity, this`order, this`orderpos, this`polarity, this`model, this`tags, this`tagged,
            this`nextHandle
    {
      && St().Inv() && qhead <= |trail| && Ordered() && Absent(orderpos, trail[..qhead]) && Misc()
    }

    // Ready for a new clause, a new assumption or a search.
    ghost predicate Ready()
      reads this`n, this`f, this`assigns, this`levels, this`reasons, this`trail, this`lims, this`root, this`assumed,
            this`arena, this`learnts, this`wl
      reads this`qhead, this`activity, this`order, this`orderpos, this`polarity, this`model, this`tags, this`tagged,
            this`nextHandle
    {
      && Core() && St().NoneFalse(trail[..qhead]) && root == |lims| && (qhead == |trail| || lims == [])
      && St().AssumedOk(root)
    }

    // Some assumption is open: it can be popped.
    ghost predicate Poppable()
      reads this`n, this`f, this`assigns, this`levels, this`reasons, this`trail, this`lims, this`root, this`assumed,
            this`arena, this`learnts, this`wl
      reads this`qhead, this`activity, this`order, this`orderpos, this`polarity, this`model, this`tags, this`tagged,
            this`nextHandle
    {
      Core() && 0 < root == |lims| && St().AssumedOk(root - 1)
    }

    // Popping the newest assumption leaves a solver that is ready.
    ghost predicate Withdrawable()
      reads this`n, this`f, this`assigns, this`levels, this`reasons, this`trail, this`lims, this`root, this`assumed,
            this`arena, this`learnts, this`wl
      reads this`qhead, this`activity, this`order, this`orderpos, this`polarity, this`model, this`tags, this`tagged,
            this`nextHandle
    {
      Poppable() && St().SafeCut(root - 1)
    }

    // The solver is in state s cut at the given level, and nothing waits in the queue.
    ghost predicate CutBack(s: State, level: nat)
      reads this`n, this`f, this`assigns, this`levels, this`reasons, this`trail, this`lims, this`root, this`assumed,
            this`arena, this`learnts, this`wl
      reads this`qhead
    {
      CancelledTo(s, St(), level) && qhead == |trail|
    }

    // Remove the assumptions from the given level on.
    method CancelAssumptions(level: nat)
      requires Poppable() && level < root
      modifies this`assigns, this`reasons, this`polarity, this`order, this`orderpos, this`trail, this`qhead, this`lims,
               this`root, this`assumed
      ensures root == level && assumed == old(assumed)[..level] && CutBack(old(St()), level)
      ensures Saved(old(trail), old(lims[level]), old(lims[|lims| - 1]), old(polarity), polarity)
      ensures Core() && root == |lims| && qhead == |trail| && St().AssumedOk(root)
      ensures Ready() <==> old(St().SafeCut(level))
      ensures old(CutsKept()) ==> (Saturated() <==> !old(St().Overdue(lims[level])))
      ensures level == 0 && old(CutsKept()) ==> Saturated()
    {
      hide Entails, State.Inv, State.NoneFalse, State.SafeCut, State.AssumedOk, Absent, HeapOk, CancelledTo, Saved,
        CutsClosed, Tight;
      ghost var s := St();
      PopStart(s);
      CancelUntil(level);
      root := level;
      assumed := assumed[..root];
      CancelFrame(s, St(), level);
      PoppedReady(s, St(), level);
      assert trail[..qhead] == trail;
    }

    // sat_solver_pop.
    method Pop()
      requires Poppable()
      modifies this`assigns, this`reasons, this`polarity, this`order, this`orderpos, this`trail, this`qhead, this`lims,
               this`root, this`assumed
      ensures root == old(root) - 1 && assumed == old(assumed)[..root] && CutBack(old(St()), root)
      ensures Saved(old(trail), old(lims[root - 1]), old(lims[|lims| - 1]), old(polarity), polarity)
      ensures Core() && root == |lims| && qhead == |trail| && St().AssumedOk(root)
      ensures Ready() <==> old(Withdrawable())
      ensures old(CutsKept()) ==> (Saturated() <==> !old(St().Overdue(lims[root - 1])))
      ensures old(CutsKept()) ==> (Saturated() <==> old(St().Closed(lims[root - 1])))
    {
      hide Entails, State.Inv, State.NoneFalse, State.SafeCut, State.AssumedOk, Absent, HeapOk, Solver.Misc,
        CancelledTo, Saved, CutsClosed, Tight, State.Overdue, State.Closed;
      if CutsKept() { ClosedExactly(St(), root - 1); }
      CancelAssumptions(root - 1);
    }

    // ---- Conflict analysis ----

    // Tag a variable and bump its activity.
    method TagVar(v: nat)
      requires Ordered() && v < n == |tags| && TaggedOk(tags, tagged) && tags[v] == 0
      modifies this`tags, this`tagged, this`activity, this`varInc, this`order, this`orderpos
      ensures tags == old(tags)[v := 1] && TaggedOk(tags, tagged)
      ensures Ordered() && SameMembers(orderpos, old(orderpos), n)
    {
      TagOne(tags, tagged, v);
      tagged := tagged + [v];
      tags := tags[v := 1];
      ActVarBump(v);
    }

    // While a conflict is resolved: the marks describe the trail up to ind.
    ghost predicate Resolving(learnt: seq<Lit>, ind: int, cnt: nat)
      reads this
    {
      St().Inv() && root < |lims| && Marks(St(), tags, learnt, ind, cnt) && Ordered() && |tags| == n &&
      TaggedOk(tags, tagged)
    }

    method Mark(l: Lit, learnt: seq<Lit>, cnt: nat, ghost ind: nat, ghost vars: set<nat>)
      returns (learnt': seq<Lit>, cnt': nat)
      requires ind < |trail| && Resolving(learnt, ind, cnt) && l.Not() in trail[..ind + 1]
      requires TagsReached(St(), vars, tags, ind) && (AboveZero(St(), l.v) ==> ReachesTo(St(), vars, ind, l.v))
      modifies this`tags, this`tagged, this`activity, this`varInc, this`order, this`orderpos
      ensures Resolving(learnt', ind, cnt') && SameMembers(orderpos, old(orderpos), n)
      ensures lims != [] && learnt != [] && learnt' != [] && Accounted(St(), tags, learnt', ind, l)
      ensures Resolvent(St(), old(tags), learnt, ind) <= Resolvent(St(), tags, learnt', ind) && cnt' >= cnt
      ensures MarkedOn(St(), vars, old(tags), tags, ind) && Known(St(), tags, l.v)
    {
      hide Entails, State.Inv, HeapOk, Marks, Resolvent, Accounted, TagsReached, ReachesTo, MarkedOn;
      MarkStep(St(), tags, learnt, ind, cnt, l);
      MarksBounds(St(), tags, learnt, ind, cnt);
      MarkedSelf(St(), vars, tags, ind);
      learnt', cnt' := learnt, cnt;
      if tags[l.v] == 0 && levels[l.v] > 0 {
        NotAt(trail, ind, l);
        MarkedOne(St(), vars, tags, ind, l.v);
        TagVar(l.v);
        if levels[l.v] == |lims| {
          cnt' := cnt + 1;
        } else {
          learnt' := learnt + [l];
        }
      }
    }

    // The literals of a clause from position start on, all of them false.
    method MarkClause(lits: seq<Lit>, start: nat, learnt: seq<Lit>, cnt: nat, ghost ind: nat, ghost vars: set<nat>)
      returns (learnt': seq<Lit>, cnt': nat)
      requires ind < |trail| && Resolving(learnt, ind, cnt) && start <= |lits|
      requires forall j :: start <= j < |lits| ==> lits[j].Not() in trail[..ind + 1]
      requires TagsReached(St(), vars, tags, ind)
      requires forall j :: start <= j < |lits| && AboveZero(St(), lits[j].v) ==> ReachesTo(St(), vars, ind, lits[j].v)
      modifies this`tags, this`tagged, this`activity, this`varInc, this`order, this`orderpos
      ensures Resolving(learnt', ind, cnt') && SameMembers(orderpos, old(orderpos), n)
      ensures lims != [] && learnt != [] && learnt' != []
      ensures forall j :: start <= j < |lits| ==> Accounted(St(), tags, learnt', ind, lits[j])
      ensures Resolvent(St(), old(tags), learnt, ind) <= Resolvent(St(), tags, learnt', ind) && cnt' >= cnt
      ensures MarkedOn(St(), vars, old(tags), tags, ind)
      ensures forall j :: start <= j < |lits| ==> Known(St(), tags, lits[j].v)
    {
      hide Entails, State.Inv, HeapOk, Marks, Resolvent, Accounted, TagsReached, ReachesTo, MarkedOn, AboveZero, Known;
      learnt', cnt' := learnt, cnt;
      MarksBounds(St(), tags, learnt, ind, cnt);
      MarkedSelf(St(), vars, tags, ind);
      var j := start;
      while j < |lits|
        invariant start <= j <= |lits| && learnt' != []
        invariant Resolving(learnt', ind, cnt') && SameMembers(orderpos, old(orderpos), n)
        invariant forall i :: start <= i < j ==> Accounted(St(), tags, learnt', ind, lits[i])
        invariant Resolvent(St(), old(tags), learnt, ind) <= Resolvent(St(), tags, learnt', ind) && cnt' >= cnt
        invariant MarkedOn(St(), vars, old(tags), tags, ind)
        invariant forall i :: start <= i < j ==> Known(St(), tags, lits[i].v)
      {
        ghost var tags0, learnt0 := tags, learnt';
        MarkedReached(St(), vars, old(tags), tags, ind);
        learnt', cnt' := Mark(lits[j], learnt', cnt', ind, vars);
        MarkedTwice(St(), vars, old(tags), tags0, tags, ind);
        forall i | start <= i < j ensures Accounted(St(), tags, learnt', ind, lits[i]) {
          AccountedMore(St(), tags0, learnt0, tags, learnt', ind, lits[i]);
        }
        j := j + 1;
      }
    }

    // The other literal q of a binary reason is true, so the clause contains its negation.
    // It never lies strictly between level 0 and the current level.
    method MarkBinary(q: Lit, learnt: seq<Lit>, cnt: nat, ghost ind: nat, ghost vars: set<nat>)
      returns (learnt': seq<Lit>, cnt': nat)
      requires ind < |trail| && Resolving(learnt, ind, cnt) && q in trail[..ind + 1]
      requires q.v < |levels| && (levels[q.v] == 0 || levels[q.v] == |lims|)
      requires TagsReached(St(), vars, tags, ind) && (AboveZero(St(), q.v) ==> ReachesTo(St(), vars, ind, q.v))
      modifies this`tags, this`tagged, this`activity, this`varInc, this`order, this`orderpos
      ensures Resolving(learnt', ind, cnt') && SameMembers(orderpos, old(orderpos), n)
      ensures lims != [] && learnt != [] && learnt' != [] && Accounted(St(), tags, learnt', ind, q.Not())
      ensures Resolvent(St(), old(tags), learnt, ind) <= Resolvent(St(), tags, learnt', ind) && cnt' >= cnt
      ensures MarkedOn(St(), vars, old(tags), tags, ind) && Known(St(), tags, q.v)
    {
      hide Entails, State.Inv, HeapOk, Marks, Resolvent, Accounted, TagsReached, ReachesTo, MarkedOn;
      assert q.Not().Not() == q;
      MarkStep(St(), tags, learnt, ind, cnt, q.Not());
      MarksBounds(St(), tags, learnt, ind, cnt);
      MarkedSelf(St(), vars, tags, ind);
      learnt', cnt' := learnt, cnt;
      if tags[q.v] == 0 && levels[q.v] > 0 {
        NotAt(trail, ind, q.Not());
        MarkedOne(St(), vars, tags, ind, q.v);
        TagVar(q.v);
        if levels[q.v] == |lims| {
          cnt' := cnt + 1;
        } else {
          learnt' := learnt + [q];
        }
      }
    }

    // Walk down the trail to the next tagged literal.
    method NextTagged(ind: nat, ghost learnt: seq<Lit>, ghost cnt: nat, ghost vars: set<nat>) returns (k: nat)
      requires ind < |trail| && Resolving(learnt, ind, cnt) && cnt > 0 && UipWalk(St(), vars, tags, ind)
      ensures lims != [] && Top(St()) <= k <= ind && learnt != []
      ensures cnt > 0 && Resolving(learnt, k - 1, cnt - 1)
      ensures Resolvent(St(), tags, learnt, ind) == Resolvent(St(), tags, learnt, k - 1) + {trail[k].Not()}
      ensures UipWalk(St(), vars, tags, k) && trail[k].v < |tags| && tags[trail[k].v] != 0
    {
      hide Entails, HeapOk, Marks, Resolvent, State.LimsOk, State.LevelsOk, State.ReasonsOk, State.ArenaOk,
        State.WatchesOk, State.Covered, TaggedOk, UipWalk;
      k := ind;
      OpenNonEmpty(St(), tags, learnt, k, cnt);
      MarksBounds(St(), tags, learnt, ind, cnt);
      while tags[trail[k].v] == 0
        invariant lims != [] && Top(St()) <= k <= ind && learnt != []
        invariant Marks(St(), tags, learnt, k, cnt) && UipWalk(St(), vars, tags, k)
        invariant Resolvent(St(), tags, learnt, ind) == Resolvent(St(), tags, learnt, k)
        decreases k
      {
        SkipUntagged(St(), tags, learnt, k, cnt);
        UipSkip(St(), vars, tags, k);
        OpenNonEmpty(St(), tags, learnt, k - 1, cnt);
        k := k - 1;
      }
      CloseOpen(St(), tags, learnt, k, cnt);
    }

    // Resolve on the literal above ind with its reason.
    method MarkReason(ind: nat, learnt: seq<Lit>, cnt: nat, ghost vars: set<nat>)
      returns (learnt': seq<Lit>, cnt': nat)
      requires Resolving(learnt, ind, cnt) && lims != [] && learnt != [] && cnt > 0 && ind + 1 < |trail|
      requires Entails(f, Resolvent(St(), tags, learnt, ind) + {trail[ind + 1].Not()})
      requires UipWalk(St(), vars, tags, ind + 1) && trail[ind + 1].v < |tags| && tags[trail[ind + 1].v] != 0
      modifies this`tags, this`tagged, this`activity, this`varInc, this`order, this`orderpos
      ensures Resolving(learnt', ind, cnt') && SameMembers(orderpos, old(orderpos), n) && cnt' > 0
      ensures lims != [] && learnt' != [] && Entails(f, Resolvent(St(), tags, learnt', ind))
      ensures UipWalk(St(), vars, tags, ind)
    {
      hide Entails, State.Inv, HeapOk, Marks, Resolvent, Accounted, TaggedOk, UipWalk, TagsReached, ReachesTo, MarkedOn,
        Antecedent, AboveZero, Known, ReasonKnown;
      var p := trail[ind + 1];
      ghost var s, was, tags0 := St(), Resolvent(St(), tags, learnt, ind), tags;
      ReasonFacts(s, tags, learnt, ind + 1, cnt);
      ReasonReached(s, vars, tags, ind + 1);
      ReasonAntecedents(s, ind + 1);
      WalkLower(s, vars, tags, ind + 1);
      OtherOpen(s, vars, tags, learnt, ind + 1, cnt);
      match reasons[p.v] {
        case BinReason(q) =>
          learnt', cnt' := MarkBinary(q, learnt, cnt, ind, vars);
          BinaryResolved(s, tags, learnt', ind, was, p, q);
        case ClauseReason(h) =>
          learnt', cnt' := MarkClause(arena[h], 1, learnt, cnt, ind, vars);
          ClauseResolved(s, tags, learnt', ind, was, p, h);
      }
      AntecedentsKnown(s, tags, p.v);
      MarkedResolved(s, vars, tags0, tags, ind + 1);
    }

    // Mark the literals of the conflict, and find the last of the current level.
    method MarkConflict(confl: Conflict, ghost p0: Lit, ghost i0: nat, ghost vars: set<nat>)
      returns (learnt: seq<Lit>, cnt: nat, k: nat)
      requires St().Inv() && Ordered() && root < |lims| && |tags| == |levels| == n && TaggedOk(tags, tagged)
      requires forall v :: 0 <= v < n ==> tags[v] == 0
      requires (confl.ClauseConflict? ==> confl.h in arena) && Conflicting(St(), ConflictLits(confl), p0)
      requires Top(St()) <= i0 < |trail| && trail[i0] == p0 && vars == VarSet(ConflictLits(confl))
      modifies this`tags, this`tagged, this`activity, this`varInc, this`order, this`orderpos
      ensures SameMembers(orderpos, old(orderpos), n) && lims != [] && Top(St()) <= k < |trail|
      ensures Resolving(learnt, k - 1, cnt) && learnt != []
      ensures Entails(f, Resolvent(St(), tags, learnt, k - 1) + {trail[k].Not()})
      ensures UipWalk(St(), vars, tags, k) && trail[k].v < |tags| && tags[trail[k].v] != 0
    {
      hide Entails, State.Inv, HeapOk, Marks, Resolvent, Accounted, Conflicting, TaggedOk, UipWalk, TagsReached,
        ReachesTo, MarkedOn, AboveZero, Known;
      ghost var s := St();
      ResolveStart(s, tags, ConflictLits(confl), p0);
      ConflictReached(s, vars, ConflictLits(confl));
      StateSizes(s);
      UipStart(s, vars, tags);
      learnt, cnt := [Lit(0, false)], 0;
      learnt, cnt := MarkClause(ConflictLits(confl), 0, learnt, cnt, |trail| - 1, vars);
      MarkedReached(s, vars, old(tags), tags, |trail| - 1);
      VarsKnown(s, tags, ConflictLits(confl));
      UipFirst(s, vars, tags);
      ConflictResolved(s, tags, learnt, cnt, ConflictLits(confl), p0, i0);
      k := NextTagged(|trail| - 1, learnt, cnt, vars);
      cnt := cnt - 1;
    }

    // Resolve the conflict backwards until one literal of the current level is left: the first unique
    // implication point.
    method ResolveToFirstUip(confl: Conflict, ghost p0: Lit, ghost i0: nat, ghost vars: set<nat>)
      returns (learnt: seq<Lit>, ghost p: nat)
      requires St().Inv() && Ordered() && root < |lims| && |tags| == |levels| == n && TaggedOk(tags, tagged)
      requires forall v :: 0 <= v < n ==> tags[v] == 0
      requires (confl.ClauseConflict? ==> confl.h in arena) && Conflicting(St(), ConflictLits(confl), p0)
      requires Top(St()) <= i0 < |trail| && trail[i0] == p0 && vars == VarSet(ConflictLits(confl))
      modifies this`tags, this`tagged, this`activity, this`varInc, this`order, this`orderpos
      ensures Ordered() && SameMembers(orderpos, old(orderpos), n) && TaggedOk(tags, tagged)
      ensures Resolved(St(), tags, learnt) && |tags| == n
      ensures Derived(St(), vars, p, tags, learnt)
    {
      hide Entails, State.Inv, HeapOk, Marks, Resolvent, Accounted, Conflicting, Resolved, TaggedOk, UipWalk,
        TagsReached, ReachesTo, MarkedOn, AboveZero, Known, Derived;
      ghost var s := St();
      StateSizes(s);
      var cnt, k;
      learnt, cnt, k := MarkConflict(confl, p0, i0, vars);
      var ind := k as int - 1;
      while cnt > 0
        invariant Resolving(learnt, ind, cnt) && lims != [] && learnt != [] && SameMembers(orderpos, old(orderpos), n)
        invariant -1 <= ind < |trail| - 1 && Top(s) <= ind + 1 && St() == s
        invariant Entails(f, Resolvent(s, tags, learnt, ind) + {trail[ind + 1].Not()})
        invariant UipWalk(s, vars, tags, ind + 1) && trail[ind + 1].v < |tags| && tags[trail[ind + 1].v] != 0
        decreases ind
      {
        OpenNonEmpty(s, tags, learnt, ind, cnt);
        learnt, cnt := MarkReason(ind, learnt, cnt, vars);
        k := NextTagged(ind, learnt, cnt, vars);
        cnt := cnt - 1;
        ind := k as int - 1;
      }
      ResolvedEnd(s, tags, learnt, ind);
      UipEnd(s, vars, tags, learnt, ind);
      p := ind + 1;
      learnt := learnt[0 := trail[ind + 1].Not()];
    }

    // solver2_clear_tags.
    method ClearTags(start: nat)
      requires TaggedOk(tags, tagged) && start <= |tagged|
      modifies this`tags, this`tagged
      ensures tagged == old(tagged)[..start] && |tags| == |old(tags)| && TaggedOk(tags, tagged)
      ensures forall v :: 0 <= v < |tags| ==> tags[v] == if v in old(tagged)[start..] then 0 else old(tags)[v]
    {
      var i := start;
      while i < |tagged|
        invariant start <= i <= |tagged| && tagged == old(tagged) && |tags| == |old(tags)|
        invariant forall v :: 0 <= v < |tags| ==> tags[v] == if v in old(tagged)[start..i] then 0 else old(tags)[v]
      {
        assert old(tagged)[start..i + 1] == old(tagged)[start..i] + [tagged[i]];
        tags := tags[tagged[i] := 0];
        i := i + 1;
      }
      tagged := tagged[..start];
      ClearedOk(old(tags), old(tagged), start, tags);
    }

    // One literal of a reason met during the search: known, pushed, or the search fails.
    method VisitAntecedent(u: nat, minl: set<nat>, stack: seq<nat>, ghost except: set<nat>, ghost m: nat,
                           ghost tags0: seq<nat>, ghost x: nat, ghost pend: nat)
      returns (ok: bool, stack': seq<nat>)
      requires |tags| == n && TaggedOk(tags, tagged) && Searching(St(), tags, except, stack, m)
      requires AssignedBelow(St(), u, m) && Antecedent(St(), pend, u)
      requires Tracing(St(), tags0, tags, x, stack, minl, pend)
      modifies this`tags, this`tagged
      ensures ok ==> Tracing(St(), tags0, tags, x, stack', minl, pend)
      ensures !ok ==> !Redundant(St(), tags0, minl, x)
      ensures TagsGrown(old(tags), old(tagged), tags, tagged)
      ensures ok ==> Known(St(), tags, u) && Searching(St(), tags, except, stack', m)
      ensures (stack' == stack && tagged == old(tagged)) || |tagged| > |old(tagged)|
    {
      hide Searching, ClosedBut, State.Inv, AssignedBelow, TaggedOk, Tracing, Antecedent, Redundant;
      SearchBounds(St(), tags, except, stack, m, u);
      NoTagsGrown(tags, tagged);
      stack' := stack;
      if tags[u] == 0 && levels[u] != 0 {
        if reasons[u].NoReason? || levels[u] % 32 !in minl {
          TracingBlocked(St(), tags0, tags, x, stack, minl, pend, u);
          return false, stack;
        }
        SearchPush(St(), tags, except, stack, m, u);
        TracingPush(St(), tags0, tags, x, stack, minl, pend, u);
        TagsGrownOne(tags, tagged, u);
        stack' := stack + [u];
        tagged := tagged + [u];
        tags := tags[u := 1];
      }
      ok := true;
    }

    method VisitReasonClause(h: nat, minl: set<nat>, stack: seq<nat>, ghost except: set<nat>, ghost m: nat,
                             ghost tags0: seq<nat>, ghost x: nat, ghost pend: nat)
      returns (ok: bool, stack': seq<nat>)
      requires |tags| == n && TaggedOk(tags, tagged) && Searching(St(), tags, except, stack, m)
      requires h in arena && |arena[h]| >= 1 && Tracing(St(), tags0, tags, x, stack, minl, pend)
      requires forall i :: 1 <= i < |arena[h]| ==> Antecedent(St(), pend, arena[h][i].v)
      requires forall i :: 1 <= i < |arena[h]| ==> AssignedBelow(St(), arena[h][i].v, m)
      modifies this`tags, this`tagged
      ensures TagsGrown(old(tags), old(tagged), tags, tagged)
      ensures ok ==> Searching(St(), tags, except, stack', m)
      ensures ok ==> Tracing(St(), tags0, tags, x, stack', minl, pend)
      ensures !ok ==> !Redundant(St(), tags0, minl, x)
      ensures ok ==> forall i :: 1 <= i < |arena[h]| ==> Known(St(), tags, arena[h][i].v)
      ensures (stack' == stack && tagged == old(tagged)) || |tagged| > |old(tagged)|
    {
      hide Searching, ClosedBut, State.Inv, AssignedBelow, TaggedOk, TagsGrown, Known, Tracing,
        Antecedent, Redundant;
      NoTagsGrown(tags, tagged);
      ok, stack' := true, stack;
      var i := 1;
      while i < |arena[h]|
        invariant 1 <= i <= |arena[h]| && ok && |tags| == n && TaggedOk(tags, tagged)
        invariant Searching(St(), tags, except, stack', m) && TagsGrown(old(tags), old(tagged), tags, tagged)
        invariant Tracing(St(), tags0, tags, x, stack', minl, pend)
        invariant forall j :: 1 <= j < i ==> Known(St(), tags, arena[h][j].v)
        invariant (stack' == stack && tagged == old(tagged)) || |tagged| > |old(tagged)|
      {
        ghost var tags1, tagged1 := tags, tagged;
        ok, stack' := VisitAntecedent(arena[h][i].v, minl, stack', except, m, tags0, x, pend);
        TagsGrownTransitive(old(tags), old(tagged), tags1, tagged1, tags, tagged);
        TagsGrownOk(tags1, tagged1, tags, tagged);
        if !ok {
          return;
        }
        forall j | 1 <= j < i ensures Known(St(), tags, arena[h][j].v) {
          KnownMore(St(), tags1, tagged1, tags, tagged, arena[h][j].v);
        }
        i := i + 1;
      }
    }

    // sat_solver_lit_removable: is every path of reasons back from x blocked by tagged literals? This holds exactly
    // when no path that avoids them comes to a variable without a reason, or of a level that is not in minl.
    method LitRemovable(x: nat, minl: set<nat>, ghost except: set<nat>, ghost m: nat) returns (ok: bool)
      requires St().Inv() && |tags| == n && TaggedOk(tags, tagged)
      requires ClosedBut(St(), tags, except + {x}, m) && AssignedBelow(St(), x, m)
      requires x < n && x < |reasons| && tags[x] != 0 && !reasons[x].NoReason?
      modifies this`tags, this`tagged
      ensures TaggedOk(tags, tagged) && |tags| == n
      ensures ok ==> ClosedBut(St(), tags, except, m) && forall v :: 0 <= v < n && old(tags)[v] != 0 ==> tags[v] != 0
      ensures !ok ==> tags == old(tags) && tagged == old(tagged)
      ensures ok <==> Redundant(St(), old(tags), minl, x)
      ensures ok ==> Clean(St(), old(tags), tags, minl)
    {
      hide Searching, ClosedBut, State.Inv, AssignedBelow, TaggedOk, ReasonKnown, TagsGrown, Tracing, Antecedent,
        Redundant, Clean;
      var top := |tagged|;
      var stack := [x];
      SearchInit(St(), tags, except, x, m);
      SearchSizes(St(), tags, except, stack, m);
      TracingStart(St(), tags, x, minl);
      NoTagsGrown(tags, tagged);
      while stack != []
        invariant Searching(St(), tags, except, stack, m) && TagsGrown(old(tags), old(tagged), tags, tagged)
        invariant |tags| == n && TaggedOk(tags, tagged) && Tracing(St(), old(tags), tags, x, stack, minl, -1)
        decreases n - |tagged|, |stack|
      {
        ghost var tags1, tagged1 := tags, tagged;
        var v := stack[|stack| - 1];
        SearchPop(St(), tags, except, stack, m);
        TracingPop(St(), old(tags), tags, x, stack, minl);
        stack := stack[..|stack| - 1];
        AntecedentsBelow(St(), v, m);
        AntecedentsOf(St(), v, m);
        match reasons[v] {
          case BinReason(q) =>
            ok, stack := VisitAntecedent(q.v, minl, stack, except + {v}, m, old(tags), x, v);
          case ClauseReason(h) =>
            ok, stack := VisitReasonClause(h, minl, stack, except + {v}, m, old(tags), x, v);
        }
        TagsGrownTransitive(old(tags), old(tagged), tags1, tagged1, tags, tagged);
        TagsGrownOk(old(tags), old(tagged), tags, tagged);
        TaggedFits(tags, tagged);
        if !ok {
          TagsRestored(old(tags), old(tagged), tags, tagged);
          ClearTags(top);
          return;
        }
        AntecedentsKnown(St(), tags, v);
        SearchDone(St(), tags, except, stack, m, v);
        TracingDone(St(), old(tags), tags, x, stack, minl, v);
      }
      SearchEnd(St(), tags, except, m);
      TracingEnd(St(), old(tags), tags, x, minl);
      TagsKept(old(tags), old(tagged), tags, tagged);
      ok := true;
    }

    // Drop the literals of the learnt clause that follow from the others.
    method Minimize(all: seq<Lit>) returns (learnt: seq<Lit>)
      requires St().Inv() && root < |lims| && |tags| == n && TaggedOk(tags, tagged) && Resolved(St(), tags, all)
      modifies this`tags, this`tagged
      ensures TaggedOk(tags, tagged) && |tags| == n && Asserting(St(), learnt)
      ensures learnt == Necessary(St(), old(tags), LevelMask(St(), all, |all|), all, |all|)
    {
      hide Entails, State.Inv, ClosedBut, FalseBelow, AssignedBelow, TaggedOk, Minimizing, Redundant, Clean, Necessary;
      learnt := all;
      ResolvedFacts(St(), tags, all);
      ResolvedLevels(St(), tags, all);
      var minl := Mask(all);
      MinimizingStart(St(), tags, all);
      CleanSelf(St(), tags, minl);
      NecessaryFirst(St(), tags, minl, all);
      var i, j := 1, 1;
      while i < |all|
        invariant 1 <= j <= i <= |all| == |learnt| && |tags| == |reasons| == n && TaggedOk(tags, tagged)
        invariant Minimizing(St(), tags, all, learnt, i, j) && Clean(St(), old(tags), tags, minl)
        invariant learnt[..j] == Necessary(St(), old(tags), minl, all, i)
      {
        ghost var except := VarSet(learnt[1..j]) + VarSet(all[i + 1..]);
        MinimizingNext(St(), tags, all, learnt, i, j);
        var x := learnt[i].v;
        var removable := false;
        ghost var tags0 := tags;
        RedundantSame(St(), old(tags), tags, minl, x);
        NecessaryNext(St(), old(tags), minl, all, i);
        if !reasons[x].NoReason? {
          removable := LitRemovable(x, minl, except, Top(St()));
        } else {
          ChosenKept(St(), tags, minl, x);
        }
        if removable {
          CleanTwice(St(), old(tags), tags0, tags, minl);
          MinimizingDrop(St(), tags0, tags, all, learnt, i, j);
        } else {
          MinimizingKeep(St(), tags, all, learnt, i, j);
          assert learnt[j := learnt[i]][..j + 1] == learnt[..j] + [learnt[i]];
          learnt := learnt[j := learnt[i]];
          j := j + 1;
        }
        i := i + 1;
      }
      MinimizingEnd(St(), tags, all, learnt, j);
      learnt := learnt[..j];
    }

    // The levels of all literals but the first.
    method Mask(all: seq<Lit>) returns (minl: set<nat>)
      requires |all| >= 1 && forall i :: 1 <= i < |all| ==> all[i].v < |levels|
      ensures minl == LevelMask(St(), all, |all|)
    {
      minl := {};
      for i := 1 to |all|
        invariant minl == LevelMask(St(), all, i)
      {
        minl := minl + {levels[all[i].v] % 32};
      }
    }

    // Move a literal of the highest level to position 1.
    method SecondHighest(c: seq<Lit>) returns (learnt: seq<Lit>)
      requires Asserting(St(), c)
      ensures Learnt(St(), learnt) && multiset(learnt) == multiset(c)
    {
      AssertingLevels(St(), c);
      hide Entails, FalseBelow, Asserting, Learnt;
      learnt := c;
      if |c| > 1 {
        var maxI := 1;
        var max := levels[c[1].v];
        var i := 2;
        while i < |c|
          invariant 2 <= i <= |c| && 1 <= maxI < i && max == levels[c[maxI].v]
          invariant forall k :: 1 <= k < i ==> levels[c[k].v] <= max
        {
          if levels[c[i].v] > max {
            max := levels[c[i].v];
            maxI := i;
          }
          i := i + 1;
        }
        ChooseSecond(St(), c, maxI);
        learnt := Swap(c, 1, maxI);
      }
    }

    // sat_solver_analyze.
    method Analyze(confl: Conflict, ghost p: Lit, ghost k: nat, ghost vars: set<nat>) returns (learnt: seq<Lit>)
      requires St().Inv() && Ordered() && root < |lims| && TagsClear() && |levels| == n
      requires (confl.ClauseConflict? ==> confl.h in arena) && Conflicting(St(), ConflictLits(confl), p)
      requires vars == VarSet(ConflictLits(confl))
      requires Top(St()) <= k < |trail| && trail[k] == p
      modifies this`tags, this`tagged, this`activity, this`varInc, this`order, this`orderpos
      ensures Ordered() && SameMembers(orderpos, old(orderpos), n) && TagsClear()
      ensures Learnt(St(), learnt) && Shortened(St(), vars, learnt)
    {
      hide Entails, State.Inv, HeapOk, Conflicting, Asserting, Learnt, TaggedOk, Solver.TagsClear, SameMembers,
        Top, Shortened;
      learnt := DeriveClause(confl, p, k, vars);
      ghost var c := learnt;
      ClearAllTags();
      learnt := SecondHighest(learnt);
      ShortenedSame(St(), VarSet(ConflictLits(confl)), c, learnt);
    }

    method ClearAllTags()
      requires TaggedOk(tags, tagged) && |tags| == n
      modifies this`tags, this`tagged
      ensures TagsClear()
    {
      hide TaggedOk;
      ClearTags(0);
      AllCleared(tags, tagged);
    }

    // Resolution up to the first unique implication point, and minimisation.
    method DeriveClause(confl: Conflict, ghost p: Lit, ghost k: nat, ghost vars: set<nat>) returns (learnt: seq<Lit>)
      requires St().Inv() && Ordered() && root < |lims| && |levels| == n
      requires TagsClear() && (confl.ClauseConflict? ==> confl.h in arena)
      requires Conflicting(St(), ConflictLits(confl), p) && vars == VarSet(ConflictLits(confl))
      requires Top(St()) <= k < |trail| && trail[k] == p
      modifies this`tags, this`tagged, this`activity, this`varInc, this`order, this`orderpos
      ensures Ordered() && SameMembers(orderpos, old(orderpos), n) && TaggedOk(tags, tagged) && |tags| == n
      ensures Asserting(St(), learnt) && Shortened(St(), vars, learnt)
    {
      hide Entails, State.Inv, HeapOk, Conflicting, Resolved, Asserting, TaggedOk, Necessary, LevelMask, Derived;
      NoTags(tags);
      ghost var u;
      learnt, u := ResolveToFirstUip(confl, p, k, vars);
      ghost var all, marks := learnt, tags;
      learnt := Minimize(learnt);
      assert ShortenedFrom(St(), vars, u, marks, all, learnt);
    }

    // ---- Learning ----

    // What holds at the top of the search loop.
    ghost predicate Running()
      reads this`n, this`f, this`assigns, this`levels, this`reasons, this`trail, this`lims, this`root, this`assumed,
            this`arena, this`learnts, this`wl
      reads this`qhead, this`activity, this`order, this`orderpos, this`polarity, this`model, this`tags, this`tagged,
            this`nextHandle
    {
      && St().Inv() && qhead <= |trail| && St().QueueOk(qhead) && St().NoneFalse(trail[..qhead])
      && Ordered() && Absent(orderpos, trail[..if qhead < |trail| then qhead + 1 else qhead]) && Misc()
      && root <= |lims| && St().AssumedOk(root) && (lims != [] ==> lims[|lims| - 1] <= qhead)
    }

    // sat_solver_clause_new for a learnt clause.
    method StoreLearnt(c: seq<Lit>) returns (h: nat)
      requires |c| >= 2 && Misc()
      modifies this`arena, this`learnts, this`wl, this`nextHandle
      ensures h == old(nextHandle) && h !in old(arena) && St() == WithClause(old(St()), h, c, true) && Misc()
      ensures nextHandle == old(nextHandle) + 1
    {
      hide Listed;
      h := nextHandle;
      nextHandle := nextHandle + 1;
      arena := arena[h := c];
      learnts := learnts + {h};
      wl := Listed(wl, h, c);
    }

    // sat_solver_record for a clause of two or more literals.
    method RecordLong(c: seq<Lit>)
      requires St().Inv() && St().NoneFalse(trail) && Misc() && |c| >= 2 && DistinctVars(c) && Entails(f, LitSet(c))
      requires St().Unassigned(c[0]) && forall i :: 1 <= i < |c| ==> c[i].Not() in trail && c[i].v < n
      modifies this`arena, this`learnts, this`wl, this`nextHandle, this`assigns, this`levels, this`reasons, this`trail
      ensures St().Inv() && St().NoneFalse(old(trail)) && Misc()
      ensures RecordedAs(old(St()), St(), old(nextHandle), c) && nextHandle == old(nextHandle) + 1
      ensures Tight(old(St()), |old(trail)|) && CutApart(old(St()), c) ==> Tight(St(), |old(trail)|)
      ensures forall i: nat :: i < |lims| && old(St()).Closed(lims[i]) ==>
        (St().Closed(lims[i]) <==> c[1].Not() !in old(trail)[..lims[i]])
    {
      hide Entails, State.Inv, State.NoneFalse, Grown, Implied, DistinctVars, Solver.Misc, Listed, Tight, CutApart;
      ghost var s := St();
      UnassignedBounds(s, c[0]);
      var h := StoreLearnt(c);
      ghost var t := St();
      RecordClause(s, h, c);
      EnqueueStep(t, c[0], ClauseReason(h));
      var ok := Enqueue(c[0], ClauseReason(h));
      NoneFalseFrame(t, St(), s.trail);
      RecordedTight(s, St(), h, c);
    }

    // A unit learnt clause is asserted at the root level but marked as level 0.
    method RecordUnit(l: Lit)
      requires St().Inv() && St().NoneFalse(trail) && Misc() && root == |lims| && Entails(f, {l}) && St().Unassigned(l)
      modifies this`assigns, this`levels, this`reasons, this`trail
      ensures St() == UnitRecorded(old(St()), l) && St().Inv() && St().NoneFalse(old(trail)) && Misc()
      ensures Tight(old(St()), |old(trail)|) ==> Tight(St(), |old(trail)|)
    {
      hide Entails, State.Base, State.Covered, State.NoneFalse, Tight;
      ghost var s := St();
      UnassignedBounds(s, l);
      UnitRecordedInv(s, l);
      var ok := Enqueue(l, NoReason);
      levels := levels[l.v := 0];
      NoneFalseFrame(s, St(), s.trail);
      UnassignedForced(s, St(), l);
      if Tight(s, |s.trail|) { EnqueueTight(s, St(), |s.trail|); }
    }

    // ---- The final conflict clause ----

    // Tag a variable that is assigned above level 0.
    method TagAbove(v: nat, ghost vars: set<nat>, ghost conf: seq<Lit>, ghost i: int)
      requires |tags| == |levels| == n && v < n && TaggedOk(tags, tagged) && Walk(St(), vars, tags, conf, i)
      requires (AboveZero(St(), v) ==> Reaches(St(), vars, v)) && forall k :: i < k < |trail| ==> trail[k].v != v
      modifies this`tags, this`tagged
      ensures |tags| == n && TaggedOk(tags, tagged) && Walk(St(), vars, tags, conf, i) && Known(St(), tags, v)
      ensures forall u :: 0 <= u < n && old(tags)[u] != 0 ==> tags[u] != 0
    {
      hide Walk, Reaches;
      if levels[v] > 0 {
        WalkTag(St(), vars, tags, conf, i, v);
        if tags[v] == 0 {
          TagOne(tags, tagged, v);
          tagged := tagged + [v];
        }
        tags := tags[v := 1];
      }
    }

    method TagClause(lits: seq<Lit>, start: nat, ghost vars: set<nat>, ghost conf: seq<Lit>, ghost i: int)
      requires |tags| == |levels| == n && TaggedOk(tags, tagged) && Walk(St(), vars, tags, conf, i) && start <= |lits|
      requires forall j :: start <= j < |lits| ==> lits[j].v < n && forall k :: i < k < |trail| ==>
        trail[k].v != lits[j].v
      requires forall j :: start <= j < |lits| && AboveZero(St(), lits[j].v) ==> Reaches(St(), vars, lits[j].v)
      modifies this`tags, this`tagged
      ensures |tags| == n && TaggedOk(tags, tagged) && Walk(St(), vars, tags, conf, i)
      ensures forall j :: start <= j < |lits| ==> Known(St(), tags, lits[j].v)
      ensures forall u :: 0 <= u < n && old(tags)[u] != 0 ==> tags[u] != 0
    {
      hide Walk, Reaches, AboveZero;
      var j := start;
      while j < |lits|
        invariant start <= j <= |lits| && |tags| == n && TaggedOk(tags, tagged) && Walk(St(), vars, tags, conf, i)
        invariant forall x :: start <= x < j ==> Known(St(), tags, lits[x].v)
        invariant forall u :: 0 <= u < n && old(tags)[u] != 0 ==> tags[u] != 0
      {
        TagAbove(lits[j].v, vars, conf, i);
        j := j + 1;
      }
    }

    // One step down the trail.
    method FinalStep(i: nat, ghost vars: set<nat>, conf: seq<Lit>) returns (conf': seq<Lit>)
      requires St().Inv() && root == |lims| && i < |trail| && trail[i].v < n
      requires |tags| == |levels| == |reasons| == n && TaggedOk(tags, tagged) && Walk(St(), vars, tags, conf, i)
      modifies this`tags, this`tagged
      ensures |tags| == n && TaggedOk(tags, tagged) && Walk(St(), vars, tags, conf', i - 1)
      ensures forall u :: 0 <= u < n && old(tags)[u] != 0 ==> tags[u] != 0
    {
      hide Walk, State.Inv, AssignedBelow, Reaches, AboveZero, Antecedent;
      var x := trail[i].v;
      conf' := conf;
      if tags[x] == 0 {
        WalkSkip(St(), vars, tags, conf, i);
        return;
      }
      AntecedentVars(St(), i);
      WalkReached(St(), vars, tags, conf, i, x);
      match reasons[x] {
        case NoReason =>
          WalkAssumption(St(), vars, tags, conf, i);
          conf' := conf + [trail[i].Not()];
          return;
        case BinReason(q) =>
          NotAbove(St(), q.v, i);
          BinaryReached(St(), vars, i, q);
          TagAbove(q.v, vars, conf, i);
        case ClauseReason(h) =>
          forall j | 1 <= j < |arena[h]|
            ensures arena[h][j].v < n && forall k :: i < k < |trail| ==> trail[k].v != arena[h][j].v
          {
            NotAbove(St(), arena[h][j].v, i);
          }
          ClauseReached(St(), vars, i, h);
          TagClause(arena[h], 1, vars, conf, i);
      }
      AntecedentsKnown(St(), tags, x);
      WalkReason(St(), vars, tags, conf, i);
    }

    // sat_solver_analyze_final: the assumptions that explain the variables of lits[skip..], all
    // of them and no other.
    method AnalyzeFinal(lits: seq<Lit>, skip: nat)
      requires St().Inv() && root == |lims| && Misc() && skip <= |lits|
      requires forall j :: skip <= j < |lits| ==> lits[j].v < n
      modifies this`tags, this`tagged, this`confFinal
      ensures Misc() && Explained(St(), VarSet(lits[skip..]), confFinal)
      ensures CoreOf(St(), VarSet(lits[skip..]), confFinal)
    {
      hide Walk, State.Inv, Explained, State.LimsOk, State.LevelsOk, State.ReasonsOk, State.ArenaOk,
        State.WatchesOk, State.Covered, CoreOf, Reaches, AboveZero;
      confFinal := [];
      ghost var vars := VarSet(lits[skip..]);
      if root == 0 {
        ZeroExplained(St(), vars);
        ZeroCore(St(), vars);
        return;
      }
      TrailBounds(St());
      WalkStart(St(), vars, tags);
      forall j | skip <= j < |lits| && AboveZero(St(), lits[j].v) ensures Reaches(St(), vars, lits[j].v) {
        assert lits[skip..][j - skip].v == lits[j].v;
        StartReached(St(), vars, lits[j].v);
      }
      TagClause(lits, skip, vars, [], |trail| - 1);
      var i := |trail| - 1;
      while i >= lims[0]
        invariant -1 <= i < |trail| && |tags| == n && TaggedOk(tags, tagged) && Walk(St(), vars, tags, confFinal, i)
        invariant forall j :: skip <= j < |lits| ==> Known(St(), tags, lits[j].v)
      {
        confFinal := FinalStep(i, vars, confFinal);
        i := i - 1;
      }
      forall v | v in vars ensures Known(St(), tags, v) {
        var j :| 0 <= j < |lits[skip..]| && lits[skip..][j].v == v;
        assert lits[skip + j].v == v;
      }
      WalkEnd(St(), vars, tags, confFinal, i);
      ClearAllTags();
    }

    // ---- Assumptions ----

    // Explain a failed push of p, which is already false.
    method ExplainFalse(p: Lit)
      requires St().Inv() && 0 < root == |lims| && Misc() && p.v < n && p.Not() in trail && |reasons| == |levels| == n
      requires assumed != [] && assumed[|assumed| - 1] == p
      modifies this`tags, this`tagged, this`confFinal, this`binary
      ensures Misc() && FinalClause(f, assumed, confFinal) && FinalCore(St(), confFinal)
    {
      hide Entails, State.Inv, Explained, FinalClause, FinalCore, CoreOf, FalseAssumption, VarSet;
      FalseReason(St(), p);
      match reasons[p.v] {
        case NoReason =>
          FinalNoReason(St(), p);
          confFinal := [p.Not()];
          if levels[p.v] > 0 {
            confFinal := confFinal + [p];
            assert confFinal == [p.Not(), p];
          }
          ItselfCore(St(), p, confFinal);
          AssumptionCore(St(), confFinal);
        case BinReason(q) =>
          binary := [q, p.Not()];
          AnalyzeFinal(binary, 1);
          FinalBinary(St(), p, q, confFinal);
          BinaryVars(p, q);
          ReasonCore(St(), p, {p.v}, confFinal);
          confFinal := confFinal + [p.Not()];
          AssumptionCore(St(), confFinal);
        case ClauseReason(h) =>
          AnalyzeFinal(arena[h], 1);
          FinalStored(St(), p, h, confFinal);
          ReasonCore(St(), p, VarSet(arena[h][1..]), confFinal);
          confFinal := confFinal + [p.Not()];
          AssumptionCore(St(), confFinal);
      }
    }

    // The assumption p pushed in state s has failed.
    ghost predicate Rejected(s: State, p: Lit)
      reads this`n, this`f, this`assigns, this`levels, this`reasons, this`trail, this`lims, this`root, this`assumed,
            this`arena, this`learnts, this`wl
      reads this`qhead, this`activity, this`order, this`orderpos, this`polarity, this`model, this`tags, this`tagged,
            this`nextHandle, this`confFinal
    {
      && Poppable() && Refuted(f, LitSet(assumed)) && FinalClause(f, assumed, confFinal) && FinalCore(St(), confFinal)
      && FailedPush(s, p, St()) && (s.NoneFalse(s.trail) ==> Withdrawable())
    }

    // Propagation above no decision: quiescent, or the assumptions are refuted.
    method PropagateRoot(p: Lit, ghost s: State) returns (ok: bool)
      requires Raised(p, true) && p.v < |s.assigns| == |s.levels| == |s.reasons| && St() == Pushed(s, p)
      modifies this`assigns, this`levels, this`reasons, this`trail, this`qhead, this`arena, this`wl, this`binary,
               this`tags, this`tagged, this`confFinal
      ensures St().lims == s.lims + [|s.trail|] && root == s.root + 1 && assumed == s.assumed + [p] && f == s.f
      ensures if ok then Ready() else Rejected(s, p)
      ensures old(Saturated()) ==> CutsKept() && (ok ==> Saturated())
      ensures old(St().Idle(qhead)) ==> ok && St() == old(St())
    {
      hide Entails, State.Inv, Grown, State.NoneFalse, State.SafeCut, State.QueueOk, State.Idle, Refuted, Conflicting,
        Absent, HeapOk, State.AssumedOk, Explained, FinalClause, FinalCore, State.Settled, State.Closed, CutsClosed,
        Tight,
        Propagated, Solver.Stopped, Solver.Rejected, Pushed, LitSet;
      PushedSafe(s, p);
      ghost var t := St();
      var confl := Propagate();
      RootGrown(t, St(), orderpos, old(qhead), qhead);
      HandlesKept(t, St());
      PushedGrown(s, St(), p);
      ok := confl == NoConflict;
      if ok {
        assert trail[..qhead] == trail;
      } else {
        RejectConflict(p, s, confl);
      }
    }

    // The assumption p, pushed in state s, has led to a conflict.
    method RejectConflict(p: Lit, ghost s: State, confl: Conflict)
      requires 0 < qhead <= |trail| && Stopped(trail[..qhead - 1], trail[qhead - 1], confl)
      requires 0 < root == |lims| && Misc() && Ordered() && St().AssumedOk(root) && Absent(orderpos, trail[..qhead])
      requires p.v < |s.assigns| == |s.levels| == |s.reasons| && Grown(Pushed(s, p), St())
      requires assumed == s.assumed + [p] && f == s.f && (s.NoneFalse(s.trail) ==> St().SafeCut(root - 1))
      modifies this`tags, this`tagged, this`confFinal
      ensures Rejected(s, p)
    {
      hide Entails, State.Inv, Grown, State.NoneFalse, State.SafeCut, Refuted, Conflicting, Absent, HeapOk,
        State.AssumedOk, FinalClause, Solver.Stopped, Solver.Poppable, Pushed, LitSet, FinalCore;
      ExplainConflict(confl);
    }

    // A conflict above no decision.
    method ExplainConflict(confl: Conflict)
      requires 0 < qhead <= |trail| && Stopped(trail[..qhead - 1], trail[qhead - 1], confl)
      requires root == |lims| && Misc() && Ordered() && St().AssumedOk(root) && Absent(orderpos, trail[..qhead])
      modifies this`tags, this`tagged, this`confFinal
      ensures Refuted(f, LitSet(assumed)) && FinalClause(f, assumed, confFinal) && FinalCore(St(), confFinal)
      ensures 0 < root ==> Poppable()
    {
      hide Entails, State.Inv, State.NoneFalse, Refuted, Conflicting, Absent, HeapOk, State.AssumedOk, Explained,
        FinalClause, CoreOf, FinalCore, Present;
      ghost var p := trail[qhead - 1];
      ConflictRefutes(St(), ConflictLits(confl), p);
      ConflictVars(St(), ConflictLits(confl), p);
      AnalyzeFinal(ConflictLits(confl), 0);
      FinalConflict(St(), ConflictLits(confl), p, confFinal);
      ConflictFalse(St(), ConflictLits(confl), p);
      ConflictCore(St(), ConflictLits(confl), confFinal);
      if 0 < root { AssumedLess(St(), root, root - 1); }
    }

    method OpenRootLevel(p: Lit)
      modifies this`lims, this`root, this`assumed
      ensures St() == NewLevel(old(St()), true, p)
    {
      lims := lims + [|trail|];
      root := root + 1;
      assumed := assumed + [p];
    }

    // The level of assumption p has been opened: p is on the trail, or it is false.
    ghost predicate Raised(p: Lit, ok: bool)
      reads this`n, this`f, this`assigns, this`levels, this`reasons, this`trail, this`lims, this`root, this`assumed,
            this`arena, this`learnts, this`wl
      reads this`qhead, this`activity, this`order, this`orderpos, this`polarity, this`model, this`tags, this`tagged,
            this`nextHandle
    {
      && 0 < root == |lims| && |assumed| == root && assumed[root - 1] == p && p.v < n
      && Core() && St().NoneFalse(trail[..qhead])
      && (ok ==> St().AssumedOk(root) && St().QueueOk(qhead))
      && (!ok ==> St().AssumedOk(root - 1) && p.Not() in trail && Refuted(f, LitSet(assumed)))
    }

    method PushLevel(p: Lit) returns (ok: bool)
      requires Ready() && p.v < n
      modifies this`lims, this`root, this`assumed, this`assigns, this`levels, this`reasons, this`trail
      ensures p.v < |old(assigns)| == |old(levels)| == |old(reasons)| && St() == Pushed(old(St()), p)
      ensures Raised(p, ok) && (ok <==> p.Not() !in old(trail))
      ensures old(Propagating()) ==> Saturated()
    {
      hide Entails, State.Inv, State.NoneFalse, State.QueueOk, Refuted, Absent, HeapOk, State.AssumedOk, Enqueued,
        LitSet, Tight, Solver.Misc;
      ghost var s := St();
      PushedOk(s, p, qhead, orderpos);
      OpenRootLevel(p);
      ok := Enqueue(p, NoReason);
      PushedTight(s, p, qhead);
    }

    method FailPush(p: Lit, ghost s: State)
      requires Raised(p, false) && p.v < |s.assigns| == |s.levels| == |s.reasons| && St() == Pushed(s, p) && s.Inv()
      requires p.Not() in s.trail
      modifies this`tags, this`tagged, this`confFinal, this`binary
      ensures Rejected(s, p) && St() == old(St())
    {
      hide Entails, State.Inv, State.NoneFalse, State.SafeCut, State.QueueOk, Refuted, Absent, HeapOk,
        State.AssumedOk, FinalClause, Pushed, Grown, LitSet, FinalCore;
      TrailBounds(St());
      PushedSafe(s, p);
      PushedTrail(s, p);
      ExplainFalse(p);
    }

    // sat_solver_push. A literal that is already false fails at once; the others are propagated.
    method Push(p: Lit) returns (ok: bool)
      requires Ready() && p.v < n
      modifies this`assigns, this`levels, this`reasons, this`trail, this`qhead, this`lims, this`root, this`assumed,
               this`arena, this`wl,
               this`binary, this`tags, this`tagged, this`confFinal
      ensures root == old(root) + 1 && assumed == old(assumed) + [p] && root == |lims|
      ensures lims == old(lims) + [|old(trail)|]
      ensures if ok then Ready() else Rejected(old(St()), p)
      ensures !ok && old(qhead) == |old(trail)| ==>
        Withdrawable() && Refuted(f, LitSet(assumed)) && FinalClause(f, assumed, confFinal)
      ensures p.Not() in old(trail) ==> !ok && St() == NewLevel(old(St()), true, p) && qhead == old(qhead)
      ensures old(Propagating()) ==> CutsKept() && (ok ==> Saturated())
      ensures p.v < |old(assigns)| == |old(levels)| == |old(reasons)|
      ensures p.Not() !in old(trail) && old(qhead == |trail| && p in wl && wl[p] == []) ==>
        ok && St() == Pushed(old(St()), p)
    {
      hide Solver.Raised, Solver.Ready, Solver.Rejected, Solver.Withdrawable, Solver.Poppable, Refuted, FinalClause,
        FinalCore,
        State.Inv, State.NoneFalse, State.TrailOk, CutsClosed, State.Settled, Pushed, NewLevel;
      ReadyRoot();
      ghost var s := St();
      ok := PushLevel(p);
      PushedSafe(s, p);
      PushedUnwatched(s, p);
      if ok {
        ok := PropagateRoot(p, s);
      } else {
        FailPush(p, s);
      }
      if !ok { RejectedSafe(s, p); }
    }

    lemma ReadyRoot()
      requires Ready()
      ensures root == |lims| && qhead <= |trail| && St().Inv() && St().TrailOk()
      ensures qhead == |trail| ==> St().NoneFalse(trail)
    {
      hide State.NoneFalse, State.AssumedOk, HeapOk, Absent, Entails, State.LevelsOk, State.ReasonsOk, State.ArenaOk,
        State.WatchesOk, State.Covered;
      assert qhead == |trail| ==> trail[..qhead] == trail;
    }

    // With an empty queue a push that fails can be withdrawn.
    lemma RejectedSafe(s: State, p: Lit)
      requires Rejected(s, p)
      ensures Poppable() && Refuted(f, LitSet(assumed)) && FinalClause(f, assumed, confFinal)
      ensures s.NoneFalse(s.trail) ==> Withdrawable()
      ensures FinalCore(St(), confFinal)
    {
      hide Refuted, FinalClause, FinalCore, FailedPush, State.NoneFalse, Solver.Poppable, Solver.Withdrawable;
    }

    // ---- Clauses ----

    // sat_solver_reducedb with the choice of the clauses left open: any learnt clauses that
    // have three or more literals and are not the reason of their first literal.
    method ReduceDb()
      requires St().Inv() && HandlesBelow() && qhead <= |trail| && St().NoneFalse(trail[..qhead])
      modifies this`arena, this`learnts, this`wl
      ensures St().Inv() && HandlesBelow() && St().NoneFalse(trail[..qhead])
      ensures exists dead :: Deletable(old(St()), dead) && St() == Without(old(St()), dead)
      ensures St().Units() == old(St().Units())
      ensures old(Saturated()) ==> Saturated()
    {
      hide Entails, State.Inv, State.NoneFalse, Tight;
      var candidates := set h | h in learnts && h in arena && |arena[h]| >= 3
        && (arena[h][0].v < |reasons| ==> reasons[arena[h][0].v] != ClauseReason(h));
      var dead :| dead <= candidates;
      DeleteInv(St(), dead);
      DeleteNoneFalse(St(), dead, trail[..qhead]);
      if Tight(St(), qhead) { DeleteTight(St(), dead, qhead); }
      ghost var s := St();
      arena := arena - dead;
      learnts := learnts - dead;
      wl := map l | l in wl :: Kept(wl[l], dead);
      assert Deletable(s, dead) && St() == Without(s, dead);
    }

    // sat_solver_new.
    constructor ()
      ensures St() == State(0, {}, [], [], [], [], [], 0, [], map[], {}, map[]) && nextHandle == 0 && polarity == []
      ensures Ready() && qhead == |trail| && confLimit == 0 && !timeLimit && Saturated()
    {
      n, f, assigns, levels, reasons, trail, qhead, lims, root, assumed := 0, {}, [], [], [], [], 0, [], 0, [];
      arena, learnts, wl, binary, nextHandle := map[], {}, map[], [], 0;
      order, orderpos, activity, varInc, polarity, tags, tagged, model := [], [], [], 1, [], [], [], [];
      confFinal, conflicts, confLimit, timeLimit, late := [], 0, 0, false, false;
      noRestarts, skipSimplify, learntMax := false, false, 0;
      new;
      EmptyInv(St());
    }

    // sat_solver_setnvars.
    method SetNVars(size: nat)
      requires Ready()
      modifies this`n, this`assigns, this`levels, this`reasons, this`wl, this`order, this`orderpos, this`activity,
               this`polarity,
               this`tags, this`model
      ensures Ready() && n == (if size > old(n) then size else old(n)) && Widened(old(St()), St())
      ensures St() == WithVars(old(St()), size)
      ensures PolarityKept(old(polarity))
      ensures old(Saturated()) ==> Saturated()
    {
      hide Solver.Ready, WithVar, Widened, Tight;
      ghost var s0 := St();
      WidenedSelf(s0);
      while n < size
        decreases size - n
        invariant Ready() && old(n) <= n && (n <= size || n == old(n)) && Widened(s0, St())
        invariant old(Saturated()) ==> Saturated()
        invariant WithVars(St(), size) == WithVars(s0, size) && PolarityKept(old(polarity))
      {
        ghost var s := St();
        AddVar();
        WidenedMore(s0, s);
      }
    }

    // New variables are decided negatively.
    ghost predicate PolarityKept(was: seq<bool>)
      reads this`polarity
    {
      |was| <= |polarity| && forall v :: 0 <= v < |polarity| ==> polarity[v] == (v < |was| && was[v])
    }

    method AddVar()
      requires Ready()
      modifies this`n, this`assigns, this`levels, this`reasons, this`wl, this`order, this`orderpos, this`activity,
               this`polarity,
               this`tags, this`model
      ensures Ready() && n == old(n) + 1 && St() == WithVar(old(St())) && polarity == old(polarity) + [false]
      ensures old(Saturated()) ==> Saturated()
    {
      hide Entails, State.Inv, State.NoneFalse, Absent, HeapOk, State.AssumedOk, WithVar, Tight, Solver.TagsClear,
        Solver.HandlesBelow;
      ghost var s := St();
      VarReady(s, qhead);
      AddFields();
      AddToOrder(trail[..qhead]);
    }

    method AddFields()
      requires TagsClear()
      modifies this`n, this`assigns, this`levels, this`reasons, this`wl, this`polarity, this`tags, this`model
      ensures n == old(n) + 1 && St() == WithVar(old(St())) && TagsClear() && polarity == old(polarity) + [false]
      ensures |model| == |old(model)| + 1
    {
      hide WithVar;
      polarity, model := polarity + [false], model + [false];
      AddTag();
      AddAssignment();
    }

    method AddAssignment()
      modifies this`n, this`assigns, this`levels, this`reasons, this`wl
      ensures n == old(n) + 1 && St() == WithVar(old(St()))
    {
      assigns := assigns + [X];
      levels := levels + [0];
      reasons := reasons + [NoReason];
      wl := wl[Lit(n, false) := []][Lit(n, true) := []];
      n := n + 1;
    }

    method AddTag()
      requires forall v :: 0 <= v < |tags| ==> tags[v] == 0
      modifies this`tags
      ensures |tags| == |old(tags)| + 1 && forall v :: 0 <= v < |tags| ==> tags[v] == 0
    {
      tags := tags + [0];
    }

    method AddToOrder(ghost t: seq<Lit>)
      requires n > 0 && HeapOk(n - 1, activity, order, orderpos) && Absent(orderpos, t)
      modifies this`order, this`orderpos, this`activity
      ensures Ordered() && Absent(orderpos, t)
    {
      HeapPush(n - 1, activity, order, orderpos, 1024);
      activity, orderpos, order := activity + [1024], orderpos + [|order|], order + [n - 1];
      OrderUpdate(n - 1);
    }

    lemma ReadyPolarity()
      requires Ready()
      ensures |polarity| == n
    {
      hide Entails, State.Inv, State.NoneFalse, Absent, HeapOk, State.AssumedOk;
    }

    // What has become of the clause: c is left of it, and the solver is ready if and only if it is kept.
    ghost predicate Outcome(s: State, lits: seq<Lit>, c: seq<Lit>, h: nat)
      reads this`n, this`f, this`assigns, this`levels, this`reasons, this`trail, this`lims, this`root, this`assumed,
            this`arena, this`learnts, this`wl
      reads this`qhead, this`activity, this`order, this`orderpos, this`polarity, this`model, this`tags, this`tagged,
            this`nextHandle
    {
      Added(Given(s, lits), St(), lits, c, h) && (Ready() <==> KeptAs(s, lits, c))
    }

    // sat_solver_addclause: false when the clause is false under the assignment. It may be called
    // while assumptions are pushed, but then need not keep the clause.
    method AddClause(lits: seq<Lit>) returns (ok: bool)
      requires Ready() && lits != []
      modifies this`n, this`f, this`assigns, this`levels, this`reasons, this`trail, this`arena, this`wl,
               this`nextHandle, this`order,
               this`orderpos, this`activity, this`polarity, this`tags, this`model
      ensures n >= old(n) && (forall l :: l in lits ==> l.v < n) && f == old(f) + {lits}
      ensures (forall l :: l in lits ==> l.v < old(n)) ==> n == old(n)
      ensures PolarityKept(old(polarity)) && |polarity| == n && nextHandle >= old(nextHandle)
      ensures ok ==> exists c :: Outcome(WithVars(old(St()), n), lits, c, old(nextHandle))
      ensures ok && old(lims) == [] ==> Ready()
      ensures !ok ==> St() == Given(WithVars(old(St()), n), lits) && Refuted(f, LitSet(assumed))
      ensures old(Saturated()) && ok && Ready() ==> Saturated()
    {
      hide Solver.Ready, SortedCodes, Refuted, Tight, WithVars, Added, Widened, WithVar, Solver.Outcome;
      var sorted := SortLits(lits);
      LastLargest(sorted, lits);
      ghost var s := St();
      SetNVars(sorted[|sorted| - 1].v + 1);
      SameWidth(s, sorted[|sorted| - 1].v + 1, n);
      ReadyPolarity();
      ok := AddSorted(lits, sorted);
    }

    method AddSorted(ghost lits: seq<Lit>, sorted: seq<Lit>) returns (ok: bool)
      requires Ready() && SortedCodes(sorted) && multiset(sorted) == multiset(lits)
      requires forall i :: 0 <= i < |lits| ==> lits[i].v < n
      modifies this`f, this`assigns, this`levels, this`reasons, this`trail, this`arena, this`wl, this`nextHandle
      ensures f == old(f) + {lits} && nextHandle >= old(nextHandle)
      ensures ok ==> exists c :: Outcome(old(St()), lits, c, old(nextHandle))
      ensures ok && lims == [] ==> Ready()
      ensures !ok ==> St() == Given(old(St()), lits) && Refuted(f, LitSet(assumed))
      ensures old(Saturated()) && ok && Ready() ==> Saturated()
    {
      hide Entails, State.Inv, State.NoneFalse, State.AssumedOk, Absent, HeapOk, Refuted, SortedCodes, Tight,
        Cleaned, SatisfiedOrTautology, AfterClause, Added, Solver.Outcome, Solver.TagsClear, KeptAs;
      ghost var s, h := St(), nextHandle;
      SortedVars(s, sorted, lits);
      var taut, c := CleanClause(assigns, sorted);
      f := f + {lits};
      ghost var t := St();
      if taut {
        AddedNothing(t, lits, sorted, h);
        AddedReady(s, lits, [], h);
        return true;
      }
      if c == [] {
        NothingLeft(s, lits, sorted);
        return false;
      }
      InvLevels(s);
      CleanedMembers(assigns, sorted, c);
      AddedCleaned(t, lits, sorted, c, h);
      ok := InsertClause(c);
      AddedReady(s, lits, c, h);
    }

    // One literal is enqueued, two go to the watch lists only, more are stored.
    method InsertClause(c: seq<Lit>) returns (ok: bool)
      requires c != [] && c[0].v < |assigns| == |levels| == |reasons| && assigns[c[0].v] == X && HandlesBelow()
      modifies this`assigns, this`levels, this`reasons, this`trail, this`arena, this`wl, this`nextHandle
      ensures ok && nextHandle >= old(nextHandle) && HandlesBelow()
      ensures St() == AfterClause(old(St()), c, old(nextHandle))
    {
      hide Listed;
      ghost var t := St();
      if |c| == 1 {
        ok := Enqueue(c[0], NoReason);
        return;
      }
      if |c| > 2 {
        arena := arena[nextHandle := c];
      }
      wl := Listed(wl, nextHandle, c);
      assert St() == WithClause(t, nextHandle, c, false);
      nextHandle := nextHandle + 1;
      ok := true;
    }

    // The state in which the clause has been added to s.
    lemma AddedReady(s: State, lits: seq<Lit>, c: seq<Lit>, h: nat)
      requires s.Inv() && s.root == |s.lims| && s.AssumedOk(s.root) && h !in s.arena
      requires qhead <= |s.trail| && s.NoneFalse(s.trail[..qhead]) && (qhead == |s.trail| || s.lims == [])
      requires Added(Given(s, lits), St(), lits, c, h)
      requires Ordered() && Absent(orderpos, s.trail[..qhead]) && Misc()
      ensures Outcome(s, lits, c, h) && (s.lims == [] ==> Ready())
      ensures Ready() ==> (Tight(s, qhead) ==> Saturated())
    {
      hide Entails, State.Inv, State.NoneFalse, State.AssumedOk, Absent, HeapOk, SatisfiedOrTautology, Added,
        Tight, Solver.Misc, State.CoveredClause;
      AddedShape(s, St(), lits, c, h, qhead);
      AddedExactly(s, St(), lits, c, h, s.trail[..qhead]);
      if s.lims == [] { RootKept(s, St(), lits, c, h); }
      if St().Inv() { AddedStaysTight(s, St(), lits, c, h, qhead); }
    }

    // ---- Search ----

    // sat_solver_decision on variable v with its saved polarity.
    method Decide(v: nat)
      requires St().Inv() && qhead == |trail| && St().NoneFalse(trail) && Ordered() && Misc() && St().AssumedOk(root)
      requires v < n && v < |assigns| && assigns[v] == X
      requires forall u :: 0 <= u < |orderpos| && orderpos[u] == -1 && u != v ==>
        Lit(u, false) in trail || Lit(u, true) in trail
      modifies this`lims, this`assigns, this`levels, this`reasons, this`trail
      ensures Running() && lims == old(lims) + [|old(trail)|] && |trail| == |old(trail)| + 1
      ensures v < |old(assigns)| == |old(levels)| == |old(reasons)| && v < |polarity|
      ensures St() == Opened(old(St()), false, if polarity[v] then Lit(v, false) else Lit(v, true))
      ensures old(Saturated()) ==> Saturated()
    {
      hide Entails, State.Base, State.NoneFalse, State.AssumedOk, State.QueueOk, State.Covered, HeapOk, Tight;
      ghost var s := St();
      ghost var l := if polarity[v] then Lit(v, false) else Lit(v, true);
      DecideStep(s, l);
      OpenDecision(v);
      assert trail[..qhead + 1] == s.trail + [l];
      UnassignedForced(s, St(), l);
      if Tight(s, |s.trail|) { OpenTight(s, St()); }
    }

    method OpenDecision(v: nat)
      requires v < |assigns| == |levels| == |reasons| && v < |polarity| && assigns[v] == X
      modifies this`lims, this`assigns, this`levels, this`reasons, this`trail
      ensures St() == Opened(old(St()), false, if polarity[v] then Lit(v, false) else Lit(v, true))
    {
      ghost var s := St();
      var l := if polarity[v] then Lit(v, false) else Lit(v, true);
      lims := lims + [|trail|];
      assert St() == NewLevel(s, false, l);
      var ok := Enqueue(l, NoReason);
    }

    // Return to the highest level at which the learnt clause is unit, or to the root.
    method JumpBack(learnt: seq<Lit>) returns (ghost level: nat)
      requires St().Inv() && root < |lims| && Learnt(St(), learnt) && St().AssumedOk(root) && Ordered() && Misc()
      requires 0 < qhead <= |trail| && lims[|lims| - 1] <= qhead - 1 && St().NoneFalse(trail[..qhead - 1])
      requires Absent(orderpos, trail[..qhead])
      modifies this`assigns, this`reasons, this`polarity, this`order, this`orderpos, this`trail, this`qhead, this`lims
      ensures St().Inv() && St().AssumedOk(root) && St().NoneFalse(trail) && Ordered() && Misc()
      ensures qhead == |trail| && Absent(orderpos, trail[..qhead])
      ensures root <= level < |old(lims)| && lims == old(lims)[..level] && |trail| == old(lims)[level]
      ensures DistinctVars(learnt) && Entails(f, LitSet(learnt)) && |learnt| >= 1
      ensures St().Unassigned(learnt[0])
      ensures forall i :: 1 <= i < |learnt| ==> learnt[i].Not() in trail && learnt[i].v < n
      ensures |learnt| == 1 ==> Entails(f, {learnt[0]}) && root == |lims|
      ensures (old(CutsKept()) ==> Saturated()) && CutApart(St(), learnt)
      ensures St().Units() == old(St().Units())
    {
      hide Entails, State.Inv, State.NoneFalse, State.AssumedOk, HeapOk, Learnt, CancelledTo, Absent, DistinctVars,
        CutsClosed, Tight, CutApart, State.Units;
      ghost var s := St();
      InvRoot(s);
      BackLevelLower(s, learnt);
      LearntLevels(s, learnt);
      var blevel := if |learnt| > 1 then levels[learnt[1].v] else root;
      blevel := if root > blevel then root else blevel;
      level := blevel;
      assert level == BackLevel(s, learnt);
      LastLim(s, level);
      CancelUntil(blevel);
      CutLims(s, St(), level);
      RunUnits(s, St(), level);
      assert s.trail[..s.lims[level]] <= s.trail[..old(qhead) - 1];
      CutStep(s, St(), level, s.trail[..old(qhead) - 1]);
      LearntParts(s, St(), learnt);
      JumpApart(s, St(), learnt);
      ReturnTight(s, St(), level);
    }

    // A conflict above the root: learn a clause, go back, assert its first literal.
    method Learn(confl: Conflict, ghost len0: nat)
      requires Clashing(confl) && root < |lims|
      modifies this`tags, this`tagged, this`activity, this`varInc, this`order, this`orderpos, this`assigns,
               this`reasons, this`polarity,
               this`trail, this`qhead, this`lims, this`arena, this`learnts, this`wl, this`nextHandle, this`levels
      ensures Running() && root <= |lims| && Measure(n, lims, root, |trail|) < Measure(n, old(lims), root, len0)
      ensures OneLearnt(old(St()), old(nextHandle), St(), nextHandle)
      ensures old(CutsKept()) ==> Saturated()
    {
      hide Entails, State.Inv, State.NoneFalse, State.AssumedOk, HeapOk, Learnt, Conflicting, Absent, DistinctVars,
        State.QueueOk, Solver.Misc, Solver.Running, Measure, Tight,
        CutsClosed, Solver.Recordable, State.Units, RecordedAs, UnitRecorded, OneLearnt, CutApart;
      ghost var lims0, s := lims, St();
      var learnt := AnalyzeConflict(confl);
      ghost var level, deep := LearnBack(learnt);
      ghost var t := St();
      Record(learnt);
      LearntFrom(s, t, old(nextHandle), St(), nextHandle);
      ConflictLowers(St(), lims0, len0);
      ActVarDecay();
    }

    // The cut before the learnt clause is recorded; deep: the levels there were.
    method LearnBack(learnt: seq<Lit>) returns (ghost level: nat, ghost deep: nat)
      requires root < |lims| && Learnt(St(), learnt) && St().Inv() && St().AssumedOk(root) && Ordered() && Misc()
      requires 0 < qhead <= |trail| && lims[|lims| - 1] <= qhead - 1 && St().NoneFalse(trail[..qhead - 1])
      requires Absent(orderpos, trail[..qhead])
      modifies this`assigns, this`reasons, this`polarity, this`order, this`orderpos, this`trail, this`qhead, this`lims
      ensures Recordable(learnt) && (old(CutsKept()) ==> Saturated()) && deep == |old(lims)|
      ensures root <= level < deep && lims == old(lims)[..level] && |trail| == old(lims)[level] && deep - root <= n
      ensures St().Units() == old(St().Units())
    {
      hide Entails, State.Inv, State.NoneFalse, State.AssumedOk, HeapOk, Learnt, Absent, DistinctVars, Solver.Misc,
        CutsClosed, Tight, CutApart, State.Units;
      TrailLength(St());
      InvLevels(St());
      deep := |lims|;
      level := JumpBack(learnt);
    }

    // The clause can be recorded: its first literal is unassigned, the others are false.
    ghost predicate Recordable(c: seq<Lit>)
      reads this`n, this`f, this`assigns, this`levels, this`reasons, this`trail, this`lims, this`root, this`assumed,
            this`arena, this`learnts, this`wl
      reads this`qhead, this`activity, this`order, this`orderpos, this`polarity, this`model, this`tags, this`tagged,
            this`nextHandle
    {
      && St().Inv() && St().AssumedOk(root) && St().NoneFalse(trail) && Ordered() && Misc()
      && qhead == |trail| && Absent(orderpos, trail[..qhead]) && root <= |lims|
      && DistinctVars(c) && Entails(f, LitSet(c)) && |c| >= 1 && CutApart(St(), c)
      && St().Unassigned(c[0]) && (forall i :: 1 <= i < |c| ==> c[i].Not() in trail && c[i].v < n)
      && (|c| == 1 ==> Entails(f, {c[0]}) && root == |lims|)
    }

    lemma RecordableParts(c: seq<Lit>)
      requires Recordable(c)
      ensures St().TrailOk() && |c| >= 1 && St().Unassigned(c[0]) && c[0].v < n
    {
      hide Entails, State.LimsOk, State.LevelsOk, State.ReasonsOk, State.ArenaOk, State.WatchesOk, State.Covered,
        State.NoneFalse, State.AssumedOk, HeapOk, Absent, DistinctVars, Solver.Misc, Tight, CutApart;
    }

    lemma RecordableState(c: seq<Lit>)
      requires Recordable(c)
      ensures St().Inv() && St().AssumedOk(root) && Ordered() && Absent(orderpos, trail) && qhead == |trail|
      ensures root <= |lims|
    {
      hide Entails, State.Inv, State.NoneFalse, State.AssumedOk, HeapOk, Absent, DistinctVars, Solver.Misc, Tight,
        CutApart;
      assert trail[..qhead] == trail;
    }

    // The search goes on with the literal recorded.
    lemma RecordedRuns(t: State, l: Lit)
      requires St().Inv() && St().NoneFalse(t.trail) && Misc() && Ordered() && Absent(orderpos, t.trail)
      requires trail == t.trail + [l] && qhead == |t.trail| && root <= |lims|
      requires St().AssumedOk(root) && St().QueueOk(|t.trail|) && (lims != [] ==> lims[|lims| - 1] <= qhead)
      ensures Running()
    {
      hide Entails, State.Inv, State.NoneFalse, State.AssumedOk, HeapOk, Absent, State.QueueOk, Solver.Misc;
      RecordedAbsent(orderpos, t.trail, trail, l);
      assert trail[..qhead] == t.trail;
    }

    method AnalyzeConflict(confl: Conflict) returns (learnt: seq<Lit>)
      requires 0 < qhead <= |trail| && Stopped(trail[..qhead - 1], trail[qhead - 1], confl)
      requires root < |lims| && lims[|lims| - 1] <= qhead - 1
      requires Misc() && Ordered() && Absent(orderpos, trail[..qhead])
      modifies this`tags, this`tagged, this`activity, this`varInc, this`order, this`orderpos
      ensures Ordered() && Misc() && Absent(orderpos, trail[..qhead]) && Learnt(St(), learnt)
    {
      hide Entails, State.Inv, State.NoneFalse, HeapOk, Learnt, Conflicting, Absent, Solver.TagsClear;
      InvLevels(St());
      learnt := Analyze(confl, trail[qhead - 1], qhead - 1, VarSet(ConflictLits(confl)));
      HeapSize(n, activity, order, orderpos);
      AbsentSame(old(orderpos), orderpos, trail[..qhead]);
    }

    // sat_solver_record, after the cut.
    method Record(c: seq<Lit>)
      requires Recordable(c)
      modifies this`arena, this`learnts, this`wl, this`nextHandle, this`assigns, this`levels, this`reasons, this`trail
      ensures Running() && |trail| == |old(trail)| + 1 && St().Inv() && root <= |lims|
      ensures if |c| > 1 then RecordedAs(old(St()), St(), old(nextHandle), c)
        else c[0].v < |old(assigns)| == |old(levels)| == |old(reasons)| && St() == UnitRecorded(old(St()), c[0])
      ensures OneLearnt(old(St()), old(nextHandle), St(), nextHandle)
      ensures old(Saturated()) ==> Saturated()
    {
      hide Entails, State.Inv, State.NoneFalse, State.AssumedOk, HeapOk, Absent, DistinctVars, State.QueueOk,
        Solver.Misc, Tight, CutApart, RecordedAs, UnitRecorded, OneLearnt, State.Units, Solver.Recordable,
        Solver.Running;
      ghost var t := St();
      RecordableParts(c);
      RecordableState(c);
      InvLevels(t);
      UnassignedBounds(t, c[0]);
      AssertLearnt(c);
      RecordedCount(t, St(), old(nextHandle), c);
      RecordedFacts(t, St(), c[0]);
      RecordedRuns(t, c[0]);
    }

    // Store the clause, if it is no unit, and make its first literal true.
    method AssertLearnt(c: seq<Lit>)
      requires Recordable(c)
      modifies this`arena, this`learnts, this`wl, this`nextHandle, this`assigns, this`levels, this`reasons, this`trail
      ensures St().Inv() && St().NoneFalse(old(trail)) && Misc() && c[0].v < |old(levels)|
      ensures trail == old(trail) + [c[0]] && |levels| == |old(levels)| && levels[c[0].v] in {0, |lims|}
      ensures if |c| > 1 then RecordedAs(old(St()), St(), old(nextHandle), c)
        else c[0].v < |old(assigns)| == |old(levels)| == |old(reasons)| && St() == UnitRecorded(old(St()), c[0])
      ensures nextHandle == old(nextHandle) + if |c| > 1 then 1 else 0
      ensures old(Saturated()) ==> Saturated()
    {
      hide Entails, State.Inv, State.NoneFalse, State.AssumedOk, HeapOk, Absent, DistinctVars, Solver.Misc, Tight,
        CutApart, RecordedAs;
      ghost var t := St();
      UnassignedBounds(t, c[0]);
      if |c| > 1 {
        RecordLong(c);
        RecordedFields(t, St(), old(nextHandle), c);
      } else {
        RecordUnit(c[0]);
      }
    }

    // Everything is assigned and nothing is false: store the model.
    method StoreModel()
      requires St().Inv() && St().NoneFalse(trail) && St().AssumedOk(root) && Ordered() && Absent(orderpos, trail)
      requires |orderpos| == n && forall v :: 0 <= v < n ==> orderpos[v] == -1
      modifies this`model
      ensures |model| == n && IsModel(f, assumed, model)
    {
      hide Entails, State.Inv, State.NoneFalse, State.AssumedOk, HeapOk, IsModel, Total;
      InvLevels(St());
      AllAssigned(St(), orderpos);
      TotalModel(St());
      CopyModel();
    }

    method CopyModel()
      requires |assigns| == n
      modifies this`model
      ensures model == ModelOf(assigns)
    {
      var i := 0;
      model := [];
      while i < n
        invariant 0 <= i <= n && |model| == i
        invariant forall v :: 0 <= v < i ==> model[v] == (assigns[v] == One)
      {
        model := model + [assigns[i] == One];
        i := i + 1;
      }
      assert model == ModelOf(assigns);
    }

    // Back to the root level with everything propagated.
    method CancelToRoot()
      requires Quiescent()
      modifies this`assigns, this`reasons, this`polarity, this`order, this`orderpos, this`trail, this`qhead, this`lims
      ensures Ready() && lims == old(lims)[..root] && qhead == |trail| && St().Units() == old(St().Units())
      ensures old(Saturated()) ==> Saturated()
    {
      hide State.Units, Entails, State.Inv, State.NoneFalse, State.AssumedOk, HeapOk, CancelledTo, Absent, Solver.Misc,
        CutsClosed, State.Settled;
      if |lims| > root {
        CutToRoot();
      }
      assert trail[..qhead] == trail;
    }

    method CutToRoot()
      requires St().Inv() && St().NoneFalse(trail) && St().AssumedOk(root) && Ordered() && Misc()
      requires qhead == |trail| && Absent(orderpos, trail[..qhead]) && root < |lims|
      modifies this`assigns, this`reasons, this`polarity, this`order, this`orderpos, this`trail, this`qhead, this`lims
      ensures St().Inv() && St().NoneFalse(trail) && St().AssumedOk(root) && Ordered() && Misc()
      ensures qhead == |trail| && Absent(orderpos, trail[..qhead])
      ensures |trail| == old(lims)[root] && lims == old(lims)[..root] && St().Units() == old(St().Units())
      ensures old(CutsKept()) ==> Saturated()
    {
      hide State.Units, Entails, State.Inv, State.NoneFalse, State.AssumedOk, HeapOk, CancelledTo, Absent,
        Solver.TagsClear,
        Solver.HandlesBelow, Tight, CutsClosed;
      ghost var s := St();
      InvRoot(s);
      LastLim(s, root);
      CancelUntil(root);
      CutLims(s, St(), root);
      RunUnits(s, St(), root);
      CutStep(s, St(), root, s.trail);
      ReturnTight(s, St(), root);
    }

    // The state on entry to the search loop.
    lemma ReadyRuns()
      requires Ready()
      ensures Running() && root <= |lims| && Measure(n, lims, root, |trail|) <= MaxConflicts(n)
    {
      hide Entails, State.LevelsOk, State.ReasonsOk, State.ArenaOk, State.WatchesOk, State.Covered, State.NoneFalse,
        HeapOk, State.LevelAt;
      ReadyQueue(St(), qhead);
      AbsentPrefix(orderpos, trail, trail, qhead, if qhead < |trail| then qhead + 1 else qhead);
      InvLevels(St());
      MeasureBound(n, lims, root, |trail|);
    }

    // Everything has been propagated without a conflict.
    ghost predicate Quiescent()
      reads this`n, this`f, this`assigns, this`levels, this`reasons, this`trail, this`lims, this`root, this`assumed,
            this`arena, this`learnts, this`wl
      reads this`qhead, this`activity, this`order, this`orderpos, this`polarity, this`model, this`tags, this`tagged,
            this`nextHandle
    {
      && St().Inv() && St().NoneFalse(trail) && St().AssumedOk(root) && Ordered() && Misc()
      && qhead == |trail| && Absent(orderpos, trail[..qhead]) && root <= |lims|
    }

    // Propagation has stopped at a false clause.
    ghost predicate Clashing(confl: Conflict)
      reads this`n, this`f, this`assigns, this`levels, this`reasons, this`trail, this`lims, this`root, this`assumed,
            this`arena, this`learnts, this`wl
      reads this`qhead, this`activity, this`order, this`orderpos, this`polarity, this`model, this`tags, this`tagged,
            this`nextHandle, this`binary
    {
      && 0 < qhead <= |trail| && Stopped(trail[..qhead - 1], trail[qhead - 1], confl)
      && root <= |lims| && (lims != [] ==> lims[|lims| - 1] <= qhead - 1)
      && Misc() && Ordered() && St().AssumedOk(root) && Absent(orderpos, trail[..qhead])
    }

    // One propagation of the search loop.
    method PropagateRunning() returns (confl: Conflict)
      requires Running()
      modifies this`assigns, this`levels, this`reasons, this`trail, this`qhead, this`arena, this`wl, this`binary
      ensures lims == old(lims) && |old(trail)| <= |trail| && root <= |lims|
      ensures confl == NoConflict ==> Quiescent()
      ensures confl != NoConflict ==> Clashing(confl)
      ensures old(Saturated()) ==> CutsKept() && (confl == NoConflict ==> Saturated())
      ensures Grown(old(St()), St()) && KeptOverdue(old(St()), St(), old(qhead))
      ensures old(qhead) == |old(trail)| ==> confl == NoConflict && St() == old(St())
      ensures St().Units() == old(St().Units()) && Uncounted() == old(Uncounted())
    {
      hide Entails, State.Inv, State.NoneFalse, State.AssumedOk, HeapOk, Grown, Absent, State.QueueOk, Conflicting,
        State.Settled, State.Closed, CutsClosed, Tight, KeptOverdue, State.Units;
      ghost var s := St();
      confl := Propagate();
      RunGrown(s, St());
      GrownUnits(s, St());
      AbsentPrefix(orderpos, s.trail, trail, if old(qhead) < |s.trail| then old(qhead) + 1 else old(qhead), qhead);
    }

    // A conflict: above no decision the search is over, otherwise a clause is learnt.
    method HandleConflict(confl: Conflict, ghost len0: nat) returns (refuted: bool)
      requires Clashing(confl) && root <= |lims|
      modifies this`tags, this`tagged, this`activity, this`varInc, this`order, this`orderpos, this`assigns,
               this`reasons, this`polarity,
               this`trail, this`qhead, this`lims, this`arena, this`learnts, this`wl, this`nextHandle, this`levels,
               this`confFinal, this`conflicts
      ensures refuted ==>
        Refuted(f, LitSet(assumed)) && FinalClause(f, assumed, confFinal) && FinalCore(St(), confFinal)
      ensures refuted && 0 < root ==> Withdrawable()
      ensures conflicts == old(conflicts) + 1
      ensures if refuted then old(St()) == St() && nextHandle == old(nextHandle)
        else OneLearnt(old(St()), old(nextHandle), St(), nextHandle)
      ensures Uncounted() == old(Uncounted()) + (if refuted then 1 else 0)
      ensures old(St().Units()) <= St().Units() && old(nextHandle) <= nextHandle
      ensures !refuted ==>
        Running() && root <= |lims| && Measure(n, lims, root, |trail|) < Measure(n, old(lims), root, len0)
      ensures old(CutsKept()) ==> CutsKept() && (!refuted ==> Saturated())
    {
      hide Entails, Refuted, FinalClause, FinalCore, Measure, Solver.Running, Solver.Clashing, Solver.Withdrawable,
        Solver.Saturated, Solver.CutsKept, OneLearnt, State.Units;
      conflicts := conflicts + 1;
      if |lims| == root {
        ConflictAtRoot(confl);
        return true;
      }
      ghost var s := St();
      Learn(confl, len0);
      LearntCounts(s, old(nextHandle), St(), nextHandle);
      SaturatedKeeps();
      refuted := false;
    }

    lemma SaturatedKeeps()
      ensures Saturated() ==> CutsKept()
    {
      hide CutsClosed, State.Settled;
    }

    // The bound on the conflicts of one search has been reached.
    predicate Restarting(nofConflicts: int, conflictC: int)
      reads this`noRestarts
    {
      !noRestarts && nofConflicts >= 0 && conflictC >= nofConflicts
    }

    // Without a conflict: stop at a limit, or decide, or store the model.
    method Proceed(nofConflicts: int, conflictC: int, ghost len0: nat) returns (status: Status, done: bool)
      requires Quiescent() && root <= |lims| && len0 <= |trail|
      modifies this`assigns, this`levels, this`reasons, this`trail, this`qhead, this`lims, this`arena, this`learnts,
               this`wl,
               this`binary, this`order, this`orderpos, this`polarity, this`model, this`late
      ensures status != False && (done ==> Ready() && qhead == |trail|)
      ensures done && status == True ==> IsModel(f, assumed, model)
      ensures done ==> if status == Undef then OverLimit() || Restarting(nofConflicts, conflictC)
        else !OverLimit() && !Restarting(nofConflicts, conflictC)
      ensures St().Units() == old(St().Units()) && Uncounted() == old(Uncounted())
      ensures !done ==>
        Running() && root <= |lims| && Measure(n, lims, root, |trail|) < Measure(n, old(lims), root, len0)
      ensures old(Saturated()) ==> Saturated()
    {
      hide IsModel, Measure, Solver.Running, Solver.Quiescent, Solver.Ready, Solver.Saturated, State.Units;
      status, done := Undef, true;
      var exceeded := LimitReached();
      if Restarting(nofConflicts, conflictC) || exceeded {
        CancelToRoot();
        return;
      }
      done := DecideOrFinish(len0);
      if done { status := True; }
    }

    // The conflicts beyond those that have taught a clause (stored under a handle) or a unit.
    ghost function Uncounted(): int
      reads this`n, this`f, this`assigns, this`levels, this`reasons, this`trail, this`lims, this`root, this`assumed,
            this`arena, this`learnts, this`wl, this`nextHandle, this`conflicts
    {
      conflicts - nextHandle - |St().Units()|
    }

    // sat_solver_search, without activity factors; limits other than the conflict limit are
    // a coin toss. Every conflict teaches a clause or a unit, but the last one when the
    // assumptions are refuted.
    method Search(nofConflicts: int) returns (status: Status)
      requires Ready()
      modifies this`assigns, this`levels, this`reasons, this`trail, this`qhead, this`lims, this`arena, this`learnts,
               this`wl,
               this`binary, this`nextHandle, this`order, this`orderpos, this`activity, this`varInc, this`polarity,
               this`tags, this`tagged, this`model, this`confFinal, this`conflicts, this`late
      ensures status == True ==> Ready() && IsModel(f, assumed, model)
      ensures status != False ==> Ready()
      ensures status != False ==>
        (status == Undef <==> OverLimit() || Restarting(nofConflicts, conflicts - old(conflicts)))
      ensures Uncounted() == old(Uncounted()) + (if status == False then 1 else 0)
      ensures old(St().Units()) <= St().Units() && old(nextHandle) <= nextHandle
      ensures status != False ==> conflicts - old(conflicts) <= MaxConflicts(n)
      ensures status != False ==> qhead == |trail|
      ensures status == False ==>
        Refuted(f, LitSet(assumed)) && FinalClause(f, assumed, confFinal) && FinalCore(St(), confFinal)
      ensures status == False && 0 < root ==> Withdrawable()
      ensures old(Saturated()) ==> if status == False then CutsKept() else Saturated()
    {
      hide Refuted, IsModel, FinalClause, FinalCore, Measure, MaxConflicts, Solver.Running, Solver.Ready,
        Solver.Withdrawable, Solver.Saturated, Solver.CutsKept, State.Units, LitSet, Solver.Uncounted,
        Solver.Restarting, Solver.OverLimit;
      ReadyRuns();
      var conflictC := 0;
      while true
        invariant Running() && root <= |lims|
        invariant old(Saturated()) ==> Saturated()
        invariant conflictC + Measure(n, lims, root, |trail|) <= MaxConflicts(n)
        invariant conflictC == conflicts - old(conflicts) && Uncounted() == old(Uncounted())
        invariant old(St().Units()) <= St().Units() && old(nextHandle) <= nextHandle
        decreases Measure(n, lims, root, |trail|)
      {
        var done;
        status, done, conflictC := SearchStep(nofConflicts, conflictC);
        if done {
          return;
        }
      }
    }

    // One round of the search loop; conflictC counts the conflicts.
    method SearchStep(nofConflicts: int, conflictC: int) returns (status: Status, done: bool, conflictC2: int)
      requires Running() && root <= |lims|
      modifies this`assigns, this`levels, this`reasons, this`trail, this`qhead, this`lims, this`arena, this`learnts,
               this`wl,
               this`binary, this`nextHandle, this`order, this`orderpos, this`activity, this`varInc, this`polarity,
               this`tags, this`tagged, this`model, this`confFinal, this`conflicts, this`late
      ensures conflictC2 - conflictC == conflicts - old(conflicts) == if conflicts == old(conflicts) then 0 else 1
      ensures !done ==> Running() && root <= |lims|
      ensures !done ==> root <= |lims| && Measure(n, lims, root, |trail|) < old(Measure(n, lims, root, |trail|))
      ensures !done ==> old(Saturated()) ==> Saturated()
      ensures Uncounted() == old(Uncounted()) + (if done && status == False then 1 else 0)
      ensures old(St().Units()) <= St().Units() && old(nextHandle) <= nextHandle
      ensures done && status != False ==> Ready() && qhead == |trail| && conflictC2 == conflictC
      ensures done && status != False ==> (status == Undef <==> OverLimit() || Restarting(nofConflicts, conflictC))
      ensures done && status == True ==> IsModel(f, assumed, model)
      ensures done && status == False ==>
        Refuted(f, LitSet(assumed)) && FinalClause(f, assumed, confFinal) && FinalCore(St(), confFinal) &&
        (0 < root ==> Withdrawable())
      ensures done && old(Saturated()) ==> if status == False then CutsKept() else Saturated()
    {
      hide Refuted, IsModel, FinalClause, FinalCore, Measure, Solver.Running, Solver.Quiescent, Solver.Clashing,
        Solver.Ready, Solver.Withdrawable, Solver.Saturated, Solver.CutsKept, State.Units, Grown, KeptOverdue, LitSet,
        OneLearnt, Solver.Uncounted, Solver.Restarting, Solver.OverLimit;
      ghost var len0 := |trail|;
      status, conflictC2 := Undef, conflictC;
      var confl := PropagateRunning();
      if confl != NoConflict {
        conflictC2 := conflictC + 1;
        done := HandleConflict(confl, len0);
        status := False;
      } else {
        status, done := Proceed(nofConflicts, conflictC, len0);
      }
    }

    // The search ends with the assumptions refuted.
    method ConflictAtRoot(confl: Conflict)
      requires Clashing(confl) && root == |lims|
      modifies this`tags, this`tagged, this`confFinal
      ensures Refuted(f, LitSet(assumed)) && FinalClause(f, assumed, confFinal) && FinalCore(St(), confFinal)
      ensures 0 < root ==> Withdrawable()
    {
      hide Entails, State.Inv, State.NoneFalse, State.AssumedOk, HeapOk, Conflicting, Absent, Refuted, FinalClause,
        FinalCore,
        Solver.Misc, Solver.Poppable;
      ClashSafe(St(), qhead);
      ExplainConflict(confl);
    }

    // The conflict-free half of a round: a decision, or the model when every variable has a value.
    method DecideOrFinish(ghost len0: nat) returns (total: bool)
      requires Quiescent() && root <= |lims| && len0 <= |trail|
      modifies this`assigns, this`levels, this`reasons, this`trail, this`qhead, this`lims, this`arena, this`learnts,
               this`wl,
               this`binary, this`order, this`orderpos, this`polarity, this`model
      ensures total ==> Ready() && qhead == |trail| && IsModel(f, assumed, model)
      ensures !total ==>
        Running() && root <= |lims| && Measure(n, lims, root, |trail|) < Measure(n, old(lims), root, len0)
      ensures old(Saturated()) ==> Saturated()
      ensures St().Units() == old(St().Units())
    {
      hide State.Units, Entails, State.Inv, State.NoneFalse, State.AssumedOk, HeapOk, Absent, IsModel, Solver.Misc,
        Solver.Running, Solver.Ready, Measure, Solver.Quiescent, Tight;
      Maintain();
      var next := SelectNext();
      if next == -1 {
        Finish();
        return true;
      }
      DecideNext(next, len0);
      return false;
    }

    // The variable to decide on; what has left the heap is assigned.
    ghost predicate Chosen(next: int)
      reads this`n, this`assigns, this`trail, this`orderpos
    {
      if next == -1 then |orderpos| == n && forall v :: 0 <= v < n ==> orderpos[v] == -1
      else
        && 0 <= next < n && next < |assigns| && assigns[next] == X
        && forall u :: 0 <= u < |orderpos| && orderpos[u] == -1 && u != next ==>
             Lit(u, false) in trail || Lit(u, true) in trail
    }

    method SelectNext() returns (next: int)
      requires Quiescent()
      modifies this`order, this`orderpos
      ensures Chosen(next) && Ordered()
      ensures next == -1 ==> Quiescent()
      ensures St().Inv() && St().NoneFalse(trail) && St().AssumedOk(root) && Misc() && qhead == |trail|
      ensures root <= |lims|
    {
      hide Entails, State.Inv, State.NoneFalse, State.AssumedOk, Absent, HeapOk, Solver.Misc;
      InvLevels(St());
      assert trail[..qhead] == trail;
      ghost var orderpos0 := orderpos;
      HeapSize(n, activity, order, orderpos);
      var random: bool;
      next, random := OrderSelect();
      SelectedAbsent(St(), orderpos0, orderpos, next);
    }

    // Store the model and go back to the root.
    method Finish()
      requires Quiescent() && Chosen(-1)
      modifies this`assigns, this`reasons, this`polarity, this`order, this`orderpos, this`trail, this`qhead,
               this`lims, this`model
      ensures Ready() && qhead == |trail| && IsModel(f, assumed, model)
      ensures old(Saturated()) ==> Saturated()
      ensures St().Units() == old(St().Units())
    {
      hide State.Units, Entails, State.Inv, State.NoneFalse, State.AssumedOk, HeapOk, Absent, IsModel, Tight;
      assert trail[..qhead] == trail;
      StoreModel();
      CancelToRoot();
    }

    method DecideNext(next: nat, ghost len0: nat)
      requires Chosen(next) && Ordered() && len0 <= |trail|
      requires St().Inv() && St().NoneFalse(trail) && St().AssumedOk(root) && Misc() && qhead == |trail|
      requires root <= |lims|
      modifies this`lims, this`assigns, this`levels, this`reasons, this`trail
      ensures Running() && root <= |lims| && Measure(n, lims, root, |trail|) < Measure(n, old(lims), root, len0)
      ensures next < |old(assigns)| == |old(levels)| == |old(reasons)| && next < |polarity|
      ensures St() == Opened(old(St()), false, if polarity[next] then Lit(next, false) else Lit(next, true))
      ensures old(Saturated()) ==> Saturated()
      ensures St().Units() == old(St().Units())
    {
      hide Entails, State.Inv, State.NoneFalse, State.AssumedOk, HeapOk, Absent, Solver.Misc, Measure, State.QueueOk,
        Tight, State.Units, Opened;
      ghost var lims0, s := lims, St();
      Decide(next);
      DecidedUnits(s, if polarity[next] then Lit(next, false) else Lit(next, true));
      DecidedLowers(St(), lims0, len0);
    }

    // Before a decision: simplification at level 0 and deletion of learnt clauses.
    method Maintain()
      requires Quiescent()
      modifies this`assigns, this`levels, this`reasons, this`trail, this`qhead, this`arena, this`learnts, this`wl,
               this`binary
      ensures Quiescent() && trail == old(trail) && St().Units() == old(St().Units())
      ensures old(Saturated()) ==> Saturated()
    {
      hide State.Units, Entails, State.Inv, State.NoneFalse, State.QueueOk, Kept, HeapOk, Absent, Tight;
      if lims == [] && !skipSimplify {
        SimplifyAgain();
      }
      assert trail[..qhead] == trail;
      var reduce: bool := *;
      if learntMax != 0 && reduce {
        ReduceDb();
        assert trail[..qhead] == trail;
      }
    }

    // sat_solver_simplify when everything has been propagated already.
    method SimplifyAgain()
      requires St().Inv() && qhead == |trail| && St().NoneFalse(trail)
      modifies this`assigns, this`levels, this`reasons, this`trail, this`qhead, this`arena, this`wl, this`binary
      ensures St() == old(St()) && qhead == old(qhead)
    {
      hide State.Inv, State.NoneFalse, State.QueueOk, Grown, Conflicting;
      QuietQueue(St());
      assert trail[..qhead] == trail;
      var confl := Propagate();
    }

    // A limit other than the number of conflicts of one restart has been reached.
    predicate OverLimit()
      reads this`confLimit, this`conflicts, this`timeLimit, this`late
    {
      (timeLimit && late) || (confLimit != 0 && conflicts > confLimit)
    }

    // Look at the clock: once the time is over it stays over.
    method LimitReached() returns (yes: bool)
      modifies this`late
      ensures yes == OverLimit() && (old(late) ==> late)
    {
      var now: bool := *;
      late := late || now;
      yes := OverLimit();
    }

    // sat_solver_set_literal_polarity for one literal: decide its variable so that it is true.
    method SetLiteralPolarity(l: Lit)
      requires Ready() && l.v < n
      modifies this`polarity
      ensures Ready()
    {
      hide State.Inv, State.NoneFalse, State.AssumedOk, Absent, HeapOk;
      polarity := polarity[l.v := !l.neg];
    }

    // sat_solver_set_resource_limits for the conflict limits.
    method SetResourceLimits(nConfLimit: nat, nConfLimitGlobal: nat)
      modifies this`confLimit
      ensures confLimit == 0 <==> nConfLimit == 0 && nConfLimitGlobal == 0
      ensures nConfLimitGlobal != 0 ==> confLimit <= nConfLimitGlobal
      ensures nConfLimit != 0 ==> confLimit <= conflicts + nConfLimit
      ensures confLimit == 0 || confLimit == nConfLimitGlobal ||
        (nConfLimit != 0 && confLimit == conflicts + nConfLimit)
    {
      confLimit := 0;
      if nConfLimit != 0 {
        confLimit := conflicts + nConfLimit;
      }
      if nConfLimitGlobal != 0 && (confLimit == 0 || confLimit > nConfLimitGlobal) {
        confLimit := nConfLimitGlobal;
      }
    }

    // Remove every assumption.
    method WithdrawAll()
      requires Poppable()
      modifies this`assigns, this`reasons, this`polarity, this`order, this`orderpos, this`trail, this`qhead, this`lims,
               this`root, this`assumed
      ensures root == 0 && assumed == [] && (Ready() <==> old(St().SafeCut(0)))
      ensures old(Withdrawable()) ==> Ready() && qhead == |trail|
      ensures old(CutsKept()) ==> Saturated()
    {
      hide Entails, State.Inv, State.NoneFalse, State.SafeCut, State.AssumedOk, Absent, HeapOk, CutsClosed, Tight;
      InvRoot(St());
      if St().SafeCut(root - 1) { SafeBelow(St(), root - 1); }
      CancelAssumptions(0);
    }

    // The conflicts since was are more than the limit for one call, or all more than the global one.
    predicate Exceeded(was: nat, nConfLimit: nat, nConfLimitGlobal: nat)
      reads this`conflicts
    {
      || (nConfLimit != 0 && conflicts > was + nConfLimit)
      || (nConfLimitGlobal != 0 && conflicts > nConfLimitGlobal)
    }

    // The assumptions lits are refuted: the final clause says which ones, and in the state last they
    // are those with a part in the conflict.
    ghost predicate Disproved(lits: seq<Lit>, last: State)
      reads this`f, this`confFinal
    {
      && Refuted(f, LitSet(lits)) && FinalClause(f, lits, confFinal)
      && FinalCore(last, confFinal) && last.f == f && last.assumed <= lits
    }

    // sat_solver_solve: the clauses under the assumptions lits. found are the literals that the
    // search has recorded as units; refutes: the search was reached and ended in a refutation;
    // last is the state in which the assumptions were refuted.
    method Solve(lits: seq<Lit>, nConfLimit: nat, nConfLimitGlobal: nat)
      returns (status: Status, ghost found: set<Lit>, ghost refutes: bool, ghost last: State)
      requires Ready() && root == 0 && forall i :: 0 <= i < |lits| ==> lits[i].v < n
      modifies this`assigns, this`levels, this`reasons, this`trail, this`qhead, this`lims, this`root, this`assumed,
               this`arena, this`learnts,
               this`wl, this`binary, this`nextHandle, this`order, this`orderpos, this`activity, this`varInc,
               this`polarity,
               this`tags, this`tagged, this`model, this`confFinal, this`conflicts, this`confLimit, this`late
      ensures status == True ==> IsModel(f, lits, model)
      ensures status == False ==> Disproved(lits, last)
      ensures status == Undef ==> Exceeded(old(conflicts), nConfLimit, nConfLimitGlobal) || (timeLimit && late)
      ensures status == True ==> !Exceeded(old(conflicts), nConfLimit, nConfLimitGlobal)
      ensures conflicts == old(conflicts) + (nextHandle - old(nextHandle)) + |found| + if refutes then 1 else 0
      ensures old(nextHandle) <= nextHandle && forall l :: l in found ==> Entails(f, {l})
      ensures refutes ==> status == False
      ensures status == False && !refutes ==> lits != [] && conflicts == old(conflicts)
      ensures root == 0
      ensures status != False || (lits != [] && old(St().NoneFalse(trail))) ==> Ready()
      ensures lits != [] && lits[0].Not() in old(trail) ==> status == False && (Ready() <==> old(St().NoneFalse(trail)))
      ensures old(Propagating()) && (status != False || lits != []) ==> Saturated()
    {
      hide IsModel, Solver.Ready, Solver.Saturated, State.NoneFalse, Solver.Propagating, Entails, Solver.Exceeded,
        Solver.OverLimit, Solver.Disproved;
      SetResourceLimits(nConfLimit, nConfLimitGlobal);
      status, found, refutes, last := SolveUnder(lits);
      LimitMeans(old(conflicts), nConfLimit, nConfLimitGlobal);
    }

    // The same within the limits that have been set.
    method SolveUnder(lits: seq<Lit>)
      returns (status: Status, ghost found: set<Lit>, ghost refutes: bool, ghost last: State)
      requires Ready() && root == 0 && forall i :: 0 <= i < |lits| ==> lits[i].v < n
      modifies this`assigns, this`levels, this`reasons, this`trail, this`qhead, this`lims, this`root, this`assumed,
               this`arena, this`learnts,
               this`wl, this`binary, this`nextHandle, this`order, this`orderpos, this`activity, this`varInc,
               this`polarity,
               this`tags, this`tagged, this`model, this`confFinal, this`conflicts, this`late
      ensures status == True ==> IsModel(f, lits, model)
      ensures status == False ==> Disproved(lits, last)
      ensures status == Undef ==> OverLimit()
      ensures status == True ==> confLimit == 0 || conflicts <= confLimit
      ensures conflicts == old(conflicts) + (nextHandle - old(nextHandle)) + |found| + if refutes then 1 else 0
      ensures old(nextHandle) <= nextHandle && forall l :: l in found ==> Entails(f, {l})
      ensures refutes ==> status == False
      ensures status == False && !refutes ==> lits != [] && conflicts == old(conflicts)
      ensures root == 0
      ensures status != False || (lits != [] && old(St().NoneFalse(trail))) ==> Ready()
      ensures lits != [] && lits[0].Not() in old(trail) ==> status == False && (Ready() <==> old(St().NoneFalse(trail)))
      ensures old(Propagating()) && (status != False || lits != []) ==> Saturated()
    {
      hide IsModel, Solver.Ready, Solver.Withdrawable, Solver.Poppable, Solver.Disproved,
        Solver.Saturated, Solver.CutsKept, State.NoneFalse, Solver.Propagating, State.Units, Entails,
        Solver.OverLimit;
      found, refutes := {}, false;
      var ok;
      ok, last := PushAll(lits);
      if !ok {
        return False, found, refutes, last;
      }
      status, found := SolveCounted();
      refutes, last := status == False, St();
      CancelToZero(status);
    }

    lemma LimitMeans(was: nat, nConfLimit: nat, nConfLimitGlobal: nat)
      requires confLimit == 0 <==> nConfLimit == 0 && nConfLimitGlobal == 0
      requires nConfLimitGlobal != 0 ==> confLimit <= nConfLimitGlobal
      requires nConfLimit != 0 ==> confLimit <= was + nConfLimit
      requires confLimit == 0 || confLimit == nConfLimitGlobal || (nConfLimit != 0 && confLimit == was + nConfLimit)
      ensures confLimit == 0 || conflicts <= confLimit <==> !Exceeded(was, nConfLimit, nConfLimitGlobal)
      ensures OverLimit() ==> Exceeded(was, nConfLimit, nConfLimitGlobal) || (timeLimit && late)
    {
    }

    // The search below all assumptions; found are the literals recorded as units.
    method SolveCounted() returns (status: Status, ghost found: set<Lit>)
      requires Ready() && (root == 0 ==> assumed == [])
      modifies this`assigns, this`levels, this`reasons, this`trail, this`qhead, this`lims, this`arena, this`learnts,
               this`wl,
               this`binary, this`nextHandle, this`order, this`orderpos, this`activity, this`varInc, this`polarity,
               this`tags, this`tagged, this`model, this`confFinal, this`conflicts, this`late
      ensures status == True ==> Ready() && qhead == |trail| && IsModel(f, assumed, model)
      ensures status == Undef ==> Ready() && OverLimit() && (old(qhead) == |old(trail)| ==> qhead == |trail|)
      ensures status == True ==> confLimit == 0 || conflicts <= confLimit
      ensures conflicts - old(conflicts) == nextHandle - old(nextHandle) + |found| + (if status == False then 1 else 0)
      ensures old(nextHandle) <= nextHandle && forall l :: l in found ==> Entails(f, {l})
      ensures status == False ==> Disproved(assumed, St())
      ensures status == False && 0 < root ==> Withdrawable()
      ensures old(Saturated()) ==> if status == False then CutsKept() else Saturated()
    {
      hide Refuted, IsModel, FinalClause, FinalCore, Solver.Ready, Solver.Withdrawable, LitSet, Solver.Saturated,
        Solver.CutsKept,
        State.Units, Entails, Solver.OverLimit;
      ghost var units := St().Units();
      status := SolveInternal();
      found := St().Units() - units;
      UnitsFound(status);
    }

    lemma UnitsFound(status: Status)
      requires if status == False then Refuted(f, LitSet(assumed)) && (0 < root ==> Withdrawable()) else Ready()
      requires root == 0 ==> assumed == []
      ensures forall l :: l in St().Units() ==> Entails(f, {l})
    {
      hide State.Inv, Entails, Refuted, State.NoneFalse, State.AssumedOk, Absent, HeapOk, Solver.Misc, State.SafeCut;
      assert LitSet([]) == {};
      UnitsEntailed(St());
    }

    // The push of lits[i] in state t has failed: all assumptions are taken back.
    method TakeBackAll(lits: seq<Lit>, i: nat, ghost t: State) returns (ghost last: State)
      requires i < |lits| && Rejected(t, lits[i]) && assumed == lits[..i + 1]
      modifies this`assigns, this`reasons, this`polarity, this`order, this`orderpos, this`trail, this`qhead, this`lims,
               this`root, this`assumed
      ensures Disproved(lits, last) && root == 0
      ensures t.NoneFalse(t.trail) ==> Ready()
      ensures old(St()) == NewLevel(t, true, lits[i]) && t.lims == [] ==> (Ready() <==> t.NoneFalse(t.trail))
      ensures old(CutsKept()) ==> Saturated()
    {
      hide Refuted, FinalClause, FinalCore, Solver.Ready, Solver.Withdrawable, Solver.Poppable, Solver.Rejected, LitSet,
        Solver.Saturated, Solver.CutsKept, State.NoneFalse, State.SafeCut;
      last := St();
      RejectedSafe(t, lits[i]);
      PrefixRefutes(f, lits, i + 1, confFinal);
      NewLevelSafe(t, lits[i]);
      WithdrawAll();
    }

    // Push the assumptions; when one fails, take all of them back.
    method PushAll(lits: seq<Lit>) returns (ok: bool, ghost last: State)
      requires Ready() && root == 0 && forall i :: 0 <= i < |lits| ==> lits[i].v < n
      modifies this`assigns, this`levels, this`reasons, this`trail, this`qhead, this`lims, this`root, this`assumed,
               this`arena, this`wl,
               this`binary, this`order, this`orderpos, this`polarity, this`tags, this`tagged, this`confFinal
      ensures ok ==> Ready() && assumed == lits && root == |lits|
      ensures !ok ==> Disproved(lits, last) && root == 0 && lits != []
      ensures !ok && old(St().NoneFalse(trail)) ==> Ready()
      ensures lits != [] && lits[0].Not() in old(trail) ==> !ok && (Ready() <==> old(St().NoneFalse(trail)))
      ensures old(Propagating()) ==> Saturated()
    {
      hide Refuted, FinalClause, FinalCore, Solver.Ready, Solver.Rejected, LitSet, Solver.Saturated, Solver.CutsKept,
        State.NoneFalse, Solver.Propagating;
      ghost var s := St();
      last := s;
      ReadyAssumed();
      PropagatingSaturated();
      var i := 0;
      while i < |lits|
        invariant 0 <= i <= |lits| && Ready() && assumed == lits[..i] && root == i
        invariant i == 0 ==> St() == s
        invariant i > 0 ==> St().NoneFalse(trail) && lits[0].Not() !in s.trail
        invariant old(Propagating()) ==> Propagating() && Saturated()
      {
        ReadyAssumed();
        ghost var t := St();
        ok := PushNext(lits[i]);
        assert assumed == lits[..i + 1];
        if !ok {
          last := TakeBackAll(lits, i, t);
          return;
        }
        i := i + 1;
      }
      assert lits[..i] == lits;
      ok := true;
    }

    // One push of several.
    method PushNext(p: Lit) returns (ok: bool)
      requires Ready() && p.v < n
      modifies this`assigns, this`levels, this`reasons, this`trail, this`qhead, this`lims, this`root, this`assumed,
               this`arena, this`wl,
               this`binary, this`tags, this`tagged, this`confFinal
      ensures root == old(root) + 1 && assumed == old(assumed) + [p]
      ensures if ok then Ready() && St().NoneFalse(trail) else Rejected(old(St()), p)
      ensures p.Not() in old(trail) ==> !ok && St() == NewLevel(old(St()), true, p)
      ensures old(Propagating()) ==> CutsKept() && (ok ==> Propagating() && Saturated())
    {
      hide Refuted, FinalClause, FinalCore, Solver.Ready, Solver.Rejected, Solver.Withdrawable, Solver.Saturated,
        Solver.CutsKept,
        State.NoneFalse, NewLevel, Pushed;
      ok := Push(p);
      if ok { ReadyAssumed(); }
    }

    // The assumptions are taken back after the search.
    method CancelToZero(status: Status)
      requires status != False ==> Ready()
      requires status == False && 0 < root ==> Withdrawable()
      modifies this`assigns, this`reasons, this`polarity, this`order, this`orderpos, this`trail, this`qhead, this`lims,
               this`root, this`assumed
      ensures status == False && old(root) == 0 ==> root == 0
      ensures status != False || 0 < old(root) ==> root == 0 && assumed == [] && Ready()
      ensures 0 < old(root) && old(CutsKept()) ==> Saturated()
      ensures old(Saturated()) ==> Saturated()
    {
      hide State.Inv, State.NoneFalse, State.AssumedOk, Absent, HeapOk, Solver.Misc, CutsClosed, State.Settled;
      if 0 < root {
        if status != False { ReadyWithdrawable(); }
        WithdrawAll();
      } else if status != False {
        ReadyAssumed();
      }
    }

    lemma ReadyWithdrawable()
      requires Ready() && 0 < root
      ensures Withdrawable() && Poppable()
    {
      hide Entails, State.NoneFalse, State.SafeCut, Absent, HeapOk, State.AssumedOk, State.LevelsOk, State.ReasonsOk,
        State.ArenaOk, State.WatchesOk, State.Covered;
      QuietSafe(St(), root - 1);
      assert trail[..qhead] == trail;
      AssumedLess(St(), root, root - 1);
    }

    lemma WithdrawablePops()
      requires Withdrawable()
      ensures Poppable() && 0 < root == |assumed|
    {
      hide State.Inv, State.NoneFalse, State.AssumedOk, Absent, HeapOk;
      InvRoot(St());
    }

    lemma ReadyAssumed()
      requires Ready()
      ensures |model| == n && |assumed| == root == |lims| && qhead <= |trail| && (0 < root ==> qhead == |trail|)
      ensures qhead == |trail| ==> St().NoneFalse(trail)
    {
      hide Entails, State.NoneFalse, Absent, HeapOk, State.AssumedOk, State.Inv;
      assert qhead == |trail| ==> trail[..qhead] == trail;
      InvRoot(St());
    }

    // sat_solver_solve_internal: restarts with the Luby sequence until there is an answer.
    method SolveInternal() returns (status: Status)
      requires Ready()
      modifies this`assigns, this`levels, this`reasons, this`trail, this`qhead, this`lims, this`arena, this`learnts,
               this`wl,
               this`binary, this`nextHandle, this`order, this`orderpos, this`activity, this`varInc, this`polarity,
               this`tags, this`tagged, this`model, this`confFinal, this`conflicts, this`late
      ensures status == True ==> Ready() && qhead == |trail| && IsModel(f, assumed, model)
      ensures status == Undef ==> Ready() && OverLimit() && (old(qhead) == |old(trail)| ==> qhead == |trail|)
      ensures status == True ==> confLimit == 0 || conflicts <= confLimit
      ensures Uncounted() == old(Uncounted()) + (if status == False then 1 else 0)
      ensures old(St().Units()) <= St().Units() && old(nextHandle) <= nextHandle
      ensures status == False ==>
        Refuted(f, LitSet(assumed)) && FinalClause(f, assumed, confFinal) && FinalCore(St(), confFinal)
      ensures status == False && 0 < root ==> Withdrawable()
      ensures old(Saturated()) ==> if status == False then CutsKept() else Saturated()
    {
      hide Refuted, IsModel, FinalClause, FinalCore, Solver.Ready, Solver.Withdrawable, MaxConflicts, Block, Pow,
        LitSet,
        Solver.Saturated, Solver.CutsKept, State.Units, Solver.Uncounted, Solver.OverLimit;
      ghost var m := MaxConflicts(n);
      BlockLength(m + 1);
      status := Undef;
      var restart: nat := 0;
      while status == Undef
        invariant restart <= |Block(m + 1)|
        invariant status != Undef ||
          (Ready() && restart < |Block(m + 1)| && (old(qhead) == |old(trail)| ==> qhead == |trail|))
        invariant status == True ==> Ready() && qhead == |trail| && IsModel(f, assumed, model)
        invariant status == True ==> confLimit == 0 || conflicts <= confLimit
        invariant Uncounted() == old(Uncounted()) + (if status == False then 1 else 0)
        invariant old(St().Units()) <= St().Units() && old(nextHandle) <= nextHandle
        invariant status == False ==>
          Refuted(f, LitSet(assumed)) && FinalClause(f, assumed, confFinal) && FinalCore(St(), confFinal)
        invariant status == False && 0 < root ==> Withdrawable()
        invariant old(Saturated()) ==> if status == False then CutsKept() else Saturated()
        decreases status == Undef, |Block(m + 1)| - restart
      {
        var over;
        status, over := SearchOnce(restart, m);
        if over { return; }
        restart := restart + 1;
      }
    }

    lemma WithinLimit(status: Status)
      requires status == True ==> !OverLimit()
      ensures status == True ==> confLimit == 0 || conflicts <= confLimit
    {
    }

    // The last restart of the block is long enough for all conflicts there can be.
    lemma LastRestart(restart: nat, m: nat, r: nat, c: int)
      requires restart < |Block(m + 1)| && (forall k: nat :: restart < |Block(k)| ==> r == Pow(2, Block(k)[restart]))
      requires c <= m && Restarting(100 * r, c)
      ensures restart < |Block(m + 1)| - 1
    {
      hide Pow, Block;
      if restart == |Block(m + 1)| - 1 { RestartLarge(m, r); }
    }

    // One restart, unless a limit has been reached.
    method SearchOnce(restart: nat, ghost m: nat) returns (status: Status, over: bool)
      requires Ready() && m == MaxConflicts(n) && restart < |Block(m + 1)|
      modifies this`assigns, this`levels, this`reasons, this`trail, this`qhead, this`lims, this`arena, this`learnts,
               this`wl,
               this`binary, this`nextHandle, this`order, this`orderpos, this`activity, this`varInc, this`polarity,
               this`tags, this`tagged, this`model, this`confFinal, this`conflicts, this`late
      ensures status == True ==> Ready() && qhead == |trail| && IsModel(f, assumed, model)
      ensures status == Undef ==> Ready() && (old(qhead) == |old(trail)| ==> qhead == |trail|)
      ensures status == Undef ==> if over then OverLimit() else restart < |Block(m + 1)| - 1
      ensures status == True ==> confLimit == 0 || conflicts <= confLimit
      ensures Uncounted() == old(Uncounted()) + (if status == False then 1 else 0)
      ensures old(St().Units()) <= St().Units() && old(nextHandle) <= nextHandle
      ensures status == False ==>
        Refuted(f, LitSet(assumed)) && FinalClause(f, assumed, confFinal) && (0 < root ==> Withdrawable()) &&
        FinalCore(St(), confFinal)
      ensures old(Saturated()) ==> if status == False then CutsKept() else Saturated()
    {
      hide Refuted, IsModel, FinalClause, FinalCore, Solver.Ready, Solver.Withdrawable, MaxConflicts, Block, Pow,
        LitSet,
        Solver.Saturated, Solver.CutsKept, State.Units, Solver.Uncounted, Solver.Restarting;
      over := LimitReached();
      if over { return Undef, true; }
      status := SearchRestart(restart, m);
      over := LimitReached();
    }

    // The search of one restart.
    method SearchRestart(restart: nat, ghost m: nat) returns (status: Status)
      requires Ready() && m == MaxConflicts(n) && restart < |Block(m + 1)|
      modifies this`assigns, this`levels, this`reasons, this`trail, this`qhead, this`lims, this`arena, this`learnts,
               this`wl,
               this`binary, this`nextHandle, this`order, this`orderpos, this`activity, this`varInc, this`polarity,
               this`tags, this`tagged, this`model, this`confFinal, this`conflicts, this`late
      ensures status == True ==> Ready() && qhead == |trail| && IsModel(f, assumed, model)
      ensures status == Undef ==> Ready() && qhead == |trail|
      ensures status == Undef ==> OverLimit() || restart < |Block(m + 1)| - 1
      ensures status == True ==> confLimit == 0 || conflicts <= confLimit
      ensures Uncounted() == old(Uncounted()) + (if status == False then 1 else 0)
      ensures old(St().Units()) <= St().Units() && old(nextHandle) <= nextHandle
      ensures status == False ==>
        Refuted(f, LitSet(assumed)) && FinalClause(f, assumed, confFinal) && (0 < root ==> Withdrawable()) &&
        FinalCore(St(), confFinal)
      ensures old(Saturated()) ==> if status == False then CutsKept() else Saturated()
    {
      hide Refuted, IsModel, FinalClause, FinalCore, Solver.Ready, Solver.Withdrawable, MaxConflicts, Block, Pow,
        LitSet,
        Solver.Saturated, Solver.CutsKept, State.Units, Solver.Uncounted, Solver.Restarting, Solver.OverLimit;
      var r := Luby(restart);
      status := Search(100 * r);
      if Restarting(100 * r, conflicts - old(conflicts)) && status == Undef {
        LastRestart(restart, m, r, conflicts - old(conflicts));
      }
      WithinLimit(status);
    }
  }

  datatype Status = True | False | Undef
}
