module SatPropagation {
  import opened Counting
  import opened Cnf
  import opened SatState
  import opened SatSteps
  import opened SatWatches

  datatype Conflict = NoConflict | BinaryConflict | ClauseConflict(h: nat)

  // What propagation may change: the trail grows at the current level, clauses are
  // reordered and watches move.
  ghost predicate Grown(s: State, t: State) {
    && t.n == s.n && t.f == s.f && t.lims == s.lims && t.root == s.root && t.assumed == s.assumed
    && t.learnts == s.learnts && |t.levels| == |s.levels|
    && s.trail <= t.trail
    && (forall l :: l in s.trail && l.v < |s.levels| ==> t.levels[l.v] == s.levels[l.v])
    && (forall k :: |s.trail| <= k < |t.trail| ==> t.trail[k].v < |t.levels| && t.levels[t.trail[k].v] == |s.lims|)
    && t.arena.Keys == s.arena.Keys
    && (forall h :: h in s.arena ==> LitSet(t.arena[h]) == LitSet(s.arena[h]))
    && KeepsSettled(s, t) && KeepsNoneFalse(s, t) && SameUnits(s, t)
  }

  // What is forced has a reason.
  ghost predicate SameUnits(s: State, t: State) {
    t.Units() == s.Units()
  }

  // A prefix of the trail that makes no clause false keeps doing so.
  ghost predicate KeepsNoneFalse(s: State, t: State) {
    forall m: nat :: m <= |s.trail| && s.NoneFalse(s.trail[..m]) ==> t.NoneFalse(s.trail[..m])
  }

  lemma KeepsFalseTwice(s: State, t: State, u: State)
    requires KeepsNoneFalse(s, t) && KeepsNoneFalse(t, u) && s.trail <= t.trail
    ensures KeepsNoneFalse(s, u)
  {
    hide State.NoneFalse;
    forall m: nat | m <= |s.trail| && s.NoneFalse(s.trail[..m]) ensures u.NoneFalse(s.trail[..m]) {
      assert t.trail[..m] == s.trail[..m];
    }
  }

  lemma SameKeepsFalse(s: State, t: State)
    requires t.arena == s.arena && t.wl == s.wl
    ensures KeepsNoneFalse(s, t)
  {
  }

  lemma SwapKeepsFalse(s: State, h: nat)
    requires h in s.arena && |s.arena[h]| >= 3
    ensures KeepsNoneFalse(s, Swapped(s, h))
  {
    forall m: nat | m <= |s.trail| && s.NoneFalse(s.trail[..m]) ensures Swapped(s, h).NoneFalse(s.trail[..m]) {
      NoneFalseSwap(s, s.trail[..m], h);
    }
  }

  lemma MoveKeepsFalse(s: State, h: nat, k: nat, p: Lit, j: nat)
    requires s.TrailOk() && s.WatchesOk() && h in s.arena && 2 <= k < |s.arena[h]| && DistinctVars(s.arena[h])
    requires p in s.wl && j < |s.wl[p]| && s.wl[p][j] == ClauseWatch(h)
    requires s.arena[h][1] == p.Not() && s.arena[h][k].Not() in s.wl && !s.IsFalse(s.arena[h][k])
    ensures KeepsNoneFalse(s, Moved(s, h, k, p, j))
  {
    TrueIffOnTrail(s, s.arena[h][k]);
    hide State.TrailOk, State.WatchesOk, State.NoneFalse, Moved;
    forall m: nat | m <= |s.trail| && s.NoneFalse(s.trail[..m]) ensures Moved(s, h, k, p, j).NoneFalse(s.trail[..m]) {
      NoneFalseMove(s, s.trail[..m], h, k, p, j);
    }
  }

  // What part of the trail is settled stays so.
  ghost predicate KeepsSettled(s: State, t: State) {
    forall m: nat, j: nat :: m <= j <= |s.trail| && s.Settled(s.trail[..m], s.trail[..j]) ==>
        t.Settled(s.trail[..m], s.trail[..j])
  }

  lemma KeepsTwice(s: State, t: State, u: State)
    requires KeepsSettled(s, t) && KeepsSettled(t, u) && s.trail <= t.trail
    ensures KeepsSettled(s, u)
  {
    forall m: nat, j: nat | m <= j <= |s.trail| && s.Settled(s.trail[..m], s.trail[..j])
      ensures u.Settled(s.trail[..m], s.trail[..j])
    {
      assert t.trail[..m] == s.trail[..m] && t.trail[..j] == s.trail[..j];
    }
  }

  lemma SameSettled(s: State, t: State)
    requires t.arena == s.arena && t.wl == s.wl
    ensures KeepsSettled(s, t)
  {
    assert forall w, u :: s.Held(w, u) ==> t.Held(w, u);
  }

  lemma SwapSettled(s: State, h: nat)
    requires h in s.arena && |s.arena[h]| >= 2
    ensures KeepsSettled(s, Swapped(s, h))
  {
    assert forall w, u :: s.Held(w, u) ==> Swapped(s, h).Held(w, u);
  }

  // A watch moves away from a literal only while the other watched literal is not true, so
  // that no settled literal has the clause in its list.
  lemma MoveSettled(s: State, h: nat, k: nat, p: Lit, j: nat)
    requires s.TrailOk() && s.WatchesOk() && h in s.arena && 2 <= k < |s.arena[h]| && DistinctVars(s.arena[h])
    requires s.arena[h][0] !in s.trail
    requires p in s.wl && j < |s.wl[p]| && s.wl[p][j] == ClauseWatch(h) && p in s.trail
    requires s.arena[h][1] == p.Not() && s.arena[h][k].Not() in s.wl && !s.IsFalse(s.arena[h][k])
    ensures KeepsSettled(s, Moved(s, h, k, p, j))
  {
    var r := Moved(s, h, k, p, j);
    forall m: nat, e: nat | m <= e <= |s.trail| && s.Settled(s.trail[..m], s.trail[..e])
      ensures r.Settled(s.trail[..m], s.trail[..e])
    {
      MoveOneSettled(s, h, k, p, j, m, e);
    }
  }

  lemma MoveOneSettled(s: State, h: nat, k: nat, p: Lit, j: nat, m: nat, e: nat)
    requires s.TrailOk() && s.WatchesOk() && h in s.arena && 2 <= k < |s.arena[h]| && DistinctVars(s.arena[h])
    requires s.arena[h][0] !in s.trail
    requires p in s.wl && j < |s.wl[p]| && s.wl[p][j] == ClauseWatch(h) && p in s.trail
    requires s.arena[h][1] == p.Not() && s.arena[h][k].Not() in s.wl && !s.IsFalse(s.arena[h][k])
    requires m <= e <= |s.trail| && s.Settled(s.trail[..m], s.trail[..e])
    ensures Moved(s, h, k, p, j).Settled(s.trail[..m], s.trail[..e])
  {
    hide State.TrailOk, State.WatchesOk, State.Settled, DistinctVars, Swap, RemoveAt;
    MoveLists(s, h, k, p, j);
    TrueIffOnTrail(s, s.arena[h][k]);
    NotFalse(s, p);
    var r := Moved(s, h, k, p, j);
    forall l, w | l in r.wl && l != s.arena[h][k].Not() && w in r.wl[l] ensures l in s.wl && w in s.wl[l] { }
    MovedSettled(s, r, h, s.arena[h][k].Not(), s.trail[..m], s.trail[..e]);
  }

  // Only the list of the literal target has gained an entry, and no literal of t is that one.
  lemma MovedSettled(s: State, r: State, h: nat, target: Lit, t: seq<Lit>, u: seq<Lit>)
    requires forall g :: g in s.arena && g != h ==> g in r.arena && r.arena[g] == s.arena[g]
    requires forall l, w :: l in r.wl && l != target && w in r.wl[l] ==> l in s.wl && w in s.wl[l]
    requires target !in t && !s.Held(ClauseWatch(h), u) && s.Settled(t, u)
    ensures r.Settled(t, u)
  {
    forall l, i | l in t && l in r.wl && 0 <= i < |r.wl[l]| ensures r.Held(r.wl[l][i], u) {
      var w := r.wl[l][i];
      assert w in r.wl[l];
      assert w in s.wl[l] && s.Held(w, u);
    }
  }

  // What the visit of the list of p forces is not overdue at a position before p.
  ghost predicate KeepsOverdue(s: State, t: State, p: Lit) {
    forall e: nat :: e <= |s.trail| && p !in s.trail[..e] ==> (t.Overdue(e) <==> s.Overdue(e))
  }

  ghost predicate GrownBy(s: State, t: State, p: Lit) {
    Grown(s, t) && KeepsOverdue(s, t, p)
  }

  lemma GrownByTransitive(s: State, t: State, u: State, p: Lit)
    requires GrownBy(s, t, p) && GrownBy(t, u, p)
    ensures GrownBy(s, u, p)
  {
    hide KeepsSettled, KeepsNoneFalse, State.Overdue;
    GrownTransitive(s, t, u);
    forall e: nat | e <= |s.trail| && p !in s.trail[..e] ensures u.Overdue(e) <==> s.Overdue(e) {
      assert t.trail[..e] == s.trail[..e];
      assert t.Overdue(e) <==> s.Overdue(e);
    }
  }

  // Propagation from position q on makes nothing overdue at a position up to q.
  ghost predicate KeptOverdue(s: State, t: State, q: nat) {
    forall e: nat :: e <= q && e <= |s.trail| ==> (t.Overdue(e) <==> s.Overdue(e))
  }

  lemma OverdueSelf(s: State, q: nat)
    ensures KeptOverdue(s, s, q)
  {
  }

  lemma KeptOverdueNext(s: State, t: State, u: State, q: nat, i: nat)
    requires KeptOverdue(s, t, q) && t.Inv() && s.trail <= t.trail && q <= |s.trail| && q <= i < |t.trail|
    requires KeepsOverdue(t, u, t.trail[i])
    ensures KeptOverdue(s, u, q)
  {
    hide Entails, State.Overdue, State.LimsOk, State.LevelsOk, State.ReasonsOk, State.ArenaOk, State.WatchesOk,
      State.Covered;
    forall e: nat | e <= q ensures u.Overdue(e) <==> s.Overdue(e) {
      assert t.trail[i] !in t.trail[..e];
      assert t.Overdue(e) <==> s.Overdue(e);
    }
  }

  // The clauses that are reasons are the same.
  ghost predicate SameReasons(s: State, t: State) {
    && t.trail == s.trail && t.reasons == s.reasons
    && forall k :: 0 <= k < |s.trail| && s.trail[k].v < |s.reasons| ==>
         match s.reasons[s.trail[k].v]
         case ClauseReason(h) => h in s.arena && h in t.arena && t.arena[h] == s.arena[h]
         case _ => true
  }

  lemma SameReasonsOverdue(s: State, t: State, p: Lit)
    requires SameReasons(s, t)
    ensures KeepsOverdue(s, t, p) && forall e: nat :: t.Overdue(e) <==> s.Overdue(e)
  {
    assert forall e: nat, k: nat :: e <= k < |s.trail| ==> (t.ForcedBefore(k, e) <==> s.ForcedBefore(k, e));
  }

  // A clause whose first literal is not true is no reason.
  lemma NoReasonChanged(s: State, t: State, h: nat)
    requires s.ReasonsOk() && t.trail == s.trail && t.reasons == s.reasons && t.arena.Keys == s.arena.Keys
    requires h in s.arena && |s.arena[h]| >= 1 && s.arena[h][0] !in s.trail
    requires forall g :: g in s.arena && g != h ==> t.arena[g] == s.arena[g]
    ensures SameReasons(s, t)
  {
    hide Entails;
    forall k | 0 <= k < |s.trail| && s.trail[k].v < |s.reasons| && s.reasons[s.trail[k].v].ClauseReason?
      ensures var g := s.reasons[s.trail[k].v].h; g in s.arena && t.arena[g] == s.arena[g]
    { assert s.ReasonAt(k); }
  }

  // A forced literal is overdue at e if and only if the second literal of its clause was false there.
  lemma EnqueuedOverdue(s: State, l: Lit, from: Reason, e: nat)
    requires l.v < |s.assigns| == |s.levels| == |s.reasons| && e <= |s.trail|
    requires forall i :: 0 <= i < |s.trail| ==> s.trail[i].v != l.v
    ensures var t := Enqueued(s, l, from);
      t.Overdue(e) <==> s.Overdue(e) || (from.ClauseReason? && from.h in s.arena && |s.arena[from.h]| >= 2 &&
                                         s.arena[from.h][1].Not() in s.trail[..e])
  {
    var t := Enqueued(s, l, from);
    assert t.trail[..e] == s.trail[..e] && t.trail[|s.trail|] == l;
    assert forall k: nat :: e <= k < |s.trail| ==> (t.ForcedBefore(k, e) <==> s.ForcedBefore(k, e));
    if s.Overdue(e) {
      var k :| e <= k < |s.trail| && s.ForcedBefore(k, e);
      assert t.ForcedBefore(k, e);
    }
    if from.ClauseReason? && from.h in s.arena && |s.arena[from.h]| >= 2 && s.arena[from.h][1].Not() in s.trail[..e] {
      assert t.ForcedBefore(|s.trail|, e);
    }
  }

  lemma ForcedKeeps(s: State, l: Lit, from: Reason, p: Lit)
    requires l.v < |s.assigns| == |s.levels| == |s.reasons|
    requires forall i :: 0 <= i < |s.trail| ==> s.trail[i].v != l.v
    requires from.ClauseReason? && from.h in s.arena && |s.arena[from.h]| >= 2 ==> s.arena[from.h][1] == p.Not()
    ensures KeepsOverdue(s, Enqueued(s, l, from), p)
  {
    hide State.Overdue, Enqueued;
    assert p.Not().Not() == p;
    forall e: nat | e <= |s.trail| && p !in s.trail[..e]
      ensures Enqueued(s, l, from).Overdue(e) <==> s.Overdue(e)
    { EnqueuedOverdue(s, l, from, e); }
  }

  lemma ForcedBy(s: State, l: Lit, from: Reason, p: Lit)
    requires s.Inv() && s.Unassigned(l) && l.v < |s.assigns| == |s.levels| == |s.reasons|
    requires from.ClauseReason? && from.h in s.arena && |s.arena[from.h]| >= 2 && s.arena[from.h][1] == p.Not()
    ensures KeepsOverdue(s, Enqueued(s, l, from), p)
  {
    hide Entails, State.LimsOk, State.LevelsOk, State.ReasonsOk, State.ArenaOk, State.WatchesOk, State.Covered,
      KeepsOverdue;
    UnassignedNotOnTrail(s, l);
    ForcedKeeps(s, l, from, p);
  }

  lemma GrownTransitive(s: State, t: State, u: State)
    requires Grown(s, t) && Grown(t, u)
    ensures Grown(s, u)
  {
    hide KeepsSettled, KeepsNoneFalse;
    KeepsTwice(s, t, u);
    KeepsFalseTwice(s, t, u);
    forall k | |s.trail| <= k < |u.trail| ensures u.trail[k].v < |u.levels| && u.levels[u.trail[k].v] == |s.lims| {
      if k < |t.trail| {
        assert u.trail[k] == t.trail[k];
        assert u.trail[k] in t.trail;
      }
    }
  }

  // A clause all of whose literals are false, one of them because p is true.
  ghost predicate Conflicting(s: State, lits: seq<Lit>, p: Lit) {
    && |lits| >= 2 && p.Not() in lits
    && (forall i :: 0 <= i < |lits| ==> lits[i].Not() in s.trail && lits[i].v < s.n)
    && Entails(s.f, LitSet(lits))
  }

  lemma EnqueueGrown(s: State, l: Lit, from: Reason)
    requires l.v < |s.assigns| == |s.levels| == |s.reasons|
    requires forall i :: 0 <= i < |s.trail| ==> s.trail[i].v != l.v
    requires !from.NoReason?
    ensures Grown(s, Enqueued(s, l, from))
  {
    hide Entails, KeepsSettled, KeepsNoneFalse;
    var t := Enqueued(s, l, from);
    SameSettled(s, t);
    SameKeepsFalse(s, t);
    forall m | m in s.trail && m.v < |s.levels| ensures t.levels[m.v] == s.levels[m.v] {
      var i :| 0 <= i < |s.trail| && s.trail[i] == m;
    }
  }

  lemma UnassignedNotOnTrail(s: State, l: Lit)
    requires s.TrailOk() && s.Unassigned(l)
    ensures forall i :: 0 <= i < |s.trail| ==> s.trail[i].v != l.v
  {
  }

  lemma EnqueueStep(s: State, l: Lit, from: Reason)
    requires s.Inv() && s.Unassigned(l) && Implied(s, l, from) && !from.NoReason?
    ensures Enqueued(s, l, from).Inv() && Grown(s, Enqueued(s, l, from))
  {
    hide Entails, Implied;
    EnqueueInv(s, l, from);
    UnassignedNotOnTrail(s, l);
    EnqueueGrown(s, l, from);
  }

  lemma BinaryConflicting(s: State, p: Lit, q: Lit)
    requires p in s.trail && q.Not() in s.trail && p.v < s.n && q.v < s.n && Entails(s.f, {p.Not(), q})
    ensures Conflicting(s, [q, p.Not()], p)
  {
    hide Entails;
    var c := [q, p.Not()];
    assert c[1] == p.Not();
    assert LitSet(c) == {p.Not(), q};
    assert p.Not().Not() == p;
  }

  // A binary clause {~p, q} whose literal p is true: either q can be enqueued or it is false.
  lemma BinaryStep(s: State, p: Lit, q: Lit)
    requires s.Inv() && p in s.trail && p in s.wl && BinWatch(q) in s.wl[p]
    requires s.levels[p.v] == 0 || s.levels[p.v] == |s.lims|
    ensures q.v < s.n && (s.IsTrue(q) <==> q in s.trail)
    ensures s.Unassigned(q) ==> Enqueued(s, q, BinReason(p)).Inv() && Grown(s, Enqueued(s, q, BinReason(p)))
    ensures s.IsFalse(q) ==> Conflicting(s, [q, p.Not()], p)
  {
    hide Entails;
    BinarySymmetric(s, p, q);
    TrueIffOnTrail(s, q);
    if s.Unassigned(q) {
      assert {p.Not(), q} == {q, p.Not()};
      assert Implied(s, q, BinReason(p));
      EnqueueStep(s, q, BinReason(p));
    }
    if s.IsFalse(q) {
      BinaryConflicting(s, p, q);
    }
  }

  // All literals of clause h but the first are false, the second because of p.
  lemma UnitFalse(s: State, p: Lit, h: nat)
    requires s.TrailOk() && p in s.trail && h in s.arena && |s.arena[h]| >= 3
    requires s.arena[h][1] == p.Not()
    requires forall i :: 2 <= i < |s.arena[h]| ==> s.IsFalse(s.arena[h][i])
    ensures forall i :: 1 <= i < |s.arena[h]| ==> s.arena[h][i].Not() in s.trail
  {
    hide Entails;
    var c := s.arena[h];
    forall i | 1 <= i < |c| ensures c[i].Not() in s.trail {
      TrueIffOnTrail(s, c[i]);
      assert p.Not().Not() == p;
    }
  }

  lemma UnitStep(s: State, p: Lit, h: nat)
    requires s.Inv() && p in s.trail && h in s.arena && |s.arena[h]| >= 3
    requires s.arena[h][1] == p.Not() && s.arena[h][0] !in s.trail
    requires forall i :: 2 <= i < |s.arena[h]| ==> s.IsFalse(s.arena[h][i])
    ensures var q := s.arena[h][0];
      && q.v < s.n && (s.Unassigned(q) || s.IsFalse(q)) && !s.IsTrue(q)
      && (s.Unassigned(q) ==> Enqueued(s, q, ClauseReason(h)).Inv() && Grown(s, Enqueued(s, q, ClauseReason(h))))
      && (s.IsFalse(q) ==> Conflicting(s, s.arena[h], p))
  {
    hide Entails;
    var c := s.arena[h];
    assert s.ClauseOk(c);
    UnitFalse(s, p, h);
    TrueIffOnTrail(s, c[0]);
    if s.Unassigned(c[0]) {
      assert Implied(s, c[0], ClauseReason(h));
      EnqueueStep(s, c[0], ClauseReason(h));
    }
    if s.IsFalse(c[0]) {
      ConflictingClause(s, p, c);
    }
  }

  lemma ConflictingClause(s: State, p: Lit, c: seq<Lit>)
    requires s.ClauseOk(c) && p.Not() in c && forall i :: 0 <= i < |c| ==> c[i].Not() in s.trail
    ensures Conflicting(s, c, p)
  {
    hide Entails;
  }

  lemma VisitedFrame(s: State, u: State, t: seq<Lit>, p: Lit, j: nat)
    requires u.arena == s.arena && u.wl == s.wl && Visited(s, t, p, j)
    ensures Visited(u, t, p, j)
  {
  }

  lemma NoneFalseFrame(s: State, u: State, t: seq<Lit>)
    requires u.arena == s.arena && u.wl == s.wl && s.NoneFalse(t)
    ensures u.NoneFalse(t)
  {
  }

  lemma NotFalse(s: State, l: Lit)
    requires s.TrailOk() && l in s.trail
    ensures l.Not() !in s.trail
  {
    TrueIffOnTrail(s, l);
    TrueIffOnTrail(s, l.Not());
  }

  lemma ClauseEntry(s: State, p: Lit, h: nat, j: nat)
    requires s.Inv() && p in s.wl && j < |s.wl[p]| && s.wl[p][j] == ClauseWatch(h)
    ensures h in s.arena && |s.arena[h]| >= 3 && (s.arena[h][0] == p.Not() || s.arena[h][1] == p.Not())
  {
    assert s.EntryOk(p, s.wl[p][j]);
  }

  lemma ClauseVars(s: State, h: nat)
    requires s.Inv() && h in s.arena
    ensures |s.arena[h]| >= 2 && |s.assigns| == s.n
    ensures forall i :: 0 <= i < |s.arena[h]| ==> s.arena[h][i].v < |s.assigns|
    ensures forall i :: 0 <= i < |s.arena[h]| ==> (s.IsTrue(s.arena[h][i]) <==> s.arena[h][i] in s.trail)
  {
    hide Entails;
    assert s.ClauseOk(s.arena[h]);
    forall i | 0 <= i < |s.arena[h]| ensures s.IsTrue(s.arena[h][i]) <==> s.arena[h][i] in s.trail {
      TrueIffOnTrail(s, s.arena[h][i]);
    }
  }

  lemma GrownTrail(s: State, t: State)
    requires Grown(s, t)
    ensures s.trail <= t.trail && forall l :: l in s.trail ==> l in t.trail
  {
  }

  // The first j entries of the list of p need no more work.
  ghost predicate ListDone(s: State, p: Lit, j: nat) {
    p in s.wl && j <= |s.wl[p]| && forall i :: 0 <= i < j ==> s.Held(s.wl[p][i], s.trail)
  }

  lemma DoneNext(s: State, p: Lit, j: nat)
    requires ListDone(s, p, j) && j < |s.wl[p]| && s.Held(s.wl[p][j], s.trail)
    ensures ListDone(s, p, j + 1)
  {
  }

  lemma DoneFrame(s: State, t: State, p: Lit, j: nat)
    requires ListDone(s, p, j) && t.arena == s.arena && t.wl == s.wl && s.trail <= t.trail
    ensures ListDone(t, p, j)
  {
    forall i | 0 <= i < j ensures t.Held(t.wl[p][i], t.trail) { assert s.Held(s.wl[p][i], s.trail); }
  }

  lemma SwapDone(s: State, h: nat, p: Lit, j: nat)
    requires h in s.arena && |s.arena[h]| >= 2 && ListDone(s, p, j)
    ensures ListDone(Swapped(s, h), p, j)
  {
    forall i | 0 <= i < j ensures Swapped(s, h).Held(s.wl[p][i], s.trail) { assert s.Held(s.wl[p][i], s.trail); }
  }

  lemma MoveDone(s: State, h: nat, k: nat, p: Lit, j: nat)
    requires s.WatchesOk() && h in s.arena && 2 <= k < |s.arena[h]| && DistinctVars(s.arena[h])
    requires p in s.wl && j < |s.wl[p]| && s.wl[p][j] == ClauseWatch(h)
    requires s.arena[h][1] == p.Not() && s.arena[h][k].Not() in s.wl && ListDone(s, p, j)
    ensures ListDone(Moved(s, h, k, p, j), p, j)
  {
    MoveLists(s, h, k, p, j);
    var r := Moved(s, h, k, p, j);
    assert DistinctClauses(s.wl[p]);
    assert p != s.arena[h][k].Not();
    forall i | 0 <= i < j ensures r.Held(r.wl[p][i], r.trail) {
      assert s.Held(s.wl[p][i], s.trail) && r.wl[p][i] == s.wl[p][i] && s.wl[p][i] != ClauseWatch(h);
    }
  }

  lemma StillSettled(s: State, t: State, m: nat)
    requires Grown(s, t) && m <= |s.trail| && s.Settled(s.trail[..m], s.trail)
    ensures t.Settled(s.trail[..m], t.trail)
  {
    assert s.trail[..|s.trail|] == s.trail;
    assert t.Settled(s.trail[..m], s.trail[..|s.trail|]);
    SettledMore(t, s.trail[..m], s.trail, t.trail);
  }

  lemma SettledMore(s: State, t: seq<Lit>, u: seq<Lit>, v: seq<Lit>)
    requires s.Settled(t, u) && u <= v
    ensures s.Settled(t, v)
  {
    forall l, i | l in t && l in s.wl && 0 <= i < |s.wl[l]|
      ensures s.Held(s.wl[l][i], v)
    { assert s.Held(s.wl[l][i], u); }
  }

  // What it is for: once the trail is closed, a clause with all literals but one false has that
  // literal true, so that nothing is left to propagate.
  ghost predicate Propagated(s: State) {
    && (forall h, x :: h in s.arena && |s.arena[h]| >= 3 && x in s.arena[h] && AllButOneFalse(s, s.arena[h], x) ==>
        x in s.trail)
    && (forall l, q :: l in s.wl && BinWatch(q) in s.wl[l] && l in s.trail ==> q in s.trail)
  }

  ghost predicate AllButOneFalse(s: State, c: seq<Lit>, x: Lit) {
    forall y :: y in c && y != x ==> y.Not() in s.trail
  }

  lemma ClosedPropagated(s: State)
    requires s.Inv() && s.Closed(|s.trail|)
    ensures Propagated(s)
  {
    assert s.trail[..|s.trail|] == s.trail;
    forall h, x | h in s.arena && |s.arena[h]| >= 3 && x in s.arena[h] && AllButOneFalse(s, s.arena[h], x)
      ensures x in s.trail
    {
      UnitHeld(s, h, x);
    }
    forall l, q | l in s.wl && BinWatch(q) in s.wl[l] && l in s.trail ensures q in s.trail {
      var i :| 0 <= i < |s.wl[l]| && s.wl[l][i] == BinWatch(q);
      assert s.Held(s.wl[l][i], s.trail);
    }
  }

  lemma UnitHeld(s: State, h: nat, x: Lit)
    requires s.Inv() && s.Settled(s.trail, s.trail) && h in s.arena && |s.arena[h]| >= 3 && x in s.arena[h]
    requires AllButOneFalse(s, s.arena[h], x)
    ensures x in s.trail
  {
    hide State.Inv;
    var c := s.arena[h];
    WatchedLists(s, h);
    var k := if c[0] == x then 1 else 0;
    var l := c[k].Not();
    assert l in s.trail;
    var i :| 0 <= i < |s.wl[l]| && s.wl[l][i] == ClauseWatch(h);
    assert s.Held(s.wl[l][i], s.trail);
    forall y | y in c && y != x ensures y !in s.trail { TrueIsNotFalse(s, y); }
    assert c[0] in c && c[1] in c;
  }

  lemma WatchedLists(s: State, h: nat)
    requires s.Inv() && h in s.arena && |s.arena[h]| >= 3
    ensures s.Watched(h) && s.arena[h][0] != s.arena[h][1]
  {
    hide Entails, State.TrailOk, State.LimsOk, State.LevelsOk, State.ReasonsOk, State.Covered, State.EntryOk,
      State.Watched, State.Paired;
    assert s.ClauseOk(s.arena[h]);
  }

  lemma TrueIsNotFalse(s: State, y: Lit)
    requires s.Inv() && y.Not() in s.trail
    ensures y !in s.trail
  {
    hide Entails, State.LimsOk, State.LevelsOk, State.ReasonsOk, State.ArenaOk, State.WatchesOk, State.Covered;
    NotFalse(s, y.Not());
    assert y.Not().Not() == y;
  }

  // With the list of its last literal done, the prefix is settled.
  lemma ListSettles(s: State, m: nat)
    requires 0 < m <= |s.trail| && s.trail[m - 1] in s.wl && ListDone(s, s.trail[m - 1], |s.wl[s.trail[m - 1]]|)
    ensures s.Settled(s.trail[..m - 1], s.trail) ==> s.Settled(s.trail[..m], s.trail)
  {
    assert s.trail[..m] == s.trail[..m - 1] + [s.trail[m - 1]];
  }

  lemma SettledClosed(s: State, q: nat)
    ensures s.Inv() && q == |s.trail| && s.Settled(s.trail[..q], s.trail) ==> s.Closed(|s.trail|) && Propagated(s)
  {
    hide State.Inv, State.Settled, Propagated;
    if s.Inv() && q == |s.trail| && s.Settled(s.trail[..q], s.trail) {
      assert s.trail[..q] == s.trail;
      ClosedPropagated(s);
    }
  }

  lemma PrefixFrom(t: seq<Lit>, q: nat)
    requires q <= |t|
    ensures t[0..q] == t[..q] && t[..|t|] == t
  {
  }

  lemma EmptyQueue(s: State, q: nat)
    ensures q == |s.trail| ==> s.Idle(q)
  {
  }

  // The list of p is visited up to entry j; t0 and t are the trail up to p without and with p.
  ghost predicate Visiting(s: State, t0: seq<Lit>, t: seq<Lit>, p: Lit, j: nat) {
    && s.Inv() && p in s.trail && p in s.wl && p.v < |s.levels| && (s.levels[p.v] == 0 || s.levels[p.v] == |s.lims|)
    && (forall l :: l in t ==> l in s.trail) && (forall l :: l in t0 ==> l in s.trail)
    && Visited(s, t, p, j) && s.NoneFalse(t0) && ListDone(s, p, j)
  }

  lemma VisitingInv(s: State, t0: seq<Lit>, t: seq<Lit>, p: Lit, j: nat)
    requires Visiting(s, t0, t, p, j)
    ensures s.Inv() && p in s.trail && p in s.wl
  {
  }

  lemma TrueWatchVisited(s: State, t0: seq<Lit>, t: seq<Lit>, p: Lit, j: nat, h: nat)
    requires Visiting(s, t0, t, p, j)
    requires p in s.wl && j < |s.wl[p]| && s.wl[p][j] == ClauseWatch(h)
    requires h in s.arena && |s.arena[h]| >= 3 && s.arena[h][0] in s.trail
    ensures Visiting(s, t0, t, p, j + 1)
  {
    hide Entails, ListDone;
    DoneNext(s, p, j);
    NotFalse(s, s.arena[h][0]);
    VisitNext(s, t, p, j);
  }


  lemma GrownReflexive(s: State)
    requires forall k :: 0 <= k < |s.trail| ==> s.trail[k].v < |s.levels|
    ensures Grown(s, s)
  {
    hide KeepsSettled, KeepsNoneFalse;
    SameSettled(s, s);
    SameKeepsFalse(s, s);
  }

  lemma MoveGrown(s: State, h: nat, k: nat, p: Lit, j: nat)
    requires h in s.arena && 2 <= k < |s.arena[h]| && p in s.wl && j < |s.wl[p]| && s.arena[h][k].Not() in s.wl
    requires KeepsSettled(s, Moved(s, h, k, p, j)) && KeepsNoneFalse(s, Moved(s, h, k, p, j))
    requires forall i :: 0 <= i < |s.trail| ==> s.trail[i].v < |s.levels|
    ensures Grown(s, Moved(s, h, k, p, j))
  {
    hide KeepsSettled, KeepsNoneFalse;
  }

  // The new watched literal.
  lemma MoveTarget(s: State, h: nat, k: nat)
    requires s.Inv() && h in s.arena && 2 <= k < |s.arena[h]| && !s.IsFalse(s.arena[h][k])
    ensures DistinctVars(s.arena[h]) && s.arena[h][k].Not() in s.wl && s.arena[h][k].Not() !in s.trail
    ensures forall i :: 0 <= i < |s.trail| ==> s.trail[i].v < |s.levels|
  {
    hide Entails, State.LimsOk, State.LevelsOk, State.ReasonsOk, State.Covered, State.EntryOk, State.Watched,
      State.Paired, DistinctVars;
    assert s.ClauseOk(s.arena[h]);
    TrueIffOnTrail(s, s.arena[h][k]);
  }

  lemma MoveOverdue(s: State, h: nat, k: nat, p: Lit, j: nat)
    requires s.Inv() && h in s.arena && 2 <= k < |s.arena[h]| && s.arena[h][0] !in s.trail
    requires p in s.wl && j < |s.wl[p]| && s.arena[h][k].Not() in s.wl
    ensures KeepsOverdue(s, Moved(s, h, k, p, j), p)
  {
    hide Entails, State.ReasonsOk, KeepsOverdue, SameReasons;
    NoReasonChanged(s, Moved(s, h, k, p, j), h);
    SameReasonsOverdue(s, Moved(s, h, k, p, j), p);
  }

  // The move of a watch to literal k, which is not false, in one step.
  lemma MoveStep(s: State, t0: seq<Lit>, t: seq<Lit>, h: nat, k: nat, p: Lit, j: nat)
    requires Visiting(s, t0, t, p, j) && h in s.arena && 2 <= k < |s.arena[h]| && s.arena[h][0] !in s.trail
    requires p in s.wl && j < |s.wl[p]| && s.wl[p][j] == ClauseWatch(h) && s.arena[h][1] == p.Not()
    requires !s.IsFalse(s.arena[h][k])
    ensures s.arena[h][k].Not() in s.wl && s.arena[h][k].Not() != p
    ensures var r := Moved(s, h, k, p, j); GrownBy(s, r, p) && Visiting(r, t0, t, p, j)
    ensures |Moved(s, h, k, p, j).wl[p]| == |s.wl[p]| - 1
  {
    hide Entails, Visited, ListDone, KeepsSettled, KeepsNoneFalse, KeepsOverdue, Grown, State.LimsOk, State.LevelsOk,
      State.ReasonsOk, State.ArenaOk, State.WatchesOk, State.Covered, State.NoneFalse, DistinctVars, Swap;
    MoveTarget(s, h, k);
    MoveLists(s, h, k, p, j);
    MoveOverdue(s, h, k, p, j);
    MoveInv(s, h, k, p, j);
    MoveSettled(s, h, k, p, j);
    MoveKeepsFalse(s, h, k, p, j);
    MoveGrown(s, h, k, p, j);
    MoveDone(s, h, k, p, j);
    VisitMove(s, t, h, k, p, j);
    NoneFalseMove(s, t0, h, k, p, j);
  }

  lemma VisitingReflexive(s: State, t0: seq<Lit>, t: seq<Lit>, p: Lit, j: nat)
    requires Visiting(s, t0, t, p, j)
    ensures GrownBy(s, s, p)
  {
    hide Entails, Visited, State.LimsOk, State.LevelsOk, State.ReasonsOk, State.ArenaOk, State.WatchesOk,
      State.Covered, State.NoneFalse, State.Overdue;
    GrownReflexive(s);
  }

  lemma SwapStep(s: State, t0: seq<Lit>, t: seq<Lit>, p: Lit, j: nat, h: nat)
    requires Visiting(s, t0, t, p, j) && h in s.arena && |s.arena[h]| >= 3 && s.arena[h][0] == p.Not()
    ensures Visiting(Swapped(s, h), t0, t, p, j) && GrownBy(s, Swapped(s, h), p)
  {
    hide Entails, Visited, State.LimsOk, State.LevelsOk, State.ReasonsOk, State.ArenaOk, State.WatchesOk,
      State.Covered, State.NoneFalse, KeepsOverdue, SameReasons;
    NotFalse(s, p);
    NoReasonChanged(s, Swapped(s, h), h);
    SameReasonsOverdue(s, Swapped(s, h), p);
    SwapDone(s, h, p, j);
    SwapSettled(s, h);
    SwapKeepsFalse(s, h);
    SwapInv(s, h);
    VisitSwap(s, t, p, j, h);
    NoneFalseSwap(s, t0, h);
  }

  lemma TrueBinaryVisited(s: State, t0: seq<Lit>, t: seq<Lit>, p: Lit, q: Lit, j: nat)
    requires Visiting(s, t0, t, p, j) && p in s.wl && j < |s.wl[p]| && s.wl[p][j] == BinWatch(q) && q in s.trail
    ensures Visiting(s, t0, t, p, j + 1)
  {
    hide Entails, Visited, State.LimsOk, State.LevelsOk, State.ReasonsOk, State.ArenaOk, State.WatchesOk,
      State.Covered, State.NoneFalse;
    DoneNext(s, p, j);
    NotFalse(s, q);
    VisitNext(s, t, p, j);
  }

  lemma EnqueuedVisiting(s: State, t0: seq<Lit>, t: seq<Lit>, p: Lit, q: Lit, j: nat, from: Reason)
    requires Visiting(s, t0, t, p, j) && q.v < |s.assigns| == |s.levels| == |s.reasons|
    requires Enqueued(s, q, from).Inv() && Grown(s, Enqueued(s, q, from))
    ensures Visiting(Enqueued(s, q, from), t0, t, p, j) && q in Enqueued(s, q, from).trail
  {
    hide Entails, Visited, State.Inv, State.NoneFalse;
    var u := Enqueued(s, q, from);
    GrownTrail(s, u);
    VisitedFrame(s, u, t, p, j);
    DoneFrame(s, u, p, j);
    NoneFalseFrame(s, u, t0);
    assert u.trail[|s.trail|] == q;
  }

  // Reads BinaryStep for the visit of entry j.
  lemma BinaryVisited(s: State, t0: seq<Lit>, t: seq<Lit>, p: Lit, q: Lit, j: nat)
    requires Visiting(s, t0, t, p, j) && p in s.wl && j < |s.wl[p]| && s.wl[p][j] == BinWatch(q)
    ensures q.v < |s.assigns| == |s.levels| == |s.reasons| && GrownBy(s, s, p)
    ensures s.IsTrue(q) ==> Visiting(s, t0, t, p, j + 1)
    ensures s.Unassigned(q) ==>
      var u := Enqueued(s, q, BinReason(p)); GrownBy(s, u, p) && Visiting(u, t0, t, p, j + 1)
    ensures s.IsFalse(q) ==> s.Inv() && s.NoneFalse(t0) && Conflicting(s, [q, p.Not()], p)
  {
    hide Entails, Visited, Conflicting, State.LimsOk, State.LevelsOk, State.ReasonsOk, State.ArenaOk,
      State.WatchesOk, State.Covered, State.NoneFalse, KeepsOverdue, Grown;
    BinaryStep(s, p, q);
    VisitingReflexive(s, t0, t, p, j);
    if s.IsTrue(q) {
      TrueBinaryVisited(s, t0, t, p, q, j);
    } else if s.Unassigned(q) {
      UnassignedNotOnTrail(s, q);
      ForcedKeeps(s, q, BinReason(p), p);
      EnqueuedVisiting(s, t0, t, p, q, j, BinReason(p));
      TrueBinaryVisited(Enqueued(s, q, BinReason(p)), t0, t, p, q, j);
    }
  }

  lemma StartVisit(s: State, lo: nat, i: nat)
    requires s.Inv() && lo <= i < |s.trail| && s.NoneFalse(s.trail[lo..i])
    requires s.trail[i].v < |s.levels| && (s.levels[s.trail[i].v] == 0 || s.levels[s.trail[i].v] == |s.lims|)
    ensures s.trail[i] in s.wl && Visiting(s, s.trail[lo..i], s.trail[lo..i + 1], s.trail[i], 0)
    ensures GrownBy(s, s, s.trail[i])
  {
    hide State.Base, State.Covered, State.Overdue, State.NoneFalse, Visited, Grown;
    TrailPlace(s, i);
    InvParts(s);
    VisitStart(s, lo, i);
    GrownReflexive(s);
    assert s.trail[lo..i + 1] == s.trail[lo..i] + [s.trail[i]];
  }

  lemma TrailPlace(s: State, i: nat)
    requires s.Inv() && i < |s.trail|
    ensures s.trail[i] in s.wl && s.trail[i].v < s.n && (forall k :: 0 <= k < i ==> s.trail[k].v != s.trail[i].v)
    ensures forall k :: 0 <= k < |s.trail| ==> s.trail[k].v < |s.levels|
  {
    hide Entails, State.LimsOk, State.LevelsOk, State.ReasonsOk, State.ArenaOk, State.Covered, State.EntryOk,
      State.Watched, State.Paired, DistinctClauses;
  }

  lemma InvParts(s: State)
    requires s.Inv()
    ensures s.WatchesOk() && s.TrailOk()
  {
    hide Entails, State.TrailOk, State.LimsOk, State.LevelsOk, State.ReasonsOk, State.ArenaOk, State.WatchesOk,
      State.Covered;
  }

  lemma EndVisit(s: State, u: State, lo: nat, i: nat, t0: seq<Lit>, t: seq<Lit>)
    requires Grown(s, u) && lo < i <= |s.trail| && t0 == s.trail[lo..i - 1] && t == s.trail[lo..i]
    ensures s.trail <= u.trail && i <= |u.trail| && u.trail[lo..i - 1] == t0 && u.trail[lo..i] == t
    ensures u.trail[i - 1] == s.trail[i - 1] && u.trail[..i - 1] == s.trail[..i - 1]
  {
  }

  // The literal p is the one to visit at position i.
  ghost predicate Fresh(s: State, p: Lit, i: nat) {
    && i < |s.trail| && s.trail[i] == p && p.v < |s.levels|
    && (s.levels[p.v] == 0 || s.levels[p.v] == |s.lims|)
  }

  lemma VisitingBound(s: State, t0: seq<Lit>, t: seq<Lit>, p: Lit, j: nat)
    requires Visiting(s, t0, t, p, j)
    ensures p in s.wl && j <= |s.wl[p]|
  {
  }

  lemma ListVisited(s: State, u: State, lo: nat, i: nat, p: Lit, t0: seq<Lit>, t: seq<Lit>)
    requires Grown(s, u) && lo < i <= |s.trail| && t == s.trail[lo..i] && p == s.trail[i - 1]
    requires p in u.wl && Visiting(u, t0, t, p, |u.wl[p]|) && u.trail[lo..i] == t && i <= |u.trail|
    requires s.trail <= u.trail
    ensures u.Inv() && u.ClearFrom(lo, i)
    ensures s.SettledTo(i - 1) ==> u.SettledTo(i)
  {
    hide Entails, Grown, Visiting, ListDone, State.Inv, State.NoneFalse, State.Settled;
    WholeListVisited(u, t0, t, p);
    if s.SettledTo(i - 1) {
      StillSettled(s, u, i - 1);
      assert u.trail[..i - 1] == s.trail[..i - 1];
    }
    ListSettles(u, i);
  }

  lemma WholeListVisited(s: State, t0: seq<Lit>, t: seq<Lit>, p: Lit)
    requires p in s.wl && Visiting(s, t0, t, p, |s.wl[p]|)
    ensures s.Inv() && s.NoneFalse(t) && ListDone(s, p, |s.wl[p]|)
  {
    VisitEnd(s, t, p);
  }

  lemma QueueStart(s: State, qhead: nat)
    requires s.Inv() && s.QueueOk(qhead)
    ensures Grown(s, s) && qhead <= |s.trail|
  {
  }

  lemma QueueNext(s: State, qhead: nat)
    requires s.Inv() && s.QueueOk(qhead) && qhead < |s.trail|
    ensures Fresh(s, s.trail[qhead], qhead) && qhead < s.n
  {
    hide Entails, State.LevelsOk, State.ReasonsOk, State.ArenaOk, State.WatchesOk, State.Covered;
    TrailFits(s.trail, s.n);
  }

  // The next literal of a queue without watches has none.
  lemma IdleNext(s: State, q: nat, k: nat)
    requires q <= k && q <= |s.trail| && s.Inv()
    ensures k < |s.trail| && s.Idle(q) ==> s.trail[k] in s.wl && s.wl[s.trail[k]] == []
  {
    hide Entails, State.LimsOk, State.LevelsOk, State.ReasonsOk, State.ArenaOk, State.Covered, State.EntryOk,
      State.Watched, State.Paired;
    if k < |s.trail| { assert s.trail[q..][k - q] == s.trail[k]; }
  }

  // One list of the queue has been visited.
  lemma QueueStep(s0: State, s: State, t: State, q0: nat, q: nat, p: Lit)
    requires 0 < q && Grown(s0, s) && KeptOverdue(s0, s, q0) && GrownBy(s, t, p) && s.Inv() && s.QueueOk(q - 1)
    requires q0 < q <= |s.trail| && q0 <= |s0.trail| && p == s.trail[q - 1]
    ensures Grown(s0, t) && KeptOverdue(s0, t, q0) && t.QueueOk(q) && q <= |t.trail|
  {
    hide State.Inv, Grown, KeptOverdue, KeepsOverdue, State.QueueOk;
    GrownTrail(s0, s);
    KeptOverdueNext(s0, s, t, q0, q - 1);
    GrownTransitive(s0, s, t);
    QueueGrown(s, t, q);
  }

  lemma QueueGrown(s: State, t: State, qhead: nat)
    requires 0 < qhead && s.QueueOk(qhead - 1) && Grown(s, t) && qhead <= |s.trail|
    ensures t.QueueOk(qhead) && qhead <= |t.trail|
  {
    hide Entails;
    forall k | qhead <= k < |t.trail|
      ensures t.trail[k].v < |t.levels| && (t.levels[t.trail[k].v] == 0 || t.levels[t.trail[k].v] == |t.lims|)
    {
      if k < |s.trail| { assert t.trail[k] == s.trail[k]; }
    }
  }

  // Distinct variables below n: at most n literals.
  lemma TrailFits(trail: seq<Lit>, n: nat)
    requires forall k :: 0 <= k < |trail| ==> trail[k].v < n
    requires forall i, k :: 0 <= i < k < |trail| ==> trail[i].v != trail[k].v
    ensures |trail| <= n
  {
    DistinctBelow(seq(|trail|, k requires 0 <= k < |trail| => trail[k].v), n);
  }

  lemma VisitingVars(s: State, t0: seq<Lit>, t: seq<Lit>, p: Lit, j: nat, h: nat)
    requires Visiting(s, t0, t, p, j) && h in s.arena
    ensures |s.arena[h]| >= 2 && |s.assigns| == s.n
    ensures forall i :: 0 <= i < |s.arena[h]| ==> s.arena[h][i].v < |s.assigns|
    ensures forall i :: 0 <= i < |s.arena[h]| ==> (s.IsTrue(s.arena[h][i]) <==> s.arena[h][i] in s.trail)
  {
    hide Entails, Visited, State.Inv, State.NoneFalse;
    ClauseVars(s, h);
  }
}
