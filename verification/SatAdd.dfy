// Adding a clause at any level: what becomes of it, and exactly when the solver still represents it.
module SatAdd {
  import opened Cnf
  import opened SatState
  import opened SatSteps
  import opened SatWatches
  import opened SatPropagation
  import opened SatUndo
  import opened SatClauses
  import opened SatVerdict
  import opened SatInput
  import opened SatTight

  // What is left of the clause, c, keeps its meaning: a satisfied clause that is dropped is
  // represented otherwise, a unit is asserted below all assumptions, and a shortened clause still
  // follows from the clauses given.
  ghost predicate KeptAs(s: State, lits: seq<Lit>, c: seq<Lit>) {
    if SatisfiedOrTautology(s.assigns, lits) then s.CoveredClause(lits)
    else if |c| == 1 then s.lims == []
    else Entails(s.f + {lits}, LitSet(c))
  }

  // The state in which the clause is counted as given.
  function Given(s: State, lits: seq<Lit>): State {
    s.(f := s.f + {lits})
  }

  lemma OneOutcome(assigns: seq<Value>, lits: seq<Lit>, c: seq<Lit>)
    requires Cleaned(assigns, lits, c)
    ensures !SatisfiedOrTautology(assigns, lits)
  {
    NotBoth(c);
    forall l | l in lits && l.v < |assigns| ensures assigns[l.v] != ValueOf(l) { }
  }

  lemma NotBoth(c: seq<Lit>)
    requires DistinctVars(c)
    ensures forall l :: l in c ==> l.Not() !in c
  {
    forall l | l in c ensures l.Not() !in c {
      var i :| 0 <= i < |c| && c[i] == l;
      forall j | 0 <= j < |c| ensures c[j] != l.Not() { assert i != j ==> c[i].v != c[j].v; }
    }
  }

  // ---- Nothing is stored ----

  lemma DroppedKept(s: State, lits: seq<Lit>)
    requires s.Inv()
    ensures Given(s, lits).Inv() <==> s.CoveredClause(lits)
  {
    hide State.Base, State.CoveredClause;
    Widen(s, lits);
    var t := Given(s, lits);
    SameCoveredClause(s, t, lits);
    if s.CoveredClause(lits) {
      WidenCovered(s, lits, t);
    } else {
      assert lits in t.f;
    }
  }

  lemma SameCoveredClause(s: State, t: State, c: Clause)
    requires t == s.(f := t.f)
    ensures t.CoveredClause(c) <==> s.CoveredClause(c)
  {
  }

  // ---- One literal is enqueued ----

  // Above level 0 it would need a reason or be an assumption.
  lemma UnitNeedsRoot(s: State, t: State, l: Lit)
    requires s.Inv() && s.root == |s.lims| && s.AssumedOk(s.root) && s.Unassigned(l)
    requires l.v < |s.assigns| == |s.levels| == |s.reasons| && t == Enqueued(s.(f := t.f), l, NoReason)
    requires t.Inv()
    ensures s.lims == []
  {
    hide Entails, State.LevelsOk, State.ArenaOk, State.WatchesOk, State.Covered, State.CoveredClause;
    LastAssumed(s);
    UnassignedNotOnTrail(s, l);
    assert t.trail[|s.trail|] == l && t.ReasonAt(|s.trail|);
  }

  lemma LastAssumed(s: State)
    requires s.Inv() && s.root == |s.lims| && s.AssumedOk(s.root)
    ensures |s.assumed| == |s.lims| && (s.lims != [] ==> s.assumed[|s.lims| - 1] in s.trail)
  {
    hide Entails, State.TrailOk, State.LevelsOk, State.ReasonsOk, State.ArenaOk, State.WatchesOk, State.Covered;
  }

  lemma UnitKept(s: State, lits: seq<Lit>, l: Lit, c: seq<Lit>)
    requires s.Inv() && s.lims == [] && Cleaned(s.assigns, lits, c) && c == [l] && s.Unassigned(l)
    requires s.root == |s.lims|
    ensures l.v < |s.assigns| == |s.levels| == |s.reasons| && Enqueued(Given(s, lits), l, NoReason).Inv()
  {
    hide Entails, State.Base, State.Covered, Cleaned;
    FixedAtRoot(s, lits);
    CleanedFixed(s, lits, c);
    Widen(s, lits);
    CleanedMembers(s.assigns, lits, c);
    assert c[0] in lits;
    CleanedUnit(s, Given(s, lits), lits, l);
  }

  lemma CleanedMembers(assigns: seq<Value>, lits: seq<Lit>, c: seq<Lit>)
    requires Cleaned(assigns, lits, c)
    ensures DistinctVars(c) && LitSet(c) <= LitSet(lits)
    ensures forall i :: 0 <= i < |c| ==> c[i] in lits && c[i].v < |assigns| && assigns[c[i].v] == X
  {
  }

  // ---- A clause is stored ----

  lemma StoredNeedsEntailed(s: State, t: State, lits: seq<Lit>, c: seq<Lit>, h: nat)
    requires |c| >= 2 && s.WatchesOk() && t == WithClause(Given(s, lits), h, c, false) && t.Inv()
    requires c[0].v < s.n && c[1].v < s.n && c[0].v != c[1].v
    ensures Entails(s.f + {lits}, LitSet(c))
  {
    hide State.TrailOk, State.LimsOk, State.LevelsOk, State.ReasonsOk, State.Covered, State.Watched, State.Paired,
      Entails;
    if |c| > 2 {
      assert t.arena[h] == c && t.ClauseOk(c);
    } else {
      ListedAnyway(s, h, c);
      BinarySymmetric(t, c[0].Not(), c[1]);
      assert c[0].Not().Not() == c[0];
      PairSet(c);
    }
  }

  lemma ListedAnyway(s: State, h: nat, c: seq<Lit>)
    requires |c| == 2 && s.WatchesOk() && c[0].v < s.n && c[1].v < s.n && c[0].v != c[1].v
    ensures c[0].Not() in Listed(s.wl, h, c) && BinWatch(c[1]) in Listed(s.wl, h, c)[c[0].Not()]
  {
    ListedMembers(s, h, c);
  }

  lemma StoredKept(s: State, lits: seq<Lit>, c: seq<Lit>, h: nat, u: seq<Lit>)
    requires s.Inv() && |c| >= 2 && Cleaned(s.assigns, lits, c) && h !in s.arena && s.NoneFalse(u)
    requires (forall l :: l in u ==> l in s.trail) && Entails(s.f + {lits}, LitSet(c))
    ensures WithClause(Given(s, lits), h, c, false).Inv() && WithClause(Given(s, lits), h, c, false).NoneFalse(u)
  {
    hide Entails, State.Base, State.Covered, State.NoneFalse, Cleaned;
    Widen(s, lits);
    CleanedMembers(s.assigns, lits, c);
    InvSizes(s);
    CleanedClause(s, Given(s, lits), lits, c, h, u);
  }

  lemma InvSizes(s: State)
    requires s.Inv()
    ensures |s.assigns| == |s.levels| == |s.reasons| == s.n
  {
    hide Entails, State.LevelsOk, State.ReasonsOk, State.ArenaOk, State.WatchesOk, State.Covered;
  }

  // ---- Literals that are fixed ----

  // Every assigned literal of the clause has its value from level 0.
  ghost predicate AllFixed(s: State, lits: seq<Lit>) {
    forall l :: l in lits && l.v < |s.assigns| && s.assigns[l.v] != X ==> l in Fixed(s) || l.Not() in Fixed(s)
  }

  lemma FixedAtRoot(s: State, lits: seq<Lit>)
    requires s.Inv() && s.lims == []
    ensures AllFixed(s, lits)
  {
    hide Entails, State.LevelsOk, State.ReasonsOk, State.ArenaOk, State.WatchesOk, State.Covered;
    assert Fixed(s) == s.trail;
    forall l | l in lits && l.v < |s.assigns| && s.assigns[l.v] != X ensures l in Fixed(s) || l.Not() in Fixed(s) {
      assert Lit(l.v, s.assigns[l.v] == Zero) in s.trail;
    }
  }

  lemma FixedEntailed(s: State, l: Lit)
    requires s.Inv() && l in Fixed(s)
    ensures Entails(s.f, {l}) && s.IsTrue(l)
  {
    hide Entails, State.ReasonsOk, State.ArenaOk, State.WatchesOk, State.Covered;
    var k :| 0 <= k < |Fixed(s)| && Fixed(s)[k] == l;
    assert s.trail[k] == l && s.LevelAt(k);
  }

  lemma CleanedFixed(s: State, lits: seq<Lit>, c: seq<Lit>)
    requires s.Inv() && Cleaned(s.assigns, lits, c) && AllFixed(s, lits)
    ensures Entails(s.f + {lits}, LitSet(c))
  {
    hide Entails, State.Inv, Fixed;
    var f := s.f + {lits};
    EntailsMember(f, lits);
    forall l | l in LitSet(lits) && l !in LitSet(c) ensures Entails(f, {l.Not()}) {
      FalseIsFixed(s, lits, l);
      FixedEntailed(s, l.Not());
      EntailsInMore(s.f, f, {l.Not()});
    }
    DropRefuted(f, LitSet(lits), LitSet(c));
  }

  lemma FalseIsFixed(s: State, lits: seq<Lit>, l: Lit)
    requires s.Inv() && AllFixed(s, lits) && l in lits && l.v < |s.assigns| && s.assigns[l.v] == ValueOf(l.Not())
    ensures l.Not() in Fixed(s)
  {
    hide Entails, State.Inv, Fixed;
    if l in Fixed(s) { FixedEntailed(s, l); }
  }

  // A condition that can be looked up before the call: with all assigned literals fixed at level 0
  // the clause is kept, unless it is a unit above level 0.
  lemma FixedKept(s: State, lits: seq<Lit>, c: seq<Lit>)
    requires s.Inv() && AllFixed(s, lits) && (SatisfiedOrTautology(s.assigns, lits) || Cleaned(s.assigns, lits, c))
    requires SatisfiedOrTautology(s.assigns, lits) || |c| != 1 || s.lims == []
    ensures KeptAs(s, lits, c)
  {
    hide Entails, State.Inv, Cleaned;
    if SatisfiedOrTautology(s.assigns, lits) {
      SatisfiedFixed(s, lits);
    } else {
      CleanedFixed(s, lits, c);
    }
  }

  lemma SatisfiedFixed(s: State, lits: seq<Lit>)
    requires s.Inv() && AllFixed(s, lits) && SatisfiedOrTautology(s.assigns, lits)
    ensures s.CoveredClause(lits)
  {
    hide Entails, State.Inv;
    if l :| l in lits && l.v < |s.assigns| && s.assigns[l.v] == ValueOf(l) {
      if l.Not() in Fixed(s) { FixedEntailed(s, l.Not()); }
    }
  }

  // ---- All outcomes ----

  // Adding keeps the invariants if and only if the clause is kept.
  lemma AddedExactly(s: State, t: State, lits: seq<Lit>, c: seq<Lit>, h: nat, u: seq<Lit>)
    requires s.Inv() && s.root == |s.lims| && s.AssumedOk(s.root) && h !in s.arena
    requires s.NoneFalse(u) && (forall l :: l in u ==> l in s.trail) && Added(Given(s, lits), t, lits, c, h)
    ensures KeptAs(s, lits, c) <==> t.Inv()
    ensures KeptAs(s, lits, c) ==> t.NoneFalse(u)
  {
    hide Entails, State.Inv, State.NoneFalse, State.AssumedOk, Cleaned, Given, Enqueued, WithClause,
      State.CoveredClause;
    AddedCases(s, t, lits, c, h);
    if SatisfiedOrTautology(s.assigns, lits) {
      DroppedKept(s, lits);
      GivenNoneFalse(s, lits, u);
    } else if |c| == 1 {
      UnitExactly(s, t, lits, c, u);
    } else {
      StoredExactly(s, t, lits, c, h, u);
    }
  }

  lemma AddedCases(s: State, t: State, lits: seq<Lit>, c: seq<Lit>, h: nat)
    requires Added(Given(s, lits), t, lits, c, h)
    ensures SatisfiedOrTautology(s.assigns, lits) ==> t == Given(s, lits)
    ensures !SatisfiedOrTautology(s.assigns, lits) ==>
      && c != [] && c[0].v < |s.assigns| == |s.levels| == |s.reasons| && Cleaned(s.assigns, lits, c)
      && t == AfterClause(Given(s, lits), c, h)
  {
    hide SatisfiedOrTautology, Cleaned, AfterClause;
    if Cleaned(s.assigns, lits, c) { OneOutcome(s.assigns, lits, c); }
  }

  lemma GivenNoneFalse(s: State, lits: seq<Lit>, u: seq<Lit>)
    ensures s.NoneFalse(u) ==> Given(s, lits).NoneFalse(u)
  {
    if s.NoneFalse(u) { NoneFalseWiden(s, Given(s, lits), u); }
  }

  lemma UnitExactly(s: State, t: State, lits: seq<Lit>, c: seq<Lit>, u: seq<Lit>)
    requires s.Inv() && s.root == |s.lims| && s.AssumedOk(s.root) && |c| == 1 && Cleaned(s.assigns, lits, c)
    requires c[0].v < |s.assigns| == |s.levels| == |s.reasons| && t == Enqueued(Given(s, lits), c[0], NoReason)
    ensures s.lims == [] <==> t.Inv()
    ensures s.NoneFalse(u) ==> t.NoneFalse(u)
  {
    hide Entails, State.Inv, State.NoneFalse, State.AssumedOk, Cleaned;
    CleanedMembers(s.assigns, lits, c);
    if s.lims == [] { UnitKept(s, lits, c[0], c); }
    if t.Inv() { UnitNeedsRoot(s, t, c[0]); }
    if s.NoneFalse(u) { NoneFalseWiden(s, t, u); }
  }

  lemma StoredExactly(s: State, t: State, lits: seq<Lit>, c: seq<Lit>, h: nat, u: seq<Lit>)
    requires s.Inv() && |c| >= 2 && Cleaned(s.assigns, lits, c) && h !in s.arena && s.NoneFalse(u)
    requires (forall l :: l in u ==> l in s.trail) && t == WithClause(Given(s, lits), h, c, false)
    ensures Entails(s.f + {lits}, LitSet(c)) <==> t.Inv()
    ensures t.Inv() ==> t.NoneFalse(u)
  {
    hide Entails, State.Base, State.Covered, State.NoneFalse, Cleaned, WithClause;
    CleanedMembers(s.assigns, lits, c);
    InvSizes(s);
    InvWatches(s);
    if t.Inv() { StoredNeedsEntailed(s, t, lits, c, h); }
    if Entails(s.f + {lits}, LitSet(c)) { StoredKept(s, lits, c, h, u); }
  }

  lemma InvWatches(s: State)
    requires s.Inv()
    ensures s.WatchesOk()
  {
    hide Entails, State.TrailOk, State.LimsOk, State.LevelsOk, State.ReasonsOk, State.ArenaOk, State.WatchesOk,
      State.Covered;
  }

  // ---- What has been propagated ----

  // Adding a clause that is kept undoes nothing of it, at any level.
  lemma AddedStaysTight(s: State, t: State, lits: seq<Lit>, c: seq<Lit>, h: nat, q: nat)
    requires s.Inv() && h !in s.arena && Added(Given(s, lits), t, lits, c, h) && t.Inv()
    ensures Tight(s, q) ==> Tight(t, q)
  {
    hide Entails, State.Base, State.Covered, Cleaned, Enqueued, WithClause, Tight, SatisfiedOrTautology;
    AddedCases(s, t, lits, c, h);
    GivenTight(s, lits, q);
    Widen(s, lits);
    InvSizes(s);
    var u := Given(s, lits);
    if !SatisfiedOrTautology(s.assigns, lits) {
      CleanedMembers(s.assigns, lits, c);
      if |c| == 1 {
        UnitTight(u, t, c[0], q);
      } else {
        InvWatches(s);
        StoredNeedsEntailed(s, t, lits, c, h);
        AddedTight(u, t, h, c, q);
      }
    }
  }

  lemma GivenTight(s: State, lits: seq<Lit>, q: nat)
    ensures Tight(s, q) ==> Tight(Given(s, lits), q)
  {
    hide Tight;
    if Tight(s, q) { EnqueueTight(s, Given(s, lits), q); }
  }

  lemma UnitTight(s: State, t: State, l: Lit, q: nat)
    requires s.Base() && s.Unassigned(l) && l.v < |s.assigns| == |s.levels| == |s.reasons|
    requires t == Enqueued(s, l, NoReason)
    ensures Tight(s, q) ==> Tight(t, q)
  {
    hide State.Base, Tight, SameForced;
    UnassignedForced(s, t, l);
    if Tight(s, q) { EnqueueTight(s, t, q); }
  }

  // The rest of the state.
  lemma AddedShape(s: State, t: State, lits: seq<Lit>, c: seq<Lit>, h: nat, q: nat)
    requires Added(Given(s, lits), t, lits, c, h) && q <= |s.trail| && s.root == |s.lims|
    ensures t.n == s.n && t.lims == s.lims && t.root == s.root && t.assumed == s.assumed && s.trail <= t.trail
    ensures t.trail[..q] == s.trail[..q] && (s.AssumedOk(s.root) ==> t.AssumedOk(t.root))
    ensures t.trail == s.trail || (!SatisfiedOrTautology(s.assigns, lits) && |c| == 1)
  {
    hide SatisfiedOrTautology, Cleaned, Listed;
    AddedCases(s, t, lits, c, h);
    assert s.trail <= t.trail;
    if s.AssumedOk(s.root) {
      forall i | 0 <= i < t.root
        ensures t.assumed[i] in t.trail[..if t.SegEnd(i + 1) <= |t.trail| then t.SegEnd(i + 1) else |t.trail|]
      {
        var e := if s.SegEnd(i + 1) <= |s.trail| then s.SegEnd(i + 1) else |s.trail|;
        var k :| 0 <= k < e && s.trail[..e][k] == s.assumed[i];
        assert t.trail[k] == s.assumed[i];
      }
    }
  }

  // At level 0 every clause is kept.
  lemma RootKept(s: State, t: State, lits: seq<Lit>, c: seq<Lit>, h: nat)
    requires s.Inv() && s.lims == [] && Added(Given(s, lits), t, lits, c, h)
    ensures KeptAs(s, lits, c)
  {
    hide Entails, State.Inv, Cleaned, KeptAs, SatisfiedOrTautology;
    AddedCases(s, t, lits, c, h);
    FixedAtRoot(s, lits);
    FixedKept(s, lits, c);
  }

  // Nothing is left of a clause whose literals are all false: it is refuted by the assumptions.
  lemma NothingLeft(s: State, lits: seq<Lit>, sorted: seq<Lit>)
    requires s.Inv() && s.root == |s.lims| && multiset(sorted) == multiset(lits) && Cleaned(s.assigns, sorted, [])
    ensures Refuted(s.f + {lits}, LitSet(s.assumed))
  {
    hide Entails, State.LimsOk, State.LevelsOk, State.ReasonsOk, State.ArenaOk, State.WatchesOk, State.Covered, Refuted;
    SameLiterals(sorted, lits);
    Widen(s, lits);
    EntailsMember(s.f + {lits}, lits);
    forall i | 0 <= i < |lits| ensures lits[i].Not() in s.trail {
      assert lits[i] in sorted;
      TrueIffOnTrail(s, lits[i]);
    }
    RootConflictRefutes(Given(s, lits), lits);
  }
}
