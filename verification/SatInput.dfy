// Preparing a problem clause: sorting, and dropping duplicate and false literals.
module SatInput {
  import opened Cnf
  import opened SatState
  import opened SatSteps
  import opened SatClauses
  import opened SatLevels
  import opened SatUndo

  ghost predicate SortedCodes(c: seq<Lit>) {
    forall i, j :: 0 <= i < j < |c| ==> Code(c[i]) <= Code(c[j])
  }

  // Insertion sort.
  method SortLits(lits: seq<Lit>) returns (r: seq<Lit>)
    ensures SortedCodes(r) && multiset(r) == multiset(lits)
  {
    r := lits;
    var i := 1;
    while i < |r|
      invariant |r| == |lits| && 1 <= i && multiset(r) == multiset(lits)
      invariant forall x, y :: 0 <= x < y < i && y < |r| ==> Code(r[x]) <= Code(r[y])
    {
      var j := i;
      while j > 0 && Code(r[j - 1]) > Code(r[j])
        invariant 0 <= j <= i < |r| == |lits| && multiset(r) == multiset(lits)
        invariant forall x, y :: 0 <= x < y <= i && y != j ==> Code(r[x]) <= Code(r[y])
      {
        r := r[j - 1 := r[j]][j := r[j - 1]];
        j := j - 1;
      }
      i := i + 1;
    }
  }

  // The kept literals are unassigned, of distinct variables, and all others are false.
  ghost predicate Cleaned(assigns: seq<Value>, lits: seq<Lit>, c: seq<Lit>) {
    && DistinctVars(c)
    && (forall i :: 0 <= i < |c| ==> c[i] in lits && c[i].v < |assigns| && assigns[c[i].v] == X)
    && (forall l :: l in lits ==> l in c || (l.v < |assigns| && assigns[l.v] == ValueOf(l.Not())))
  }

  ghost predicate SatisfiedOrTautology(assigns: seq<Value>, lits: seq<Lit>) {
    || (exists l :: l in lits && l.v < |assigns| && assigns[l.v] == ValueOf(l))
    || (exists l :: l in lits && l.Not() in lits)
  }

  // The loop that deletes duplicates and finds satisfied clauses and tautologies.
  method CleanClause(assigns: seq<Value>, lits: seq<Lit>) returns (taut: bool, c: seq<Lit>)
    requires SortedCodes(lits) && forall i :: 0 <= i < |lits| ==> lits[i].v < |assigns|
    ensures taut ==> SatisfiedOrTautology(assigns, lits)
    ensures !taut ==> Cleaned(assigns, lits, c) && SortedCodes(c)
  {
    hide Cleaning;
    c := [];
    var i := 0;
    CleaningStarts(assigns, lits);
    while i < |lits|
      invariant 0 <= i <= |lits| && Cleaning(assigns, lits, c, i)
    {
      var l := lits[i];
      if (c != [] && l == c[|c| - 1].Not()) || assigns[l.v] == ValueOf(l) {
        Tautology(assigns, lits, c, i);
        return true, c;
      }
      CleaningStep(assigns, lits, c, i);
      if (c == [] || l != c[|c| - 1]) && assigns[l.v] == X {
        c := c + [l];
      }
      i := i + 1;
    }
    taut := false;
    CleaningEnds(assigns, lits, c);
  }

  // The first i literals have been looked at.
  ghost predicate Cleaning(assigns: seq<Value>, lits: seq<Lit>, c: seq<Lit>, i: nat) {
    && i <= |lits| && DistinctVars(c)
    && (forall k :: 0 <= k < |c| ==> c[k] in lits && c[k].v < |assigns| && assigns[c[k].v] == X)
    && (forall k :: 0 <= k < i ==>
        lits[k] in c || (lits[k].v < |assigns| && assigns[lits[k].v] == ValueOf(lits[k].Not())))
    && (forall k, j :: 0 <= k < |c| && i <= j < |lits| ==> Code(c[k]) <= Code(lits[j]))
    && SortedCodes(c)
  }

  lemma CleaningStarts(assigns: seq<Value>, lits: seq<Lit>)
    ensures Cleaning(assigns, lits, [], 0)
  {
  }

  lemma CleaningStep(assigns: seq<Value>, lits: seq<Lit>, c: seq<Lit>, i: nat)
    requires SortedCodes(lits) && (forall k :: 0 <= k < |lits| ==> lits[k].v < |assigns|) && i < |lits|
    requires Cleaning(assigns, lits, c, i)
    requires !((c != [] && lits[i] == c[|c| - 1].Not()) || assigns[lits[i].v] == ValueOf(lits[i]))
    ensures var added := (c == [] || lits[i] != c[|c| - 1]) && assigns[lits[i].v] == X;
      Cleaning(assigns, lits, if added then c + [lits[i]] else c, i + 1)
  {
    hide Cleaning;
    if (c == [] || lits[i] != c[|c| - 1]) && assigns[lits[i].v] == X { CleaningAdds(assigns, lits, c, i); }
    else { CleaningSkips(assigns, lits, c, i); }
  }

  lemma CleaningAdds(assigns: seq<Value>, lits: seq<Lit>, c: seq<Lit>, i: nat)
    requires SortedCodes(lits) && i < |lits| && Cleaning(assigns, lits, c, i) && lits[i].v < |assigns|
    requires assigns[lits[i].v] == X
    requires c != [] ==> lits[i] != c[|c| - 1] && lits[i] != c[|c| - 1].Not()
    ensures Cleaning(assigns, lits, c + [lits[i]], i + 1)
  {
    hide Code;
    var l, d := lits[i], c + [lits[i]];
    forall k | 0 <= k < |c| ensures c[k].v != l.v { SameVarBetween(c[k], c[|c| - 1], l); }
    forall k, j | 0 <= k < |d| && i + 1 <= j < |lits| ensures Code(d[k]) <= Code(lits[j]) { }
    assert d[|d| - 1] == l;
  }

  lemma CleaningSkips(assigns: seq<Value>, lits: seq<Lit>, c: seq<Lit>, i: nat)
    requires i < |lits| && Cleaning(assigns, lits, c, i) && lits[i].v < |assigns|
    requires assigns[lits[i].v] == ValueOf(lits[i].Not()) || (c != [] && lits[i] == c[|c| - 1])
    ensures Cleaning(assigns, lits, c, i + 1)
  {
    hide Code;
  }

  lemma Tautology(assigns: seq<Value>, lits: seq<Lit>, c: seq<Lit>, i: nat)
    requires i < |lits| && lits[i].v < |assigns| && Cleaning(assigns, lits, c, i)
    requires (c != [] && lits[i] == c[|c| - 1].Not()) || assigns[lits[i].v] == ValueOf(lits[i])
    ensures SatisfiedOrTautology(assigns, lits)
  {
    if c != [] && lits[i] == c[|c| - 1].Not() {
      assert c[|c| - 1] in lits && c[|c| - 1].Not() in lits;
    } else {
      assert lits[i] in lits;
    }
  }

  lemma CleaningEnds(assigns: seq<Value>, lits: seq<Lit>, c: seq<Lit>)
    requires Cleaning(assigns, lits, c, |lits|)
    ensures Cleaned(assigns, lits, c) && SortedCodes(c)
  {
    forall l | l in lits ensures l in c || (l.v < |assigns| && assigns[l.v] == ValueOf(l.Not())) {
      var k :| 0 <= k < |lits| && lits[k] == l;
    }
  }

  lemma LastLargest(sorted: seq<Lit>, lits: seq<Lit>)
    requires SortedCodes(sorted) && multiset(sorted) == multiset(lits) && lits != []
    ensures sorted != [] && sorted[|sorted| - 1] in lits && forall l :: l in lits ==> l.v <= sorted[|sorted| - 1].v
  {
    assert |multiset(sorted)| == |multiset(lits)|;
    assert sorted[|sorted| - 1] in multiset(sorted);
    forall l | l in lits ensures l.v <= sorted[|sorted| - 1].v {
      assert l in multiset(lits);
      assert l in sorted;
      var i :| 0 <= i < |sorted| && sorted[i] == l;
      assert Code(sorted[i]) <= Code(sorted[|sorted| - 1]);
    }
  }

  lemma SameVarBetween(x: Lit, y: Lit, z: Lit)
    requires Code(x) <= Code(y) <= Code(z) && y != z && y != z.Not()
    ensures x.v != z.v
  {
  }

  // ---- What has been added ----

  // One literal is enqueued, two go to the watch lists only, more are stored.
  function AfterClause(s: State, c: seq<Lit>, h: nat): State
    requires c != [] && c[0].v < |s.assigns| == |s.levels| == |s.reasons|
  {
    if |c| == 1 then Enqueued(s, c[0], NoReason) else WithClause(s, h, c, false)
  }

  // What sat_solver_addclause makes of a clause that is not false: c is what is left of it.
  ghost predicate Added(s: State, t: State, lits: seq<Lit>, c: seq<Lit>, h: nat) {
    || (SatisfiedOrTautology(s.assigns, lits) && t == s)
    || (c != [] && c[0].v < |s.assigns| == |s.levels| == |s.reasons| && SortedCodes(c) &&
        Cleaned(s.assigns, lits, c) && t == AfterClause(s, c, h))
  }

  lemma AddedNothing(s: State, lits: seq<Lit>, sorted: seq<Lit>, h: nat)
    requires SatisfiedOrTautology(s.assigns, sorted) && multiset(sorted) == multiset(lits)
    ensures Added(s, s, lits, [], h)
  {
    SameLiterals(sorted, lits);
    hide SortedCodes, Cleaned;
  }

  lemma AddedCleaned(s: State, lits: seq<Lit>, sorted: seq<Lit>, c: seq<Lit>, h: nat)
    requires Cleaned(s.assigns, sorted, c) && SortedCodes(c) && multiset(sorted) == multiset(lits)
    requires c != [] && c[0].v < |s.assigns| == |s.levels| == |s.reasons|
    ensures Added(s, AfterClause(s, c, h), lits, c, h)
  {
    SameLiterals(sorted, lits);
    hide SortedCodes, AfterClause;
  }

  // ---- What the cleaned clause means ----

  lemma SameLiterals(a: seq<Lit>, b: seq<Lit>)
    requires multiset(a) == multiset(b)
    ensures forall l :: l in a <==> l in b
  {
    forall l ensures l in a <==> l in b {
      assert l in a <==> l in multiset(a);
      assert l in b <==> l in multiset(b);
    }
  }

  lemma CleanedUnit(s: State, t: State, lits: seq<Lit>, l: Lit)
    requires s.Inv() && s.lims == [] && t == s.(f := s.f + {lits}) && t.Base()
    requires Entails(t.f, LitSet([l])) && l in lits && l.v < |s.assigns| && s.assigns[l.v] == X
    ensures l.v < |t.assigns| == |t.levels| == |t.reasons| && Enqueued(t, l, NoReason).Inv()
  {
    hide Entails, State.ArenaOk, State.WatchesOk, State.Covered, State.LevelsOk, State.ReasonsOk, State.CoveredClause;
    assert LitSet([l]) == {l};
    var u := Enqueued(t, l, NoReason);
    EnqueueTrail(t, l, NoReason);
    EnqueueLevels(t, l, NoReason);
    EnqueueReasons(t, l, NoReason);
    EnqueueClauses(t, l, NoReason);
    EnqueueCovered(s, l, NoReason);
    UnitCovered(Enqueued(s, l, NoReason), u, lits, l);
  }

  lemma UnitCovered(s: State, u: State, lits: seq<Lit>, l: Lit)
    requires s.Covered() && u == s.(f := s.f + {lits}) && l in lits && s.lims == [] && l in s.trail
    ensures u.Covered()
  {
    assert s.trail[..|s.trail|] == s.trail;
    assert u.CoveredClause(lits);
    WidenCovered(s, lits, u);
  }

  lemma CleanedClause(s: State, t: State, lits: seq<Lit>, c: seq<Lit>, h: nat, u: seq<Lit>)
    requires s.Inv() && t == s.(f := s.f + {lits}) && t.Base() && h !in t.arena && s.NoneFalse(u)
    requires |c| >= 2 && DistinctVars(c) && Entails(t.f, LitSet(c)) && LitSet(c) <= LitSet(lits)
    requires forall i :: 0 <= i < |c| ==> c[i].v < t.n && t.Unassigned(c[i])
    requires forall l :: l in u ==> l in t.trail
    ensures WithClause(t, h, c, false).Inv() && WithClause(t, h, c, false).NoneFalse(u)
  {
    hide Entails, State.LimsOk, State.LevelsOk, State.ReasonsOk, State.ArenaOk, State.WatchesOk, State.Covered,
      State.NoneFalse;
    assert t.ClauseOk(c);
    NewClauseBase(t, h, c, false);
    NotOnTrail(t, c[0]);
    NoneFalseWiden(s, t, u);
    NewClauseNoneFalse(t, h, c, false, u);
    NewCovered(s, t, lits, c, h);
  }

  lemma NoneFalseWiden(s: State, t: State, u: seq<Lit>)
    requires s.NoneFalse(u) && t.arena == s.arena && t.wl == s.wl
    ensures t.NoneFalse(u)
  {
  }

  lemma NewCovered(s: State, t: State, lits: seq<Lit>, c: seq<Lit>, h: nat)
    requires s.Covered() && t == s.(f := s.f + {lits}) && t.WatchesOk() && t.ArenaOk() && t.ClauseOk(c) && h !in t.arena
    requires LitSet(c) <= LitSet(lits)
    ensures WithClause(t, h, c, false).Covered()
  {
    hide Entails, State.CoveredClause, State.Watched, State.EntryOk;
    assert c[0].v != c[1].v;
    ListedMembers(t, h, c);
    var w := WithClause(t, h, c, false);
    var w0 := w.(f := s.f);
    SameCovered(s, w0);
    NewCoveredClause(t, lits, c, h);
    WidenCovered(w0, lits, w);
  }

  lemma NewCoveredClause(t: State, lits: seq<Lit>, c: seq<Lit>, h: nat)
    requires t.WatchesOk() && t.ArenaOk() && t.ClauseOk(c) && h !in t.arena && LitSet(c) <= LitSet(lits)
    ensures WithClause(t, h, c, false).CoveredClause(lits)
  {
    hide Entails, State.Watched, State.EntryOk;
    assert c[0].v != c[1].v;
    ListedMembers(t, h, c);
    var w := WithClause(t, h, c, false);
    assert c[0] in LitSet(c) && c[1] in LitSet(c);
    if |c| == 2 {
      assert BinWatch(c[1]) in w.wl[c[0].Not()];
    } else {
      assert h in w.arena && h !in w.learnts && LitSet(w.arena[h]) <= LitSet(lits);
    }
  }

  lemma SortedVars(s: State, sorted: seq<Lit>, lits: seq<Lit>)
    requires s.Inv() && multiset(sorted) == multiset(lits) && forall i :: 0 <= i < |lits| ==> lits[i].v < s.n
    ensures forall i :: 0 <= i < |sorted| ==> sorted[i].v < |s.assigns|
    ensures |s.assigns| == s.n
  {
    hide Entails, State.LevelsOk, State.ReasonsOk, State.ArenaOk, State.WatchesOk, State.Covered;
    SameLiterals(sorted, lits);
    forall i | 0 <= i < |sorted| ensures sorted[i].v < |s.assigns| { assert sorted[i] in lits; }
  }
}
