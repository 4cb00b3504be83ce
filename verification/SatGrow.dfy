// One more variable.
module SatGrow {
  import opened Cnf
  import opened SatState
  import opened SatUndo
  import opened SatHeap

  function WithVar(s: State): State {
    s.(n := s.n + 1, assigns := s.assigns + [X], levels := s.levels + [0], reasons := s.reasons + [NoReason],
       wl := s.wl[Lit(s.n, false) := []][Lit(s.n, true) := []])
  }

  // As many variables as needed for the given size.
  function WithVars(s: State, size: nat): State
    decreases if s.n < size then size - s.n else 0
  {
    if s.n < size then WithVars(WithVar(s), size) else s
  }

  // Only variables have been added.
  ghost predicate Widened(s: State, t: State) {
    && s.n <= t.n && |s.assigns| <= |t.assigns| && t.assigns[..|s.assigns|] == s.assigns
    && t == s.(n := t.n, assigns := t.assigns, levels := t.levels, reasons := t.reasons, wl := t.wl)
  }

  lemma SameWidth(s: State, size: nat, m: nat)
    requires m == if size > s.n then size else s.n
    ensures WithVars(s, size) == WithVars(s, m)
  {
  }

  lemma WidenedSelf(s: State)
    ensures Widened(s, s)
  {
    assert s.assigns[..|s.assigns|] == s.assigns;
  }

  lemma WidenedMore(s: State, t: State)
    requires Widened(s, t)
    ensures Widened(s, WithVar(t))
  {
    assert WithVar(t).assigns[..|s.assigns|] == t.assigns[..|s.assigns|];
  }

  // A solver without variables.
  lemma EmptyInv(s: State)
    requires s == State(0, {}, [], [], [], [], [], 0, [], map[], {}, map[])
    ensures s.Inv() && s.NoneFalse([]) && s.AssumedOk(0)
  {
  }

  lemma WithVarTrail(s: State)
    requires s.TrailOk() && s.LimsOk()
    ensures WithVar(s).TrailOk() && WithVar(s).LimsOk()
  {
  }

  lemma WithVarLevels(s: State)
    requires s.TrailOk() && s.LevelsOk()
    ensures WithVar(s).LevelsOk()
  {
    hide Entails;
    var t := WithVar(s);
    forall k | 0 <= k < |t.trail| ensures t.trail[k].v < |t.levels| && t.LevelAt(k) {
      assert s.LevelAt(k);
      assert t.levels[s.trail[k].v] == s.levels[s.trail[k].v];
    }
  }

  lemma WithVarReasonAt(s: State, k: nat)
    requires k < |s.trail| && s.trail[k].v < |s.levels| == |s.reasons| && s.ReasonAt(k)
    ensures WithVar(s).ReasonAt(k)
  {
    hide Entails;
    var t := WithVar(s);
    var x := s.trail[k].v;
    assert t.levels[x] == s.levels[x] && t.reasons[x] == s.reasons[x];
    match s.reasons[x]
    case BinReason(q) => assert t.levels[q.v] == s.levels[q.v];
    case _ =>
  }

  lemma WithVarReasons(s: State)
    requires s.TrailOk() && s.ReasonsOk()
    ensures WithVar(s).ReasonsOk()
  {
    hide Entails, State.ReasonAt;
    var t := WithVar(s);
    forall k | 0 <= k < |t.trail| ensures t.trail[k].v < |t.levels| && t.ReasonAt(k) {
      WithVarReasonAt(s, k);
    }
  }

  lemma WithVarWatches(s: State)
    requires s.WatchesOk()
    ensures WithVar(s).WatchesOk()
  {
    hide Entails, State.EntryOk, State.Watched, State.Paired;
    var t := WithVar(s);
    WithVarLists(s);
    forall l: Lit ensures l.v < t.n <==> l in t.wl {
      assert l.v < s.n <==> l in s.wl;
      assert l.v == s.n ==> l == Lit(s.n, false) || l == Lit(s.n, true);
    }
    forall l, i | l in t.wl && 0 <= i < |t.wl[l]| ensures t.EntryOk(l, t.wl[l][i]) {
      assert s.EntryOk(l, s.wl[l][i]);
      WithVarEntry(s, l, s.wl[l][i]);
    }
    WithVarWatched(s);
  }

  // The lists there were are the same.
  lemma WithVarLists(s: State)
    requires s.WatchesOk()
    ensures Lit(s.n, false) !in s.wl && Lit(s.n, true) !in s.wl
    ensures forall l: Lit :: l in s.wl ==> l in WithVar(s).wl && WithVar(s).wl[l] == s.wl[l]
  {
    hide Entails, State.EntryOk, State.Watched, State.Paired;
  }

  lemma WithVarEntry(s: State, l: Lit, w: Watch)
    requires s.WatchesOk() && s.EntryOk(l, w)
    ensures WithVar(s).EntryOk(l, w)
  {
    WithVarLists(s);
    hide Entails, State.WatchesOk;
  }

  lemma WithVarWatched(s: State)
    requires s.WatchesOk()
    ensures forall h :: h in s.arena && |s.arena[h]| >= 3 ==> WithVar(s).Watched(h)
    ensures forall h :: h in s.arena && |s.arena[h]| == 2 ==> WithVar(s).Paired(h)
  {
    WithVarLists(s);
    hide State.EntryOk;
    forall h | h in s.arena && |s.arena[h]| >= 3 ensures WithVar(s).Watched(h) { assert s.Watched(h); }
    forall h | h in s.arena && |s.arena[h]| == 2 ensures WithVar(s).Paired(h) { assert s.Paired(h); }
  }

  lemma WithVarArena(s: State)
    requires s.ArenaOk()
    ensures WithVar(s).ArenaOk()
  {
    hide Entails;
    forall h | h in s.arena ensures WithVar(s).ClauseOk(s.arena[h]) { assert s.ClauseOk(s.arena[h]); }
  }

  lemma WithVarInv(s: State)
    requires s.Inv()
    ensures WithVar(s).Inv()
  {
    hide Entails, State.TrailOk, State.LimsOk, State.LevelsOk, State.ReasonsOk, State.ArenaOk, State.Covered,
      State.EntryOk, State.Watched;
    WithVarTrail(s);
    WithVarLevels(s);
    WithVarReasons(s);
    WithVarArena(s);
    WithVarWatches(s);
    assert Lit(s.n, false) !in s.wl && Lit(s.n, true) !in s.wl;
    SameCovered(s, WithVar(s));
  }

  lemma WithVarNoneFalse(s: State, u: seq<Lit>)
    requires s.NoneFalse(u)
    ensures WithVar(s).NoneFalse(u)
  {
  }

  lemma WithVarReady(s: State, u: seq<Lit>)
    requires s.Inv() && s.NoneFalse(u)
    ensures var t := WithVar(s);
      && t.Inv() && t.NoneFalse(u) && t.trail == s.trail && t.lims == s.lims && t.root == s.root && t.n == s.n + 1
      && (s.AssumedOk(s.root) ==> t.AssumedOk(t.root))
  {
    hide State.Inv, State.NoneFalse, Entails;
    WithVarInv(s);
    WithVarNoneFalse(s, u);
  }

  // The new variable goes to the end of the heap.
  lemma HeapPush(n: nat, act: seq<nat>, heap: seq<nat>, pos: seq<int>, a: nat)
    requires HeapOk(n, act, heap, pos)
    ensures |act| == n && Indexed(n + 1, heap + [n], pos + [|heap|]) && OrderedBelow(act + [a], heap + [n], |heap|)
  {
    forall j | 0 < j < |heap + [n]| && j != |heap| ensures Above(act + [a], heap + [n], Parent(j), j) {
      assert Above(act, heap, Parent(j), j);
    }
  }
}
