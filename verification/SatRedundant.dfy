// Which literals of a learnt clause are dropped: exactly those that nothing reached through the reasons keeps.
module SatRedundant {
  import opened Cnf
  import opened SatState
  import opened SatAnalysis
  import opened SatCore

  // t holds the untagged antecedents above level 0 of x, and with each variable its own.
  ghost predicate Traced(s: State, tags: seq<nat>, x: nat, t: set<nat>) {
    forall u: nat, v: nat :: (u == x || u in t) && Antecedent(s, u, v) && Untagged(s, tags, v) ==> v in t
  }

  ghost predicate Untagged(s: State, tags: seq<nat>, v: nat) {
    AboveZero(s, v) && v < |tags| && tags[v] == 0
  }

  // Going back from x through the reasons, not past tagged variables, one comes to v.
  ghost predicate Meets(s: State, tags: seq<nat>, x: nat, v: nat) {
    forall t: set<nat> :: Traced(s, tags, x, t) ==> v in t
  }

  // v was not forced, or no literal of the clause has its level.
  ghost predicate Blocks(s: State, minl: set<nat>, v: nat) {
    v < |s.reasons| && v < |s.levels| && (s.reasons[v].NoReason? || s.levels[v] % 32 !in minl)
  }

  // The literal of x follows from the tagged ones.
  ghost predicate Redundant(s: State, tags: seq<nat>, minl: set<nat>, x: nat) {
    x < |s.reasons| && !s.reasons[x].NoReason? && forall v: nat :: Meets(s, tags, x, v) ==> !Blocks(s, minl, v)
  }

  lemma MeetsNext(s: State, tags: seq<nat>, x: nat, u: nat, v: nat)
    requires (u == x || Meets(s, tags, x, u)) && Antecedent(s, u, v) && Untagged(s, tags, v)
    ensures Meets(s, tags, x, v)
  {
  }

  // ---- The depth-first search ----

  ghost predicate New(tags0: seq<nat>, tags: seq<nat>, v: nat) {
    v < |tags0| && v < |tags| && tags0[v] == 0 && tags[v] != 0
  }

  ghost predicate MoreTags(s: State, tags0: seq<nat>, tags: seq<nat>) {
    && |tags| == |tags0| == |s.levels| == |s.reasons|
    && forall v: nat :: v < |tags| && tags0[v] != 0 ==> tags[v] != 0
  }

  // What has been tagged since tags0 is met and blocks nothing; what is neither on the stack nor pending has
  // all its antecedents tagged.
  ghost predicate Tracing(s: State, tags0: seq<nat>, tags: seq<nat>, x: nat, stack: seq<nat>, minl: set<nat>,
                          pend: int) {
    && MoreTags(s, tags0, tags) && x < |tags|
    && (forall v: nat :: New(tags0, tags, v) ==> Meets(s, tags0, x, v) && !Blocks(s, minl, v))
    && (forall v: nat :: v in stack || v == pend ==> v == x || New(tags0, tags, v))
    && (forall v: nat :: v == x || New(tags0, tags, v) ==>
          v in stack || v == pend || (v < |s.reasons| && ReasonKnown(s, tags, v)))
  }

  lemma TracingStart(s: State, tags: seq<nat>, x: nat, minl: set<nat>)
    requires |tags| == |s.levels| == |s.reasons| && x < |tags|
    ensures Tracing(s, tags, tags, x, [x], minl, -1)
  {
  }

  lemma TracingPop(s: State, tags0: seq<nat>, tags: seq<nat>, x: nat, stack: seq<nat>, minl: set<nat>)
    requires Tracing(s, tags0, tags, x, stack, minl, -1) && stack != []
    ensures Tracing(s, tags0, tags, x, stack[..|stack| - 1], minl, stack[|stack| - 1])
  {
    hide Meets, Blocks, ReasonKnown;
    var r := stack[..|stack| - 1];
    assert stack == r + [stack[|stack| - 1]];
  }

  lemma TracingPush(s: State, tags0: seq<nat>, tags: seq<nat>, x: nat, stack: seq<nat>, minl: set<nat>, pend: nat,
                    u: nat)
    requires Tracing(s, tags0, tags, x, stack, minl, pend) && Antecedent(s, pend, u) && Untagged(s, tags, u)
    requires !Blocks(s, minl, u)
    ensures Tracing(s, tags0, tags[u := 1], x, stack + [u], minl, pend)
  {
    hide Meets, Blocks, ReasonKnown, Antecedent;
    MeetsNext(s, tags0, x, pend, u);
    var t := tags[u := 1];
    forall v: nat | v == x || New(tags0, t, v)
      ensures v in stack + [u] || v == pend || (v < |s.reasons| && ReasonKnown(s, t, v))
    {
      if v != u && v !in stack && v != pend { ReasonKnownMore(s, tags, t, v); }
    }
  }

  lemma TracingBlocked(s: State, tags0: seq<nat>, tags: seq<nat>, x: nat, stack: seq<nat>, minl: set<nat>, pend: nat,
                       u: nat)
    requires Tracing(s, tags0, tags, x, stack, minl, pend) && Antecedent(s, pend, u) && Untagged(s, tags, u)
    requires Blocks(s, minl, u)
    ensures !Redundant(s, tags0, minl, x)
  {
    hide Meets, Blocks, ReasonKnown, Antecedent;
    MeetsNext(s, tags0, x, pend, u);
  }

  lemma TracingDone(s: State, tags0: seq<nat>, tags: seq<nat>, x: nat, stack: seq<nat>, minl: set<nat>, pend: nat)
    requires Tracing(s, tags0, tags, x, stack, minl, pend) && pend < |s.reasons| && ReasonKnown(s, tags, pend)
    ensures Tracing(s, tags0, tags, x, stack, minl, -1)
  {
    hide Meets, Blocks;
  }

  // Since tags0 only variables have been tagged that block nothing, with all their antecedents.
  ghost predicate Clean(s: State, tags0: seq<nat>, tags: seq<nat>, minl: set<nat>) {
    && MoreTags(s, tags0, tags)
    && forall v: nat :: New(tags0, tags, v) ==> !Blocks(s, minl, v) && v < |s.reasons| && ReasonKnown(s, tags, v)
  }

  ghost function NewSet(tags0: seq<nat>, tags: seq<nat>): set<nat> {
    set v | 0 <= v < |tags| && New(tags0, tags, v)
  }

  lemma KnownAntecedent(s: State, tags: seq<nat>, u: nat, v: nat)
    requires u < |s.reasons| && ReasonKnown(s, tags, u) && Antecedent(s, u, v) && AboveZero(s, v)
    ensures v < |tags| && tags[v] != 0
  {
  }

  lemma TracingEnd(s: State, tags0: seq<nat>, tags: seq<nat>, x: nat, minl: set<nat>)
    requires Tracing(s, tags0, tags, x, [], minl, -1) && !s.reasons[x].NoReason?
    ensures Redundant(s, tags0, minl, x) && Clean(s, tags0, tags, minl)
  {
    hide Blocks, ReasonKnown, Antecedent;
    var t := NewSet(tags0, tags);
    forall u: nat, v: nat | (u == x || u in t) && Antecedent(s, u, v) && Untagged(s, tags0, v) ensures v in t {
      KnownAntecedent(s, tags, u, v);
    }
    assert Traced(s, tags0, x, t);
  }

  // ---- Several literals one after the other ----

  lemma CleanTwice(s: State, tags0: seq<nat>, tags1: seq<nat>, tags: seq<nat>, minl: set<nat>)
    requires Clean(s, tags0, tags1, minl) && Clean(s, tags1, tags, minl)
    ensures Clean(s, tags0, tags, minl)
  {
    hide Blocks, ReasonKnown;
    forall v: nat | New(tags0, tags, v) ensures !Blocks(s, minl, v) && v < |s.reasons| && ReasonKnown(s, tags, v) {
      if New(tags0, tags1, v) { ReasonKnownMore(s, tags1, tags, v); }
    }
  }

  lemma CleanSelf(s: State, tags: seq<nat>, minl: set<nat>)
    requires |tags| == |s.levels| == |s.reasons|
    ensures Clean(s, tags, tags, minl)
  {
  }

  // The tags of redundant variables make no difference.
  lemma RedundantSame(s: State, tags0: seq<nat>, tags: seq<nat>, minl: set<nat>, x: nat)
    requires Clean(s, tags0, tags, minl)
    ensures Redundant(s, tags, minl, x) <==> Redundant(s, tags0, minl, x)
  {
    hide Blocks, ReasonKnown, Antecedent, Meets;
    forall v: nat | Meets(s, tags, x, v) ensures Meets(s, tags0, x, v) { MeetsMore(s, tags0, tags, x, v); }
    if Redundant(s, tags, minl, x) {
      forall v: nat | Meets(s, tags0, x, v) ensures !Blocks(s, minl, v) { MeetsOrNew(s, tags0, tags, minl, x, v); }
    }
  }

  lemma MeetsMore(s: State, tags0: seq<nat>, tags: seq<nat>, x: nat, v: nat)
    requires MoreTags(s, tags0, tags) && Meets(s, tags, x, v)
    ensures Meets(s, tags0, x, v)
  {
    hide Antecedent;
    forall t: set<nat> | Traced(s, tags0, x, t) ensures v in t { assert Traced(s, tags, x, t); }
  }

  lemma MeetsOrNew(s: State, tags0: seq<nat>, tags: seq<nat>, minl: set<nat>, x: nat, v: nat)
    requires Clean(s, tags0, tags, minl) && Meets(s, tags0, x, v)
    ensures Meets(s, tags, x, v) || New(tags0, tags, v)
  {
    hide Antecedent, ReasonKnown, Blocks;
    forall t: set<nat> | Traced(s, tags, x, t) && !New(tags0, tags, v) ensures v in t {
      var all := t + NewSet(tags0, tags);
      forall u: nat, w: nat | (u == x || u in all) && Antecedent(s, u, w) && Untagged(s, tags0, w) ensures w in all {
        if New(tags0, tags, u) { KnownAntecedent(s, tags, u, w); }
        assert tags[w] != 0 ==> New(tags0, tags, w);
      }
      assert Traced(s, tags0, x, all);
    }
  }

  // ---- The clause that is left ----

  // The levels of the literals but the first, modulo 32.
  ghost function LevelMask(s: State, all: seq<Lit>, n: nat): set<nat>
    requires n <= |all|
  {
    if n <= 1 then {}
    else LevelMask(s, all, n - 1) + if all[n - 1].v < |s.levels| then {s.levels[all[n - 1].v] % 32} else {}
  }

  // The first literal, and of the others among the first n those that are not redundant.
  ghost function Necessary(s: State, tags: seq<nat>, minl: set<nat>, all: seq<Lit>, n: nat): seq<Lit>
    requires n <= |all|
  {
    if n == 0 then []
    else if n > 1 && Redundant(s, tags, minl, all[n - 1].v) then Necessary(s, tags, minl, all, n - 1)
    else Necessary(s, tags, minl, all, n - 1) + [all[n - 1]]
  }

  lemma NecessaryFirst(s: State, tags: seq<nat>, minl: set<nat>, all: seq<Lit>)
    requires |all| >= 1
    ensures all[..1] == Necessary(s, tags, minl, all, 1)
  {
    assert Necessary(s, tags, minl, all, 0) == [];
  }

  lemma NecessaryNext(s: State, tags: seq<nat>, minl: set<nat>, all: seq<Lit>, n: nat)
    requires 1 <= n < |all|
    ensures Necessary(s, tags, minl, all, n + 1) ==
      Necessary(s, tags, minl, all, n) + if Redundant(s, tags, minl, all[n].v) then [] else [all[n]]
  {
    hide Redundant;
  }

  lemma SearchSizes(s: State, tags: seq<nat>, except: set<nat>, stack: seq<nat>, m: nat)
    requires Searching(s, tags, except, stack, m)
    ensures |s.reasons| == |s.levels| == |tags|
  {
    hide ClosedBut, AssignedBelow;
  }

  lemma AntecedentsOf(s: State, v: nat, m: nat)
    requires AssignedBelow(s, v, m) && v < |s.reasons|
    ensures match s.reasons[v]
      case NoReason => true
      case BinReason(q) => Antecedent(s, v, q.v)
      case ClauseReason(h) => h in s.arena ==> forall i :: 1 <= i < |s.arena[h]| ==>
          Antecedent(s, v, s.arena[h][i].v)
  {
  }

  lemma ChosenKept(s: State, tags: seq<nat>, minl: set<nat>, x: nat)
    requires x < |s.reasons| && s.reasons[x].NoReason?
    ensures !Redundant(s, tags, minl, x)
  {
  }

  lemma ResolvedLevels(s: State, tags: seq<nat>, all: seq<Lit>)
    requires Resolved(s, tags, all)
    ensures |all| >= 1 && forall i :: 1 <= i < |all| ==> all[i].v < |s.levels|
  {
    hide Entails, ClosedBut;
  }
}
