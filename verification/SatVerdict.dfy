// What a final state of the search says about the problem clauses and the assumptions.
module SatVerdict {
  import opened Cnf
  import opened SatState
  import opened SatAnalysis

  function AssignmentOf(model: seq<bool>): Assignment {
    (v: nat) => v < |model| && model[v]
  }

  // A model of the clauses in which the assumptions hold.
  ghost predicate IsModel(f: set<Clause>, assumed: seq<Lit>, model: seq<bool>) {
    Models(AssignmentOf(model), f) && AllHold(AssignmentOf(model), LitSet(assumed))
  }

  ghost predicate Total(s: State) {
    forall v :: 0 <= v < |s.assigns| ==> s.assigns[v] != X
  }

  function ModelOf(assigns: seq<Value>): (r: seq<bool>)
    ensures |r| == |assigns| && forall v :: 0 <= v < |assigns| ==> r[v] == (assigns[v] == One)
  {
    seq(|assigns|, v requires 0 <= v < |assigns| => assigns[v] == One)
  }

  lemma TrailHolds(s: State, l: Lit)
    requires s.TrailOk() && Total(s) && l.v < s.n
    ensures Holds(AssignmentOf(ModelOf(s.assigns)), l) <==> l in s.trail
    ensures l in s.trail || l.Not() in s.trail
  {
    assert s.assigns[l.v] != X;
    if l in s.trail {
      var k :| 0 <= k < |s.trail| && s.trail[k] == l;
    } else {
      assert Lit(l.v, s.assigns[l.v] == Zero) in s.trail;
    }
  }

  // A total assignment that falsifies no watched pair satisfies every problem clause.
  lemma TotalSatisfies(s: State, c: Clause)
    requires s.Inv() && Total(s) && s.NoneFalse(s.trail) && c in s.f
    ensures SomeHolds(AssignmentOf(ModelOf(s.assigns)), LitSet(c))
  {
    hide Entails, State.LimsOk, State.LevelsOk, State.ReasonsOk, SomeHolds, Holds, AssignmentOf;
    assert s.CoveredClause(c);
    if l :| l in c && l in s.trail {
      SatisfiedBy(s, c, l);
    } else if h :| h in s.arena && h !in s.learnts && LitSet(s.arena[h]) <= LitSet(c) {
      SatisfiedStored(s, c, h);
    } else if x: Lit, y :| x in c && y in c && x.Not() in s.wl && BinWatch(y) in s.wl[x.Not()] {
      SatisfiedBinary(s, c, x, y);
    } else {
      var x :| x in c && x.Not() in c;
      SatisfiedTautology(AssignmentOf(ModelOf(s.assigns)), c, x);
    }
  }

  lemma SatisfiedBy(s: State, c: Clause, l: Lit)
    requires s.TrailOk() && Total(s) && l in s.trail && l in c
    ensures SomeHolds(AssignmentOf(ModelOf(s.assigns)), LitSet(c))
  {
    TrailHolds(s, l);
    assert l in LitSet(c);
  }

  lemma SatisfiedTautology(a: Assignment, c: Clause, x: Lit)
    requires x in c && x.Not() in c
    ensures SomeHolds(a, LitSet(c))
  {
    var l := if Holds(a, x) then x else x.Not();
    assert l in LitSet(c) && Holds(a, l);
  }

  lemma SatisfiedStored(s: State, c: Clause, h: nat)
    requires s.TrailOk() && s.ArenaOk() && Total(s) && s.NoneFalse(s.trail)
    requires h in s.arena && h !in s.learnts && LitSet(s.arena[h]) <= LitSet(c)
    ensures SomeHolds(AssignmentOf(ModelOf(s.assigns)), LitSet(c))
  {
    hide Entails, SomeHolds;
    var d := s.arena[h];
    assert s.ClauseOk(d) && !BothFalse(d, s.trail);
    TrailHolds(s, d[0]);
    TrailHolds(s, d[1]);
    assert d[0] in LitSet(d) && d[1] in LitSet(d);
    SatisfiedBy(s, c, if d[0] in s.trail then d[0] else d[1]);
  }

  lemma SatisfiedBinary(s: State, c: Clause, x: Lit, y: Lit)
    requires s.TrailOk() && s.WatchesOk() && Total(s) && s.NoneFalse(s.trail)
    requires x in c && y in c && x.Not() in s.wl && BinWatch(y) in s.wl[x.Not()]
    ensures SomeHolds(AssignmentOf(ModelOf(s.assigns)), LitSet(c))
  {
    hide Entails, SomeHolds, State.Watched;
    assert !(x.Not() in s.trail && y.Not() in s.trail);
    var i :| 0 <= i < |s.wl[x.Not()]| && s.wl[x.Not()][i] == BinWatch(y);
    assert s.EntryOk(x.Not(), s.wl[x.Not()][i]);
    TrailHolds(s, x);
    TrailHolds(s, y);
    SatisfiedBy(s, c, if x in s.trail then x else y);
  }

  lemma TotalIsModel(s: State)
    requires s.Inv() && Total(s) && s.NoneFalse(s.trail) && s.AssumedOk(|s.assumed|)
    ensures IsModel(s.f, s.assumed, ModelOf(s.assigns))
  {
    forall c | c in s.f ensures SomeHolds(AssignmentOf(ModelOf(s.assigns)), LitSet(c)) { TotalSatisfies(s, c); }
    forall l | l in LitSet(s.assumed) ensures Holds(AssignmentOf(ModelOf(s.assigns)), l) {
      assert l in s.trail;
      TrailHolds(s, l);
    }
  }

  // Above no decision, the whole trail follows from the clauses and the assumptions.
  lemma {:induction false} RootTrailHolds(s: State, a: Assignment, k: nat)
    requires s.LevelsOk() && s.ReasonsOk() && |s.lims| == s.root && k < |s.trail|
    requires forall h :: h in s.arena ==> Entails(s.f, LitSet(s.arena[h]))
    requires Models(a, s.f) && AllHold(a, LitSet(s.assumed))
    ensures Holds(a, s.trail[k])
  {
    hide Entails, Models;
    assert s.ReasonAt(k) && s.LevelAt(k);
    var l := s.trail[k];
    match s.reasons[l.v] {
      case NoReason =>
        if s.levels[l.v] == 0 { ZeroHolds(s, a, k); }
        else { assert s.assumed[s.levels[l.v] - 1] in LitSet(s.assumed); }
      case BinReason(q) =>
        var j :| 0 <= j < k && s.trail[..k][j] == q;
        RootTrailHolds(s, a, j);
        ReasonHolds(s, a, k);
      case ClauseReason(h) =>
        forall i | 1 <= i < |s.arena[h]| ensures !Holds(a, s.arena[h][i]) {
          var j :| 0 <= j < k && s.trail[..k][j] == s.arena[h][i].Not();
          RootTrailHolds(s, a, j);
        }
        ReasonHolds(s, a, k);
    }
  }

  // A false clause above no decision refutes the clauses under the assumptions.
  lemma RootConflictRefutes(s: State, lits: seq<Lit>)
    requires s.Base() && |s.lims| == s.root
    requires Entails(s.f, LitSet(lits)) && forall i :: 0 <= i < |lits| ==> lits[i].Not() in s.trail
    ensures Refuted(s.f, LitSet(s.assumed))
  {
    hide State.WatchesOk, State.LimsOk, State.TrailOk, State.ArenaOk;
    ArenaEntailed(s);
    forall a: Assignment | Models(a, s.f) ensures !AllHold(a, LitSet(s.assumed)) {
      var m :| m in LitSet(lits) && Holds(a, m);
      var k :| 0 <= k < |s.trail| && s.trail[k] == m.Not();
      if AllHold(a, LitSet(s.assumed)) { RootTrailHolds(s, a, k); }
    }
  }

  // So does an assumption that is already false.
  lemma FalseAssumptionRefutes(s: State, p: Lit)
    requires s.Base() && |s.lims| == s.root && p.Not() in s.trail
    ensures Refuted(s.f, LitSet(s.assumed + [p]))
  {
    hide State.WatchesOk, State.LimsOk, State.TrailOk, State.ArenaOk;
    ArenaEntailed(s);
    assert p in LitSet(s.assumed + [p]);
    var k :| 0 <= k < |s.trail| && s.trail[k] == p.Not();
    forall a: Assignment | Models(a, s.f) ensures !AllHold(a, LitSet(s.assumed + [p])) {
      if AllHold(a, LitSet(s.assumed + [p])) {
        assert forall l :: l in LitSet(s.assumed) ==> l in LitSet(s.assumed + [p]);
        RootTrailHolds(s, a, k);
      }
    }
  }

  // ---- The final conflict in terms of the assumptions ----

  // Walking down the trail: every tagged variable above position i is an assumption whose
  // negation is in conf, or has a known reason.
  ghost predicate FinalWalk(s: State, tags: seq<nat>, conf: seq<Lit>, i: int) {
    && |tags| == |s.levels| == |s.reasons| && -1 <= i < |s.trail|
    && (forall k :: i < k < |s.trail| && s.trail[k].v < |tags| && tags[s.trail[k].v] != 0 ==>
          s.trail[k].v in VarSet(conf) || ReasonKnown(s, tags, s.trail[k].v))
    && (forall j :: 0 <= j < |conf| ==> conf[j].Not() in s.trail && conf[j].Not() in s.assumed)
    && (forall v :: 0 <= v < |tags| && tags[v] != 0 ==> s.levels[v] > 0)
  }

  lemma FinalSkip(s: State, tags: seq<nat>, conf: seq<Lit>, i: nat)
    requires FinalWalk(s, tags, conf, i)
    requires s.trail[i].v < |tags| && tags[s.trail[i].v] == 0
    ensures FinalWalk(s, tags, conf, i - 1)
  {
  }

  lemma FinalAssumption(s: State, tags: seq<nat>, conf: seq<Lit>, i: nat)
    requires FinalWalk(s, tags, conf, i) && s.ReasonsOk() && s.LevelsOk() && s.root == |s.lims|
    requires s.trail[i].v < |tags| && tags[s.trail[i].v] != 0 && s.reasons[s.trail[i].v].NoReason?
    ensures FinalWalk(s, tags, conf + [s.trail[i].Not()], i - 1)
  {
    hide Entails;
    var l := s.trail[i];
    var conf' := conf + [l.Not()];
    assert s.ReasonAt(i) && s.LevelAt(i);
    VarSetSnoc(conf, l.Not());
    assert l.Not().Not() == l;
    assert s.assumed[s.levels[l.v] - 1] == l;
  }

  lemma FinalReason(s: State, tags: seq<nat>, conf: seq<Lit>, i: nat)
    requires FinalWalk(s, tags, conf, i)
    requires s.trail[i].v < |tags| && ReasonKnown(s, tags, s.trail[i].v)
    ensures FinalWalk(s, tags, conf, i - 1)
  {
  }

  // One more tag keeps what has been walked.
  lemma FinalTag(s: State, tags: seq<nat>, conf: seq<Lit>, i: int, v: nat)
    requires FinalWalk(s, tags, conf, i) && v < |tags| && s.levels[v] > 0
    requires forall k :: i < k < |s.trail| ==> s.trail[k].v != v
    ensures FinalWalk(s, tags[v := 1], conf, i)
  {
    var tags' := tags[v := 1];
    forall k | i < k < |s.trail| && s.trail[k].v < |tags| && tags'[s.trail[k].v] != 0
      ensures s.trail[k].v in VarSet(conf) || ReasonKnown(s, tags', s.trail[k].v)
    {
      if s.trail[k].v !in VarSet(conf) { ReasonKnownMore(s, tags, tags', s.trail[k].v); }
    }
  }

  lemma FinalEnd(s: State, tags: seq<nat>, conf: seq<Lit>, i: int)
    requires s.Inv() && FinalWalk(s, tags, conf, i) && s.lims != [] && i < s.lims[0]
    ensures ClosedBut(s, tags, VarSet(conf), |s.trail|)
  {
    hide Entails, State.ReasonsOk, State.ArenaOk, State.WatchesOk, State.Covered;
    forall k | 0 <= k < |s.trail| && s.trail[k].v < |tags| && tags[s.trail[k].v] != 0
      ensures s.trail[k].v in VarSet(conf) || ReasonKnown(s, tags, s.trail[k].v)
    {
      assert s.LevelAt(k);
      assert i < k;
    }
  }

  // Every tagged or level-0 trail literal follows from the clauses and the assumptions in conf.
  lemma FinalEntails(s: State, tags: seq<nat>, conf: seq<Lit>, k: nat)
    requires s.Base() && ClosedBut(s, tags, VarSet(conf), |s.trail|) && k < |s.trail| && Known(s, tags, s.trail[k].v)
    requires forall j :: 0 <= j < |conf| ==> conf[j].Not() in s.trail
    ensures Entails(s.f, {s.trail[k]} + LitSet(conf))
  {
    hide State.LimsOk, State.WatchesOk, State.ArenaOk, State.TrailOk, ClosedBut, Known, DistinctTrail;
    ArenaEntailed(s);
    TrailDistinct(s);
    forall a: Assignment | Models(a, s.f) ensures SomeHolds(a, {s.trail[k]} + LitSet(conf)) {
      if SomeHolds(a, LitSet(conf)) {
        var l :| l in LitSet(conf) && Holds(a, l);
        assert l in {s.trail[k]} + LitSet(conf);
      } else {
        forall j | 0 <= j < |conf| ensures conf[j].Not() in s.trail && Holds(a, conf[j].Not()) {
          assert conf[j] in LitSet(conf);
        }
        TaggedHold(s, tags, conf, |s.trail|, a, k);
        assert s.trail[k] in {s.trail[k]} + LitSet(conf);
      }
    }
  }

  lemma FinalStart(s: State, tags: seq<nat>)
    requires s.Inv() && |tags| == s.n && forall v :: 0 <= v < |tags| ==> tags[v] == 0
    ensures FinalWalk(s, tags, [], |s.trail| - 1)
  {
    hide Entails, State.LimsOk, State.LevelsOk, State.ReasonsOk, State.ArenaOk, State.WatchesOk, State.Covered;
  }

  lemma TrailBounds(s: State)
    requires s.Inv()
    ensures |s.levels| == |s.reasons| == |s.assigns| == s.n
    ensures forall k :: 0 <= k < |s.trail| ==> s.trail[k].v < s.n
    ensures s.lims != [] ==> s.lims[0] <= |s.trail|
  {
    hide Entails, State.LevelsOk, State.ReasonsOk, State.ArenaOk, State.WatchesOk, State.Covered;
  }

  // The antecedents of the literal at position i are assigned before it.
  lemma AntecedentVars(s: State, i: nat)
    requires s.Inv() && i < |s.trail|
    ensures s.trail[i].v < |s.reasons|
    ensures match s.reasons[s.trail[i].v]
      case NoReason => true
      case BinReason(q) => AssignedBelow(s, q.v, i)
      case ClauseReason(h) =>
        h in s.arena && |s.arena[h]| >= 2 && forall j :: 1 <= j < |s.arena[h]| ==> AssignedBelow(s, s.arena[h][j].v, i)
  {
    hide Entails, State.LimsOk, State.LevelsOk, State.ArenaOk, State.WatchesOk, State.Covered;
    assert s.ReasonAt(i);
    match s.reasons[s.trail[i].v]
    case NoReason =>
    case BinReason(q) =>
      var j :| 0 <= j < i && s.trail[..i][j] == q;
      assert s.trail[j].v == q.v;
    case ClauseReason(h) =>
      forall x | 1 <= x < |s.arena[h]| ensures AssignedBelow(s, s.arena[h][x].v, i) {
        var j :| 0 <= j < i && s.trail[..i][j] == s.arena[h][x].Not();
        assert s.trail[j].v == s.arena[h][x].v;
      }
  }

  lemma NotAbove(s: State, v: nat, i: nat)
    requires s.Inv() && AssignedBelow(s, v, i)
    ensures forall k :: i <= k < |s.trail| ==> s.trail[k].v != v
    ensures v < |s.levels|
  {
    hide Entails, State.LimsOk, State.LevelsOk, State.ReasonsOk, State.ArenaOk, State.WatchesOk, State.Covered;
  }

  // The conclusion for the variables tagged at the start.
  ghost predicate Explained(s: State, vars: set<nat>, conf: seq<Lit>) {
    && (forall j :: 0 <= j < |conf| ==> conf[j].Not() in s.assumed)
    && forall k :: 0 <= k < |s.trail| && s.trail[k].v in vars ==> Entails(s.f, {s.trail[k]} + LitSet(conf))
  }

  lemma FinalExplained(s: State, tags: seq<nat>, conf: seq<Lit>, i: int, vars: set<nat>)
    requires s.Inv() && FinalWalk(s, tags, conf, i) && s.lims != [] && i < s.lims[0]
    requires forall v :: v in vars ==> Known(s, tags, v)
    ensures Explained(s, vars, conf)
  {
    hide Entails, Known, State.TrailOk, State.LimsOk, State.LevelsOk, State.ReasonsOk, State.ArenaOk,
      State.WatchesOk, State.Covered;
    FinalEnd(s, tags, conf, i);
    forall k | 0 <= k < |s.trail| && s.trail[k].v in vars ensures Entails(s.f, {s.trail[k]} + LitSet(conf)) {
      FinalEntails(s, tags, conf, k);
    }
  }

  lemma ZeroExplained(s: State, vars: set<nat>)
    requires s.Inv() && s.lims == []
    ensures Explained(s, vars, [])
  {
    forall k | 0 <= k < |s.trail| && s.trail[k].v in vars ensures Entails(s.f, {s.trail[k]} + LitSet([])) {
      assert s.LevelAt(k);
      EntailsMore(s.f, {s.trail[k]}, {s.trail[k]} + LitSet([]));
    }
  }

  // A false clause all of whose variables are explained leaves a clause over the assumptions.
  lemma ConflictExplained(s: State, lits: seq<Lit>, conf: seq<Lit>)
    requires Explained(s, VarSet(lits), conf) && Entails(s.f, LitSet(lits))
    requires forall i :: 0 <= i < |lits| ==> lits[i].Not() in s.trail
    ensures Entails(s.f, LitSet(conf))
  {
    forall a: Assignment | Models(a, s.f) ensures SomeHolds(a, LitSet(conf)) {
      var m :| m in LitSet(lits) && Holds(a, m);
      var i :| 0 <= i < |lits| && lits[i] == m;
      var k :| 0 <= k < |s.trail| && s.trail[k] == m.Not();
      assert lits[i].v in VarSet(lits);
      assert Entails(s.f, {s.trail[k]} + LitSet(conf));
      var l :| l in {s.trail[k]} + LitSet(conf) && Holds(a, l);
      assert l in LitSet(conf);
    }
  }

  lemma RootAssumption(s: State, tags: seq<nat>, conf: seq<Lit>, i: nat)
    requires FinalWalk(s, tags, conf, i) && s.Inv() && s.root == |s.lims|
    requires s.trail[i].v < |tags| && tags[s.trail[i].v] != 0 && s.reasons[s.trail[i].v].NoReason?
    ensures FinalWalk(s, tags, conf + [s.trail[i].Not()], i - 1)
  {
    hide Entails, State.TrailOk, State.LimsOk, State.ArenaOk, State.WatchesOk, State.Covered;
    FinalAssumption(s, tags, conf, i);
  }
}
