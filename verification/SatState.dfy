// The solver state as a value, and the invariants that the solver's operations keep.
// The class SatSolver holds the same components in fields and ties them to this type.
module SatState {
  import opened Cnf

  // var1, var0 and varX of the source.
  datatype Value = One | Zero | X

  // Why a literal is on the trail: no reason, the other literal of a binary clause
  // (the true literal whose watch list was visited), or a stored clause.
  datatype Reason = NoReason | BinReason(q: Lit) | ClauseReason(h: nat)

  // A watch list entry: the other literal of a binary clause or a clause handle.
  datatype Watch = BinWatch(q: Lit) | ClauseWatch(h: nat)

  type Arena = map<nat, seq<Lit>>
  type Watches = map<Lit, seq<Watch>>

  function ValueOf(l: Lit): Value { if l.neg then Zero else One }

  ghost predicate DistinctClauses(ws: seq<Watch>) {
    forall i, j :: 0 <= i < j < |ws| && ws[i].ClauseWatch? ==> ws[i] != ws[j]
  }

  // Both watched literals of c are false under the literals of t.
  predicate BothFalse(c: seq<Lit>, t: seq<Lit>)
    requires |c| >= 2
  {
    c[0].Not() in t && c[1].Not() in t
  }

  datatype State = State(
    n: nat,                 // number of variables
    f: set<Clause>,         // the problem clauses given so far
    assigns: seq<Value>,
    levels: seq<nat>,
    reasons: seq<Reason>,
    trail: seq<Lit>,
    lims: seq<nat>,         // trail_lim
    root: nat,              // root_level
    assumed: seq<Lit>,      // the literals pushed as assumptions, oldest first
    arena: Arena,
    learnts: set<nat>,      // handles of the learnt clauses
    wl: Watches)
  {
    predicate IsTrue(l: Lit) {
      l.v < |assigns| && assigns[l.v] == ValueOf(l)
    }

    predicate IsFalse(l: Lit) {
      l.v < |assigns| && assigns[l.v] == ValueOf(l.Not())
    }

    predicate Unassigned(l: Lit) {
      l.v < |assigns| && assigns[l.v] == X
    }

    // The literals that hold at level 0 without a reason: unit clauses, given or learnt.
    ghost function Units(): set<Lit> {
      set l | l in trail && l.v < |levels| && l.v < |reasons| && levels[l.v] == 0 && reasons[l.v].NoReason?
    }

    // The end of the trail segment of levels 0 to j.
    function SegEnd(j: nat): nat {
      if j < |lims| then lims[j] else |trail|
    }

    ghost predicate TrailOk() {
      && |assigns| == |levels| == |reasons| == n
      && (forall k :: 0 <= k < |trail| ==> trail[k].v < n && assigns[trail[k].v] == ValueOf(trail[k]))
      && (forall i, k :: 0 <= i < k < |trail| ==> trail[i].v != trail[k].v)
      && (forall v :: 0 <= v < n && assigns[v] != X ==> Lit(v, assigns[v] == Zero) in trail)
    }

    ghost predicate LimsOk() {
      && (forall i, j :: 0 <= i < j < |lims| ==> lims[i] <= lims[j])
      && (forall i :: 0 <= i < |lims| ==> lims[i] <= |trail|)
      && root <= |lims| && |assumed| == root
      && (forall j :: root <= j < |lims| ==> lims[j] < |trail|)
      && (forall i, j :: root <= i < j < |lims| ==> lims[i] < lims[j])
    }

    // Position k lies in the trail segment of level lv, or its literal has level 0
    // because the clauses alone imply it.
    ghost predicate LevelAt(k: nat)
      requires k < |trail| && trail[k].v < |levels|
    {
      var lv := levels[trail[k].v];
      if lv == 0 then Entails(f, {trail[k]}) && k < SegEnd(root)
      else lv <= |lims| && lims[lv - 1] <= k < SegEnd(lv)
    }

    ghost predicate LevelsOk() {
      forall k :: 0 <= k < |trail| ==> trail[k].v < |levels| && LevelAt(k)
    }

    ghost predicate ReasonAt(k: nat)
      requires k < |trail| && trail[k].v < |levels| == |reasons|
    {
      var l := trail[k];
      var lv := levels[l.v];
      match reasons[l.v]
      case NoReason =>
        lv == 0 || (lv <= |lims| && lims[lv - 1] == k && (lv <= root ==> lv <= |assumed| && assumed[lv - 1] == l))
      case BinReason(q) =>
        q in trail[..k] && q.v < |levels| && Entails(f, {l, q.Not()}) && (levels[q.v] == 0 || levels[q.v] == lv)
      case ClauseReason(h) =>
        h in arena && |arena[h]| >= 2 && arena[h][0] == l &&
        forall i :: 1 <= i < |arena[h]| ==> arena[h][i].Not() in trail[..k]
    }

    ghost predicate ReasonsOk() {
      && |reasons| == |levels|
      && (forall k :: 0 <= k < |trail| ==> trail[k].v < |levels| && ReasonAt(k))
      && (forall j :: root <= j < |lims| ==> lims[j] < |trail| && reasons[trail[lims[j]].v].NoReason?)
    }

    ghost predicate ArenaOk() {
      && learnts <= arena.Keys
      && forall h :: h in arena ==> ClauseOk(arena[h]) && (h !in learnts ==> |arena[h]| >= 3)
    }

    ghost predicate ClauseOk(c: seq<Lit>) {
      |c| >= 2 && DistinctVars(c) && (forall i :: 0 <= i < |c| ==> c[i].v < n) && Entails(f, LitSet(c))
    }

    // Which watch lists hold which entries.
    ghost predicate WatchesOk() {
      && (forall l: Lit :: l.v < n <==> l in wl)
      && (forall l, i :: l in wl && 0 <= i < |wl[l]| ==> EntryOk(l, wl[l][i]))
      && (forall l :: l in wl ==> DistinctClauses(wl[l]))
      && (forall h :: h in arena && |arena[h]| >= 3 ==> Watched(h))
      && (forall h :: h in arena && |arena[h]| == 2 ==> Paired(h))
    }

    ghost predicate EntryOk(l: Lit, w: Watch) {
      match w
      case BinWatch(q) =>
        q.v < n && q.v != l.v && Entails(f, {l.Not(), q}) && q.Not() in wl && BinWatch(l.Not()) in wl[q.Not()]
      case ClauseWatch(h) =>
        h in arena && |arena[h]| >= 3 && (arena[h][0] == l.Not() || arena[h][1] == l.Not())
    }

    ghost predicate Watched(h: nat)
      requires h in arena && |arena[h]| >= 2
    {
      && arena[h][0].Not() in wl && ClauseWatch(h) in wl[arena[h][0].Not()]
      && arena[h][1].Not() in wl && ClauseWatch(h) in wl[arena[h][1].Not()]
    }

    // A learnt clause of two literals is in the list of its second one.
    ghost predicate Paired(h: nat)
      requires h in arena && |arena[h]| >= 2
    {
      arena[h][1].Not() in wl && BinWatch(arena[h][0]) in wl[arena[h][1].Not()]
    }

    // No clause has both its watched literals false under t.
    ghost predicate NoneFalse(t: seq<Lit>) {
      && (forall h :: h in arena && |arena[h]| >= 3 ==> !BothFalse(arena[h], t))
      && (forall l, q :: l in wl && BinWatch(q) in wl[l] ==> !(l in t && q.Not() in t))
    }

    // What remains when the level is cut makes no clause false.
    ghost predicate SafeCut(level: nat) {
      level < |lims| && lims[level] <= |trail| && NoneFalse(trail[..lims[level]])
    }

    // The literals of t have nothing to visit.
    ghost predicate Unwatched(t: seq<Lit>) {
      forall l :: l in t && l in wl ==> wl[l] == []
    }

    // Nothing is left to visit from position q on.
    ghost predicate Idle(q: nat) {
      q <= |trail| && Unwatched(trail[q..])
    }

    // A literal of the entry's clause is in u: the other one of a binary clause, or a watched one.
    ghost predicate Held(w: Watch, u: seq<Lit>) {
      match w
      case BinWatch(q) => q in u
      case ClauseWatch(h) => h in arena && |arena[h]| >= 2 && (arena[h][0] in u || arena[h][1] in u)
    }

    // Every clause with a watched literal that t makes false has a watched literal in u.
    ghost predicate Settled(t: seq<Lit>, u: seq<Lit>) {
      forall l, i :: l in t && l in wl && 0 <= i < |wl[l]| ==> Held(wl[l][i], u)
    }

    // No clause is false because of the literals from position lo to position q.
    ghost predicate ClearFrom(lo: nat, q: nat) {
      lo <= q <= |trail| && NoneFalse(trail[lo..q])
    }

    // The lists of the first q literals have been visited.
    ghost predicate SettledTo(q: nat) {
      q <= |trail| && Settled(trail[..q], trail)
    }

    // The first m literals of the trail are closed under propagation.
    ghost predicate Closed(m: nat) {
      m <= |trail| && Settled(trail[..m], trail[..m])
    }

    // The clause that forced the literal at position k has its second literal false before position e.
    ghost predicate ForcedBefore(k: nat, e: nat)
      requires k < |trail| && e <= |trail|
    {
      && trail[k].v < |reasons| && reasons[trail[k].v].ClauseReason?
      && var h := reasons[trail[k].v].h; h in arena && |arena[h]| >= 2 && arena[h][1].Not() in trail[..e]
    }

    // Such a literal comes only after position e.
    ghost predicate Overdue(e: nat) {
      e <= |trail| && exists k :: e <= k < |trail| && ForcedBefore(k, e)
    }

    // Every problem clause is still represented.
    ghost predicate Covered() {
      forall c :: c in f ==> CoveredClause(c)
    }

    ghost predicate CoveredClause(c: Clause) {
      || (exists l :: l in c && l in trail[..if 0 < |lims| && lims[0] <= |trail| then lims[0] else |trail|])
      || (exists h :: h in arena && h !in learnts && LitSet(arena[h]) <= LitSet(c))
      || (exists x: Lit, y :: x in c && y in c && x.Not() in wl && BinWatch(y) in wl[x.Not()])
      || (exists x :: x in c && x.Not() in c)
    }

    ghost predicate AssumedOk(m: nat) {
      m <= |assumed| && forall i :: 0 <= i < m ==>
      assumed[i] in trail[..if SegEnd(i + 1) <= |trail| then SegEnd(i + 1) else |trail|]
    }

    // Literals not yet visited by propagation are at level 0 or at the current level.
    ghost predicate QueueOk(qhead: nat) {
      qhead <= |trail| &&
      forall k :: qhead <= k < |trail| ==>
          trail[k].v < |levels| && (levels[trail[k].v] == 0 || levels[trail[k].v] == |lims|)
    }

    ghost predicate Base() {
      TrailOk() && LimsOk() && LevelsOk() && ReasonsOk() && ArenaOk() && WatchesOk()
    }

    ghost predicate Inv() {
      Base() && Covered()
    }
  }
}
