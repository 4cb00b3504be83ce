// When a variable is worth eliminating, said of the stored clauses alone, and the effect of an
// elimination on their meaning.
module SimpWorth {
  import opened Cnf
  import opened Counting
  import opened SatState
  import opened SimpMerge
  import opened SimpElim
  import opened SimpStore
  import opened SimpReplace

  // The stored clauses that contain l.
  ghost function With(db: Clauses, l: Lit): set<nat> {
    set h | h in db && l in db[h]
  }

  // The pairs of stored clauses that have a resolvent on v.
  ghost function Resolving(db: Clauses, v: nat): set<(nat, nat)> {
    set h, g | h in With(db, Lit(v, false)) && g in With(db, Lit(v, true)) && !Clash(db[h], db[g], v) :: (h, g)
  }

  // The resolvents are no more than the clauses with v and grow, and none of them is too long.
  ghost predicate Worth(db: Clauses, v: nat, grow: int, lim: int) {
    var pairs := Resolving(db, v);
    && (pairs == {} || |pairs| <= |With(db, Lit(v, false))| + |With(db, Lit(v, true))| + grow)
    && forall p :: p in pairs && lim != -1 ==> |Resolvent(db[p.0], db[p.1], v)| <= lim
  }

  // ---- The loops count these pairs ----

  ghost function RowSet(db: Clauses, h: nat, neg: seq<nat>, v: nat, j: nat): set<nat>
    requires h in db && j <= |neg| && forall g :: g in neg ==> g in db
  {
    set g | g in neg[..j] && !Clash(db[h], db[g], v)
  }

  lemma ApartAt(hs: seq<nat>, j: nat)
    requires Apart(hs) && j < |hs|
    ensures hs[j] !in hs[..j] && hs[..j + 1] == hs[..j] + [hs[j]]
  {
  }

  lemma RowStep(db: Clauses, h: nat, neg: seq<nat>, v: nat, j: nat)
    requires h in db && j < |neg| && (forall g :: g in neg ==> g in db) && Apart(neg)
    ensures |RowSet(db, h, neg, v, j + 1)| == |RowSet(db, h, neg, v, j)| + if Clash(db[h], db[neg[j]], v) then 0 else 1
  {
    hide Clash, Apart;
    ApartAt(neg, j);
    var g, was := neg[j], RowSet(db, h, neg, v, j);
    assert RowSet(db, h, neg, v, j + 1) == if Clash(db[h], db[g], v) then was else was + {g};
  }

  lemma {:induction false} RowSize(db: Clauses, h: nat, neg: seq<nat>, v: nat, j: nat)
    requires h in db && j <= |neg| && (forall g :: g in neg ==> g in db) && Apart(neg)
    ensures |RowSet(db, h, neg, v, j)| == Row(db[h], ClausesOf(db, neg), v, j)
  {
    hide Clash, Apart;
    if j == 0 {
      assert RowSet(db, h, neg, v, 0) == {};
    } else {
      RowSize(db, h, neg, v, j - 1);
      RowStep(db, h, neg, v, j - 1);
    }
  }

  ghost function PairSet(db: Clauses, pos: seq<nat>, neg: seq<nat>, v: nat, i: nat): set<(nat, nat)>
    requires i <= |pos| && (forall h :: h in pos ==> h in db) && forall g :: g in neg ==> g in db
  {
    set h, g | h in pos[..i] && g in neg && !Clash(db[h], db[g], v) :: (h, g)
  }

  ghost function Beside(h: nat, gs: set<nat>): set<(nat, nat)> {
    set g | g in gs :: (h, g)
  }

  lemma {:induction false} BesideSize(h: nat, gs: set<nat>)
    ensures |Beside(h, gs)| == |gs|
  {
    if gs == {} {
      assert Beside(h, gs) == {};
    } else {
      var g :| g in gs;
      BesideSize(h, gs - {g});
      assert Beside(h, gs) == Beside(h, gs - {g}) + {(h, g)};
    }
  }

  lemma PairStep(db: Clauses, pos: seq<nat>, neg: seq<nat>, v: nat, i: nat)
    requires i < |pos| && (forall h :: h in pos ==> h in db) && (forall g :: g in neg ==> g in db)
    requires Apart(pos)
    ensures |PairSet(db, pos, neg, v, i + 1)| ==
      |PairSet(db, pos, neg, v, i)| + |RowSet(db, pos[i], neg, v, |neg|)|
  {
    hide Clash, Apart;
    ApartAt(pos, i);
    assert neg[..|neg|] == neg;
    var was, row := PairSet(db, pos, neg, v, i), RowSet(db, pos[i], neg, v, |neg|);
    BesideSize(pos[i], row);
    assert PairSet(db, pos, neg, v, i + 1) == was + Beside(pos[i], row);
    assert was !! Beside(pos[i], row);
  }

  lemma {:induction false} PairSize(db: Clauses, pos: seq<nat>, neg: seq<nat>, v: nat, i: nat)
    requires i <= |pos| && (forall h :: h in pos ==> h in db) && forall g :: g in neg ==> g in db
    requires Apart(pos) && Apart(neg)
    ensures |PairSet(db, pos, neg, v, i)| == Total(ClausesOf(db, pos), ClausesOf(db, neg), v, i)
  {
    hide Clash, Apart;
    if i == 0 {
      assert PairSet(db, pos, neg, v, 0) == {};
    } else {
      PairSize(db, pos, neg, v, i - 1);
      PairStep(db, pos, neg, v, i - 1);
      RowSize(db, pos[i - 1], neg, v, |neg|);
    }
  }

  lemma OneSign(c: Clause, v: nat)
    requires DistinctVars(c)
    ensures !(Lit(v, false) in c && Lit(v, true) in c)
  {
  }

  lemma HasSign(c: Clause, l: Lit)
    requires l in c
    ensures HasVar(c, l.v)
  {
    var j :| 0 <= j < |c| && c[j] == l;
  }

  // The two lists hold the clauses with either literal.
  lemma ListsAll(db: Clauses, v: nat, cls: seq<nat>, pos: seq<nat>, neg: seq<nat>)
    requires Occurring(db, v, cls, pos, neg)
    ensures Members(pos) == With(db, Lit(v, false)) && Members(neg) == With(db, Lit(v, true))
  {
    hide DistinctVars, HasVar;
    forall h | h in db
      ensures Lit(v, false) in db[h] ==> h in pos
      ensures Lit(v, true) in db[h] ==> h in neg
    {
      OneSign(db[h], v);
      if Lit(v, false) in db[h] { HasSign(db[h], Lit(v, false)); }
      if Lit(v, true) in db[h] { HasSign(db[h], Lit(v, true)); }
    }
  }

  lemma ShortAll(db: Clauses, v: nat, pos: seq<nat>, neg: seq<nat>, lim: int)
    requires (forall h :: h in pos ==> h in db) && forall g :: g in neg ==> g in db
    ensures ShortUpTo(ClausesOf(db, pos), ClausesOf(db, neg), v, lim, |pos|) <==>
      forall p :: p in PairSet(db, pos, neg, v, |pos|) && lim != -1 ==> |Resolvent(db[p.0], db[p.1], v)| <= lim
  {
    hide Clash, Resolvent;
    var ps, qs, pairs := ClausesOf(db, pos), ClausesOf(db, neg), PairSet(db, pos, neg, v, |pos|);
    assert pos[..|pos|] == pos;
    if ShortUpTo(ps, qs, v, lim, |pos|) {
      forall p | p in pairs && lim != -1 ensures |Resolvent(db[p.0], db[p.1], v)| <= lim {
        var x :| 0 <= x < |pos| && pos[x] == p.0;
        var y :| 0 <= y < |neg| && neg[y] == p.1;
        assert ShortRow(ps[x], qs, v, lim, |qs|);
      }
    }
    if forall p :: p in pairs && lim != -1 ==> |Resolvent(db[p.0], db[p.1], v)| <= lim {
      forall x, y | 0 <= x < |pos| && 0 <= y < |neg| && !Clash(ps[x], qs[y], v)
        ensures lim == -1 || |Resolvent(ps[x], qs[y], v)| <= lim
      {
        assert (pos[x], neg[y]) in pairs;
      }
    }
  }

  // What the loops have found out is whether v is worth eliminating.
  lemma GrowthWorth(db: Clauses, v: nat, cls: seq<nat>, pos: seq<nat>, neg: seq<nat>, grow: int, lim: int)
    requires Occurring(db, v, cls, pos, neg)
    ensures (forall h :: h in pos ==> h in db) && forall g :: g in neg ==> g in db
    ensures Growth(ClausesOf(db, pos), ClausesOf(db, neg), v, |cls|, grow, lim) <==> Worth(db, v, grow, lim)
  {
    hide Clash, Resolvent, DistinctVars, HasVar, Total, ShortUpTo;
    ListsAll(db, v, cls, pos, neg);
    DistinctSize(pos);
    DistinctSize(neg);
    PairSize(db, pos, neg, v, |pos|);
    ShortAll(db, v, pos, neg, lim);
    assert pos[..|pos|] == pos;
    assert forall h :: h in pos <==> h in Members(pos);
    assert forall g :: g in neg <==> g in Members(neg);
    assert PairSet(db, pos, neg, v, |pos|) == Resolving(db, v);
  }

  // ---- The loop over all variables ----

  // What is stored at one time.
  datatype Turn = Turn(db: Clauses, vals: seq<Value>, eliminated: seq<bool>)

  // One round of the loop: a variable that is neither eliminated, assigned nor frozen is
  // projected away when it is worth it, and otherwise nothing changes.
  ghost predicate TurnOf(s: Turn, t: Turn, v: nat, n: nat, frozen: seq<bool>, grow: int, lim: int) {
    && v < n && |frozen| == |s.eliminated| == |s.vals| == n
    && if !s.eliminated[v] && s.vals[v] == X && !frozen[v] && Worth(s.db, v, grow, lim)
       then t.eliminated == s.eliminated[v := true] && Projected(s.db, s.vals, t.db, t.vals, v)
       else t == s
  }

  // turns are the states before each variable of order, and the state at the end.
  ghost predicate Turned(turns: seq<Turn>, order: seq<nat>, n: nat, frozen: seq<bool>, grow: int, lim: int) {
    && |turns| == |order| + 1
    && forall i :: 0 <= i < |order| ==> TurnOf(turns[i], turns[i + 1], order[i], n, frozen, grow, lim)
  }

  lemma NoTurn(turns: seq<Turn>, n: nat, frozen: seq<bool>, grow: int, lim: int)
    requires |turns| == 1
    ensures Turned(turns, [], n, frozen, grow, lim)
  {
  }

  lemma OneMoreTurn(turns: seq<Turn>, order: seq<nat>, i: nat, t: Turn, n: nat, frozen: seq<bool>, grow: int, lim: int)
    requires i < |order| && Turned(turns, order[..i], n, frozen, grow, lim)
    requires TurnOf(turns[i], t, order[i], n, frozen, grow, lim)
    ensures Turned(turns + [t], order[..i + 1], n, frozen, grow, lim)
  {
  }
}
