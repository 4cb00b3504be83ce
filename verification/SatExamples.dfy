// Three variables and clauses over them, for runs of the solver.
module SatExamples {
  import opened Cnf
  import opened SatState
  import opened SatInput
  import opened SatGrow

  function Pos(v: nat): Lit { Lit(v, false) }
  function Neg(v: nat): Lit { Lit(v, true) }

  // A clause of the variables 0, 1 and 2.
  function Three(i: bool, j: bool, k: bool): Clause { [Lit(0, i), Lit(1, j), Lit(2, k)] }

  function Lists(ws: seq<Watch>): Watches {
    map[Pos(0) := ws, Neg(0) := [], Pos(1) := ws, Neg(1) := [], Pos(2) := [], Neg(2) := []]
  }

  // Three variables and no clauses.
  function Bare(): State {
    State(3, {}, [X, X, X], [0, 0, 0], [NoReason, NoReason, NoReason], [], [], 0, [], map[], {}, Lists([]))
  }

  lemma BareVars(s: State)
    requires s == State(0, {}, [], [], [], [], [], 0, [], map[], {}, map[])
    ensures WithVars(s, 3) == Bare()
  {
    var t := WithVar(WithVar(WithVar(s)));
    assert WithVars(s, 3) == WithVars(WithVar(s), 3) == WithVars(WithVar(WithVar(s)), 3) == t;
    assert t.wl == Lists([]);
  }

  // The literals in the order of their codes.
  lemma OnlyThree(c: seq<Lit>, x: bool, y: bool, z: bool)
    requires DistinctVars(c) && SortedCodes(c) && (forall i :: 0 <= i < |c| ==> c[i] in Three(x, y, z))
    requires forall l :: l in Three(x, y, z) ==> l in c
    ensures c == Three(x, y, z)
  {
    var d := Three(x, y, z);
    Increasing(c);
    forall i | 0 <= i < |c| ensures c[i].v < 3 && c[i] == d[c[i].v] { assert c[i] in d; }
    assert d[0] in c && d[1] in c && d[2] in c;
    hide Three, Increase;
    InOrder(c, d);
  }

  ghost predicate Increase(c: seq<Lit>) {
    forall i, j :: 0 <= i < j < |c| ==> c[i].v < c[j].v
  }

  lemma Increasing(c: seq<Lit>)
    requires DistinctVars(c) && SortedCodes(c)
    ensures Increase(c)
  {
  }

  lemma {:induction false} Ahead(c: seq<Lit>, i: nat)
    requires Increase(c) && i < |c|
    ensures i <= c[i].v
  {
    if i > 0 { Ahead(c, i - 1); }
  }

  lemma InOrder(c: seq<Lit>, d: seq<Lit>)
    requires Increase(c) && |d| == 3 && d[0].v == 0 && d[1].v == 1 && d[2].v == 2
    requires d[0] in c && d[1] in c && d[2] in c
    requires forall i :: 0 <= i < |c| ==> c[i].v < 3 && c[i] == d[c[i].v]
    ensures c == d
  {
    var i :| 0 <= i < |c| && c[i] == d[0];
    var j :| 0 <= j < |c| && c[j] == d[1];
    var k :| 0 <= k < |c| && c[k] == d[2];
    assert i < j < k;
    Ahead(c, i);
    Ahead(c, j);
    Ahead(c, k);
    Ahead(c, |c| - 1);
  }
}
