// The resolvent of two clauses on a variable.
module SimpMerge {
  import opened Cnf

  // p has variable l.v.
  predicate HasVar(p: Clause, v: nat) {
    exists j :: 0 <= j < |p| && p[j].v == v
  }

  // Apart from variable v the clauses contain a literal and its negation.
  ghost predicate Clash(p: Clause, q: Clause, v: nat) {
    exists l: Lit :: l in p && l.Not() in q && l.v != v
  }

  // The first i literals of q whose variables are neither v nor in p.
  function Extra(q: Clause, p: Clause, v: nat, i: nat): (r: Clause)
    requires i <= |q|
    ensures |r| <= i && forall l :: l in r <==> l in q[..i] && l.v != v && !HasVar(p, l.v)
  {
    if i == 0 then []
    else
      assert q[..i] == q[..i - 1] + [q[i - 1]];
      if q[i - 1].v != v && !HasVar(p, q[i - 1].v) then Extra(q, p, v, i - 1) + [q[i - 1]] else Extra(q, p, v, i - 1)
  }

  // The first i literals of p without v.
  function Without(p: Clause, v: nat, i: nat): (r: Clause)
    requires i <= |p|
    ensures |r| <= i && forall l :: l in r <==> l in p[..i] && l.v != v
  {
    if i == 0 then []
    else
      assert p[..i] == p[..i - 1] + [p[i - 1]];
      if p[i - 1].v != v then Without(p, v, i - 1) + [p[i - 1]] else Without(p, v, i - 1)
  }

  // The resolvent: the new literals of the shorter clause, then the longer one without v.
  function Resolvent(p: Clause, q: Clause, v: nat): Clause {
    var ps, qs := if |p| < |q| then q else p, if |p| < |q| then p else q;
    Extra(qs, ps, v, |qs|) + Without(ps, v, |ps|)
  }

  // What the loop knows of literal i of qs: 0 new, 1 already in ps, 2 clashing.
  method FindVar(ps: Clause, l: Lit) returns (found: nat)
    requires DistinctVars(ps)
    ensures found <= 2 && (found == 0 <==> !HasVar(ps, l.v)) && (found == 1 <==> l in ps)
    ensures found == 2 <==> l.Not() in ps
  {
    for j := 0 to |ps|
      invariant forall m :: 0 <= m < j ==> ps[m].v != l.v
    {
      if ps[j].v == l.v {
        assert forall m :: 0 <= m < |ps| && m != j ==> ps[m].v != l.v;
        return if ps[j] == l.Not() then 2 else 1;
      }
    }
    found := 0;
  }

  // The first i literals of qs do not clash with ps.
  ghost predicate Unclashed(qs: Clause, ps: Clause, v: nat, i: nat) {
    i <= |qs| && forall m :: 0 <= m < i && qs[m].v != v ==> qs[m].Not() !in ps
  }

  // The state of either merge after literal i of the shorter clause qs.
  lemma NextLiteral(p: Clause, q: Clause, ps: Clause, qs: Clause, v: nat, i: nat)
    requires ((ps == p && qs == q) || (ps == q && qs == p)) && i < |qs| && Unclashed(qs, ps, v, i)
    ensures qs[i].v != v && qs[i].Not() in ps ==> Clash(p, q, v)
    ensures qs[i].v == v || qs[i].Not() !in ps ==> Unclashed(qs, ps, v, i + 1)
    ensures Extra(qs, ps, v, i + 1) == Extra(qs, ps, v, i) + if qs[i].v != v &&
      !HasVar(ps, qs[i].v) then [qs[i]] else []
  {
    hide HasVar;
    assert qs[i].Not().Not() == qs[i] && qs[i] in qs;
  }

  lemma MergeStart(qs: Clause, ps: Clause, v: nat)
    ensures Unclashed(qs, ps, v, 0) && Extra(qs, ps, v, 0) == [] && Without(ps, v, 0) == []
  {
  }

  lemma WithoutStep(p: Clause, v: nat, i: nat)
    requires i < |p|
    ensures Without(p, v, i + 1) == Without(p, v, i) + if p[i].v != v then [p[i]] else []
  {
  }

  lemma NoClash(p: Clause, q: Clause, ps: Clause, qs: Clause, v: nat)
    requires ((ps == p && qs == q) || (ps == q && qs == p)) && Unclashed(qs, ps, v, |qs|)
    ensures !Clash(p, q, v)
  {
    forall l: Lit | l in p && l.v != v ensures l.Not() !in q {
      assert l.Not().Not() == l;
    }
  }

  // merge with the resolvent as its result; false when it would always hold.
  method Merge(p: Clause, q: Clause, v: nat) returns (ok: bool, out: Clause)
    requires DistinctVars(p) && DistinctVars(q)
    ensures ok <==> !Clash(p, q, v)
    ensures ok ==> out == Resolvent(p, q, v)
  {
    hide Clash, Unclashed, Extra, Without, HasVar, DistinctVars;
    var ps, qs := if |p| < |q| then q else p, if |p| < |q| then p else q;
    out := [];
    MergeStart(qs, ps, v);
    for i := 0 to |qs|
      invariant out == Extra(qs, ps, v, i) && Unclashed(qs, ps, v, i)
    {
      NextLiteral(p, q, ps, qs, v, i);
      if qs[i].v != v {
        var found := FindVar(ps, qs[i]);
        if found == 2 {
          return false, out;
        } else if found == 0 {
          out := out + [qs[i]];
        }
      }
    }
    NoClash(p, q, ps, qs, v);
    for i := 0 to |ps|
      invariant out == Extra(qs, ps, v, |qs|) + Without(ps, v, i)
    {
      WithoutStep(ps, v, i);
      if ps[i].v != v {
        out := out + [ps[i]];
      }
    }
    ok := true;
  }

  // merge with only the size as its result.
  method MergeSize(p: Clause, q: Clause, v: nat) returns (ok: bool, size: nat)
    requires DistinctVars(p) && DistinctVars(q) && HasVar(p, v) && HasVar(q, v)
    ensures ok <==> !Clash(p, q, v)
    ensures ok ==> size == |Resolvent(p, q, v)|
  {
    hide Clash, Unclashed, Extra, Without, HasVar, DistinctVars;
    var ps, qs := if |p| < |q| then q else p, if |p| < |q| then p else q;
    WithoutSize(ps, v);
    MergeStart(qs, ps, v);
    size := |ps| - 1;
    for i := 0 to |qs|
      invariant size == |ps| - 1 + |Extra(qs, ps, v, i)| && Unclashed(qs, ps, v, i)
    {
      NextLiteral(p, q, ps, qs, v, i);
      if qs[i].v != v {
        var found := FindVar(ps, qs[i]);
        if found == 2 {
          return false, size;
        } else if found == 0 {
          size := size + 1;
        }
      }
    }
    NoClash(p, q, ps, qs, v);
    ok := true;
  }

  lemma WithoutSize(p: Clause, v: nat)
    requires DistinctVars(p) && HasVar(p, v)
    ensures |p| > 0 && |Without(p, v, |p|)| == |p| - 1
  {
    var k :| 0 <= k < |p| && p[k].v == v;
    WithoutUpTo(p, v, k, |p|);
  }

  lemma {:induction false} WithoutUpTo(p: Clause, v: nat, k: nat, i: nat)
    requires k < |p| && p[k].v == v && i <= |p| && forall m :: 0 <= m < |p| && m != k ==> p[m].v != v
    ensures |Without(p, v, i)| == if i <= k then i else i - 1
  {
    if i > 0 { WithoutUpTo(p, v, k, i - 1); }
  }

  // ---- What the resolvent means ----

  lemma ResolventLits(p: Clause, q: Clause, v: nat)
    requires !Clash(p, q, v)
    ensures forall l :: l in Resolvent(p, q, v) <==> l.v != v && (l in p || l in q)
  {
    var ps, qs := if |p| < |q| then q else p, if |p| < |q| then p else q;
    assert ps[..|ps|] == ps && qs[..|qs|] == qs;
    forall l: Lit ensures l in Resolvent(p, q, v) <==> l.v != v && (l in p || l in q) {
      if l in qs && l.v != v && HasVar(ps, l.v) {
        var j :| 0 <= j < |ps| && ps[j].v == l.v;
        SameVar(ps[j], l);
      }
    }
  }

  lemma SameVar(x: Lit, l: Lit)
    requires x.v == l.v
    ensures (x == l || x == l.Not()) && l.Not().Not() == l
  {
  }

  // Some literal other than those of variable v holds.
  ghost predicate OthersHold(a: Assignment, p: Clause, v: nat) {
    exists l: Lit :: l in p && l.v != v && Holds(a, l)
  }

  // Resolution is sound, and a resolvent is what is left when v is chosen well: for every two
  // clauses, one with v and one with ~v, other literals of one of them hold.
  lemma ResolventHolds(a: Assignment, p: Clause, q: Clause, v: nat)
    requires !Clash(p, q, v)
    ensures SomeHolds(a, LitSet(Resolvent(p, q, v))) <==> OthersHold(a, p, v) || OthersHold(a, q, v)
  {
    ResolventLits(p, q, v);
    var r := Resolvent(p, q, v);
    if SomeHolds(a, LitSet(r)) {
      var l :| l in LitSet(r) && Holds(a, l);
      assert l in r;
    }
    if l: Lit :| l in p && l.v != v && Holds(a, l) { assert l in LitSet(r); }
    if l: Lit :| l in q && l.v != v && Holds(a, l) { assert l in LitSet(r); }
  }

  lemma ClashHolds(a: Assignment, p: Clause, q: Clause, v: nat)
    requires Clash(p, q, v)
    ensures OthersHold(a, p, v) || OthersHold(a, q, v)
  {
    var l: Lit :| l in p && l.Not() in q && l.v != v;
    if !Holds(a, l) { assert Holds(a, l.Not()); }
  }
}
