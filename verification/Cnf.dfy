// Propositional literals, clauses, assignments and entailment.
module Cnf {
  // The literal x (neg == false) or ~x (neg == true) of variable v.
  datatype Lit = Lit(v: nat, neg: bool) {
    function Not(): Lit { Lit(v, !neg) }
  }

  // The literal as the sources' integer, and back.
  function Code(l: Lit): nat { 2 * l.v + if l.neg then 1 else 0 }

  function LitOf(n: nat): Lit { Lit(n / 2, n % 2 == 1) }

  lemma CodeBack(l: Lit)
    ensures LitOf(Code(l)) == l
  {
  }

  type Clause = seq<Lit>

  type Assignment = nat -> bool

  predicate Holds(a: Assignment, l: Lit) {
    a(l.v) != l.neg
  }

  function LitSet(c: seq<Lit>): set<Lit> {
    set l | l in c
  }

  ghost predicate SomeHolds(a: Assignment, s: set<Lit>) {
    exists l :: l in s && Holds(a, l)
  }

  ghost predicate AllHold(a: Assignment, s: set<Lit>) {
    forall l :: l in s ==> Holds(a, l)
  }

  // a is a model of the clause set f.
  ghost predicate Models(a: Assignment, f: set<Clause>) {
    forall c :: c in f ==> SomeHolds(a, LitSet(c))
  }

  // Every model of f makes some literal of s true.
  ghost predicate Entails(f: set<Clause>, s: set<Lit>) {
    forall a: Assignment :: Models(a, f) ==> SomeHolds(a, s)
  }

  // The clauses f have no model in which all the assumptions hold.
  ghost predicate Refuted(f: set<Clause>, assumptions: set<Lit>) {
    forall a: Assignment :: Models(a, f) ==> !AllHold(a, assumptions)
  }

  predicate DistinctVars(c: seq<Lit>) {
    forall i, j :: 0 <= i < j < |c| ==> c[i].v != c[j].v
  }

  lemma EntailsMore(f: set<Clause>, s: set<Lit>, t: set<Lit>)
    requires Entails(f, s) && s <= t
    ensures Entails(f, t)
  {
    forall a: Assignment | Models(a, f) ensures SomeHolds(a, t) {
      var l :| l in s && Holds(a, l);
      assert l in t;
    }
  }

  lemma EntailsMember(f: set<Clause>, c: Clause)
    requires c in f
    ensures Entails(f, LitSet(c))
  {
  }

  lemma RefutedFails(f: set<Clause>, l: Lit, a: Assignment)
    requires Entails(f, {l.Not()}) && Models(a, f)
    ensures !Holds(a, l)
  {
    assert SomeHolds(a, {l.Not()});
  }

  // Dropping refuted literals from an entailed clause.
  lemma DropRefuted(f: set<Clause>, s: set<Lit>, d: set<Lit>)
    requires Entails(f, s)
    requires forall l :: l in s && l !in d ==> Entails(f, {l.Not()})
    ensures Entails(f, d)
  {
    forall a: Assignment | Models(a, f) ensures SomeHolds(a, d) {
      forall l | l in s && l !in d ensures !Holds(a, l) { RefutedFails(f, l, a); }
      var l :| l in s && Holds(a, l);
    }
  }

  // One resolution step on p, dropping the literals of the second clause that f refutes.
  lemma Resolution(f: set<Clause>, keep: set<Lit>, p: Lit, r: set<Lit>, d: set<Lit>)
    requires Entails(f, keep + {p.Not()})
    requires Entails(f, r)
    requires keep <= d
    requires forall l :: l in r && l != p && l !in d ==> Entails(f, {l.Not()})
    ensures Entails(f, d)
  {
    forall a: Assignment | Models(a, f) ensures SomeHolds(a, d) {
      forall l | l in r && l != p && l !in d ensures !Holds(a, l) { RefutedFails(f, l, a); }
      var l :| l in keep + {p.Not()} && Holds(a, l);
      if l !in keep {
        var m :| m in r && Holds(a, m);
        assert m in d;
      }
    }
  }
}
