// What variable elimination keeps in order to extend a model: clauses of eliminated variables,
// written one behind the other, and the backward scan over them.
module SimpRecords {
  import opened Cnf
  import opened SatState

  // a with literal l made true.
  function Set(a: Assignment, l: Lit): Assignment {
    (v: nat) => if v == l.v then !l.neg else a(v)
  }

  predicate RestHolds(a: Assignment, r: Clause) {
    exists i :: 1 <= i < |r| && Holds(a, r[i])
  }

  // One record: when its other literals are false the first one is made true.
  function Fix(a: Assignment, r: Clause): Assignment
    requires r != []
  {
    if RestHolds(a, r) then a else Set(a, r[0])
  }

  // The records, the newest first.
  function Extend(rs: seq<Clause>, a: Assignment): Assignment
    requires forall k :: 0 <= k < |rs| ==> rs[k] != []
  {
    if rs == [] then a else Extend(rs[..|rs| - 1], Fix(a, rs[|rs| - 1]))
  }

  // ---- The record vector ----

  function Codes(r: Clause): (c: seq<nat>)
    ensures |c| == |r| && forall i :: 0 <= i < |r| ==> c[i] == Code(r[i])
  {
    seq(|r|, i requires 0 <= i < |r| => Code(r[i]))
  }

  // elimclauses: the literals of each record, then their number.
  function Flat(rs: seq<Clause>): seq<nat> {
    if rs == [] then [] else Flat(rs[..|rs| - 1]) + Codes(rs[|rs| - 1]) + [|rs[|rs| - 1]|]
  }

  lemma FlatMore(rs: seq<Clause>, r: Clause)
    ensures Flat(rs + [r]) == Flat(rs) + Codes(r) + [|r|]
  {
    assert (rs + [r])[..|rs|] == rs;
  }

  lemma FlatPrefix(rs: seq<Clause>, k: nat)
    requires 0 < k <= |rs|
    ensures Flat(rs[..k]) == Flat(rs[..k - 1]) + Codes(rs[k - 1]) + [|rs[k - 1]|]
  {
    assert rs[..k][..k - 1] == rs[..k - 1];
  }

  lemma ExtendPrefix(rs: seq<Clause>, k: nat, a: Assignment)
    requires 0 < k <= |rs| && forall i :: 0 <= i < |rs| ==> rs[i] != []
    ensures Extend(rs[..k], a) == Extend(rs[..k - 1], Fix(a, rs[k - 1]))
  {
    assert rs[..k][..k - 1] == rs[..k - 1];
  }

  // The scan of two vectors, one behind the other.
  lemma {:induction false} ExtendAppend(rs: seq<Clause>, ts: seq<Clause>, a: Assignment)
    requires (forall i :: 0 <= i < |rs| ==> rs[i] != []) && forall i :: 0 <= i < |ts| ==> ts[i] != []
    ensures Extend(rs + ts, a) == Extend(rs, Extend(ts, a))
    decreases |ts|
  {
    if ts == [] {
      assert rs + ts == rs;
    } else {
      var m := |ts| - 1;
      assert (rs + ts)[..|rs| + m] == rs + ts[..m];
      ExtendAppend(rs, ts[..m], Fix(a, ts[m]));
    }
  }

  // Only the first variables of the records change.
  lemma {:induction false} ExtendElsewhere(rs: seq<Clause>, a: Assignment, v: nat)
    requires forall k :: 0 <= k < |rs| ==> rs[k] != [] && rs[k][0].v != v
    ensures Extend(rs, a)(v) == a(v)
  {
    if rs != [] { ExtendElsewhere(rs[..|rs| - 1], Fix(a, rs[|rs| - 1]), v); }
  }

  // ---- The scan on a model ----

  // The variables that follow the first one in a record have not been eliminated before.
  ghost predicate Layered(rs: seq<Clause>, n: nat) {
    && (forall k :: 0 <= k < |rs| ==> rs[k] != [] && forall i :: 0 <= i < |rs[k]| ==> rs[k][i].v < n)
    && (forall k, m, i :: 0 <= m <= k < |rs| && 1 <= i < |rs[k]| ==> rs[k][i].v != rs[m][0].v)
  }

  function ModelValue(model: seq<Value>, l: Lit): Value
    requires l.v < |model|
  {
    if model[l.v] == X then X else if (model[l.v] == One) != l.neg then One else Zero
  }

  function ModelAssignment(model: seq<Value>): Assignment {
    (v: nat) => v < |model| && model[v] == One
  }

  // Record m is the default of variable v.
  ghost predicate Default(rs: seq<Clause>, m: nat, v: nat) {
    m < |rs| && |rs[m]| == 1 && rs[m][0].v == v
  }

  ghost predicate HasDefault(rs: seq<Clause>, k: nat, v: nat) {
    exists m: nat :: m < k && Default(rs, m, v)
  }

  // What is undefined still has its default among the first k records.
  ghost predicate DefinedBut(model: seq<Value>, rs: seq<Clause>, k: nat) {
    k <= |rs| && forall v: nat :: v < |model| && model[v] == X ==> HasDefault(rs, k, v)
  }

  lemma RecordDefined(model: seq<Value>, rs: seq<Clause>, k: nat, i: nat)
    requires Layered(rs, |model|) && 0 < k <= |rs| && DefinedBut(model, rs, k) && 1 <= i < |rs[k - 1]|
    ensures rs[k - 1][i].v < |model| && model[rs[k - 1][i].v] != X
    ensures ModelValue(model, rs[k - 1][i]) != Zero <==> Holds(ModelAssignment(model), rs[k - 1][i])
  {
    var v := rs[k - 1][i].v;
    forall m: nat | m < k ensures !Default(rs, m, v) { assert rs[k - 1][i].v != rs[m][0].v; }
  }

  // The model after record k - 1 has been handled.
  lemma RecordFixed(model: seq<Value>, rs: seq<Clause>, k: nat)
    requires Layered(rs, |model|) && 0 < k <= |rs| && DefinedBut(model, rs, k)
    requires !RestHolds(ModelAssignment(model), rs[k - 1])
    ensures var x := rs[k - 1][0]; var t := model[x.v := if x.neg then Zero else One];
      DefinedBut(t, rs, k - 1) && SameValues(ModelAssignment(t), Fix(ModelAssignment(model), rs[k - 1]))
  {
    hide RestHolds;
    var x := rs[k - 1][0];
    var t := model[x.v := if x.neg then Zero else One];
    forall v: nat | v < |t| && t[v] == X ensures HasDefault(rs, k - 1, v) {
      var m: nat :| m < k && Default(rs, m, v);
      assert m != k - 1;
    }
  }

  ghost predicate SameValues(a: Assignment, b: Assignment) {
    forall v: nat :: a(v) == b(v)
  }

  lemma {:induction false} ExtendSame(rs: seq<Clause>, a: Assignment, b: Assignment)
    requires (forall k :: 0 <= k < |rs| ==> rs[k] != []) && SameValues(a, b)
    ensures SameValues(Extend(rs, a), Extend(rs, b))
  {
    if rs != [] {
      var r := rs[|rs| - 1];
      assert forall i :: 0 <= i < |r| ==> Holds(a, r[i]) == Holds(b, r[i]);
      ExtendSame(rs[..|rs| - 1], Fix(a, r), Fix(b, r));
    }
  }

  lemma RecordKept(model: seq<Value>, rs: seq<Clause>, k: nat)
    requires Layered(rs, |model|) && 0 < k <= |rs| && DefinedBut(model, rs, k)
    requires RestHolds(ModelAssignment(model), rs[k - 1])
    ensures DefinedBut(model, rs, k - 1)
  {
    forall v: nat | v < |model| && model[v] == X ensures HasDefault(rs, k - 1, v) {
      var m: nat :| m < k && Default(rs, m, v);
      assert m != k - 1;
    }
  }

  // The record at the end of the vector up to i.
  lemma LastRecord(elim: seq<nat>, rs: seq<Clause>, k: nat, i: int)
    requires k <= |rs| && -1 <= i < |elim| && elim[..i + 1] == Flat(rs[..k])
    requires forall m :: 0 <= m < |rs| ==> rs[m] != []
    ensures i > 0 <==> k > 0
    ensures k > 0 ==> var r := rs[k - 1];
      && elim[i] == |r| && i >= |r| && elim[..i - |r|] == Flat(rs[..k - 1])
      && elim[i - |r|..i] == Codes(r)
    ensures k == 0 ==> i == -1
  {
    if k > 0 {
      FlatPrefix(rs, k);
      var r, f := rs[k - 1], Flat(rs[..k - 1]);
      assert |f| + |r| == i;
      assert elim[..i + 1][..|f|] == f && elim[..i + 1][i] == |r|;
      assert elim[i - |r|..i] == elim[..i + 1][|f|..|f| + |r|] == Codes(r);
    }
  }

  // extendModel: from the end of the vector to its start.
  method ExtendModel(elim: seq<nat>, model: seq<Value>, ghost rs: seq<Clause>) returns (r: seq<Value>)
    requires elim == Flat(rs) && Layered(rs, |model|) && DefinedBut(model, rs, |rs|)
    ensures |r| == |model| && (forall v :: 0 <= v < |r| ==> r[v] != X)
    ensures SameValues(ModelAssignment(r), Extend(rs, ModelAssignment(model)))
  {
    hide Layered, DefinedBut, SameValues, Flat, Extend, Fix, RestHolds;
    r := model;
    var i := |elim| - 1;
    ScanStart(elim, rs, model);
    ghost var k: nat, a := |rs|, Extend(rs, ModelAssignment(model));
    while i > 0
      invariant k <= |rs| && -1 <= i < |elim| && elim[..i + 1] == Flat(rs[..k]) && |r| == |model|
      invariant DefinedBut(r, rs, k)
      invariant (forall m :: 0 <= m < |rs| ==> rs[m] != []) && SameValues(Extend(rs[..k], ModelAssignment(r)), a)
      decreases k
    {
      LastRecord(elim, rs, k, i);
      var j := elim[i];
      var end := i;
      i := i - 1;
      var other := RestTrue(elim, r, rs, k, i, j);
      if !other {
        var x := LitOf(elim[end - j]);
        CodeBack(rs[k - 1][0]);
        ScanFix(r, rs, k, a);
        r := r[x.v := if x.neg then Zero else One];
      } else {
        ScanKeep(r, rs, k, a);
      }
      i := end - j - 1;
      k := k - 1;
    }
    LastRecord(elim, rs, k, i);
    ScanEnd(r, rs, a);
  }

  lemma ScanStart(elim: seq<nat>, rs: seq<Clause>, model: seq<Value>)
    requires elim == Flat(rs) && Layered(rs, |model|)
    ensures elim[..|elim|] == Flat(rs[..|rs|]) && (forall m :: 0 <= m < |rs| ==> rs[m] != [])
    ensures SameValues(Extend(rs[..|rs|], ModelAssignment(model)), Extend(rs, ModelAssignment(model)))
  {
    assert rs[..|rs|] == rs && elim[..|elim|] == elim;
  }

  lemma ScanFix(r: seq<Value>, rs: seq<Clause>, k: nat, a: Assignment)
    requires Layered(rs, |r|) && 0 < k <= |rs| && DefinedBut(r, rs, k) && !RestHolds(ModelAssignment(r), rs[k - 1])
    requires (forall m :: 0 <= m < |rs| ==> rs[m] != []) && SameValues(Extend(rs[..k], ModelAssignment(r)), a)
    ensures var x := rs[k - 1][0]; x.v < |r| && var t := r[x.v := if x.neg then Zero else One];
      DefinedBut(t, rs, k - 1) && SameValues(Extend(rs[..k - 1], ModelAssignment(t)), a)
  {
    hide Extend, Fix, DefinedBut;
    RecordFixed(r, rs, k);
    ExtendPrefix(rs, k, ModelAssignment(r));
    var x := rs[k - 1][0];
    ExtendSame(rs[..k - 1], ModelAssignment(r[x.v := if x.neg then Zero else One]), Fix(ModelAssignment(r), rs[k - 1]));
  }

  lemma ScanKeep(r: seq<Value>, rs: seq<Clause>, k: nat, a: Assignment)
    requires Layered(rs, |r|) && 0 < k <= |rs| && DefinedBut(r, rs, k) && RestHolds(ModelAssignment(r), rs[k - 1])
    requires (forall m :: 0 <= m < |rs| ==> rs[m] != []) && SameValues(Extend(rs[..k], ModelAssignment(r)), a)
    ensures DefinedBut(r, rs, k - 1) && SameValues(Extend(rs[..k - 1], ModelAssignment(r)), a)
  {
    RecordKept(r, rs, k);
    ExtendPrefix(rs, k, ModelAssignment(r));
  }

  lemma ScanEnd(r: seq<Value>, rs: seq<Clause>, a: Assignment)
    requires DefinedBut(r, rs, 0) && SameValues(Extend(rs[..0], ModelAssignment(r)), a)
    ensures (forall v :: 0 <= v < |r| ==> r[v] != X) && SameValues(ModelAssignment(r), a)
  {
  }

  // The inner loop: from the last literal of the record down to the second.
  method RestTrue(elim: seq<nat>, model: seq<Value>, ghost rs: seq<Clause>, ghost k: nat, i: int, size: nat)
    returns (yes: bool)
    requires Layered(rs, |model|) && 0 < k <= |rs| && DefinedBut(model, rs, k) && size == |rs[k - 1]|
    requires size <= i + 1 < |elim|
    requires elim[i + 1 - size..i + 1] == Codes(rs[k - 1])
    ensures yes <==> RestHolds(ModelAssignment(model), rs[k - 1])
  {
    hide Layered, DefinedBut, ModelAssignment;
    ghost var r := rs[k - 1];
    var j: nat, p := size, i;
    while j > 1
      invariant 0 <= j <= size && p == i - (size - j)
      invariant forall m :: j <= m < size && 1 <= m ==> !Holds(ModelAssignment(model), r[m])
    {
      RecordDefined(model, rs, k, j - 1);
      CodeBack(r[j - 1]);
      assert elim[i + 1 - size..i + 1][j - 1] == elim[p];
      if ModelValue(model, LitOf(elim[p])) != Zero {
        return true;
      }
      j, p := j - 1, p - 1;
    }
    yes := false;
  }
}
