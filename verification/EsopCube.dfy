// Multi-output product cubes, their exclusive or, and the distance between them.
module EsopCube {

  // Literal codes: 1 negative, 2 positive, 3 absent. An output part tells which outputs the
  // cube belongs to.
  datatype Prod = Prod(lits: seq<nat>, outs: seq<bool>)

  type Input = nat -> bool

  predicate Good(p: Prod, nv: nat, no: nat) {
    |p.lits| == nv && |p.outs| == no && true in p.outs && forall i :: 0 <= i < nv ==> 1 <= p.lits[i] <= 3
  }

  predicate LitVal(code: nat, b: bool) {
    code == 3 || (code == 1 && !b) || (code == 2 && b)
  }

  ghost predicate Product(lits: seq<nat>, x: Input) {
    forall i :: 0 <= i < |lits| ==> LitVal(lits[i], x(i))
  }

  // The value of the cube for output o at x.
  ghost predicate Value(p: Prod, o: nat, x: Input) {
    o < |p.outs| && p.outs[o] && Product(p.lits, x)
  }

  // The cubes at the handles hs add up to this value.
  ghost function Sum(data: seq<Prod>, hs: seq<nat>, o: nat, x: Input): bool
    requires forall i :: 0 <= i < |hs| ==> hs[i] < |data|
  {
    if hs == [] then false else Value(data[hs[0]], o, x) != Sum(data, hs[1..], o, x)
  }

  // The bitwise exclusive or of two literal codes.
  function ExorCode(a: nat, b: nat): nat {
    if a == b then 0
    else if a == 0 then b
    else if b == 0 then a
    else if a <= 3 && b <= 3 then 6 - a - b else 0
  }

  function ExorOuts(a: seq<bool>, b: seq<bool>): (r: seq<bool>)
    requires |a| == |b|
    ensures |r| == |a| && forall o :: 0 <= o < |r| ==> r[o] == (a[o] != b[o])
  {
    seq(|a|, o requires 0 <= o < |a| => a[o] != b[o])
  }

  function Literals(lits: seq<nat>): nat {
    if lits == [] then 0 else (if lits[|lits| - 1] == 3 then 0 else 1) + Literals(lits[..|lits| - 1])
  }

  function Ones(outs: seq<bool>): nat {
    if outs == [] then 0 else (if outs[|outs| - 1] then 1 else 0) + Ones(outs[..|outs| - 1])
  }

  // ---- Sums ----

  ghost predicate Handles(data: seq<Prod>, hs: seq<nat>) {
    forall i :: 0 <= i < |hs| ==> hs[i] < |data|
  }

  // Data of other cubes does not matter.
  lemma {:induction false} SumFrame(d: seq<Prod>, e: seq<Prod>, hs: seq<nat>, o: nat, x: Input)
    requires Handles(d, hs) && Handles(e, hs) && forall i :: 0 <= i < |hs| ==> d[hs[i]] == e[hs[i]]
    ensures Sum(d, hs, o, x) == Sum(e, hs, o, x)
  {
    if hs != [] { SumFrame(d, e, hs[1..], o, x); }
  }

  function Without(hs: seq<nat>, i: nat): seq<nat>
    requires i < |hs|
  {
    hs[..i] + hs[i + 1..]
  }

  lemma {:induction false} SumWithout(d: seq<Prod>, hs: seq<nat>, i: nat, o: nat, x: Input)
    requires Handles(d, hs) && i < |hs|
    ensures Sum(d, hs, o, x) == (Value(d[hs[i]], o, x) != Sum(d, Without(hs, i), o, x))
  {
    if i == 0 {
      assert Without(hs, 0) == hs[1..];
    } else {
      SumWithout(d, hs[1..], i - 1, o, x);
      assert Without(hs, i)[1..] == Without(hs[1..], i - 1);
    }
  }

  // ---- Merging ----

  lemma ExorValue(a: nat, b: nat, v: bool)
    requires 1 <= a <= 3 && 1 <= b <= 3 && a != b
    ensures 1 <= ExorCode(a, b) <= 3 && LitVal(ExorCode(a, b), v) == (LitVal(a, v) != LitVal(b, v))
    ensures ExorCode(ExorCode(a, b), b) == a
  {
  }

  // Two cubes that differ in one literal.
  lemma MergeInput(p: Prod, q: Prod, v: nat, nv: nat, no: nat, o: nat, x: Input)
    requires Good(p, nv, no) && Good(q, nv, no) && v < nv && p.outs == q.outs && p.lits[v] != q.lits[v]
    requires forall i :: 0 <= i < nv && i != v ==> p.lits[i] == q.lits[i]
    ensures var r := p.(lits := p.lits[v := ExorCode(p.lits[v], q.lits[v])]);
      Good(r, nv, no) && Value(r, o, x) == (Value(p, o, x) != Value(q, o, x))
  {
    ExorValue(p.lits[v], q.lits[v], x(v));
    var r := p.(lits := p.lits[v := ExorCode(p.lits[v], q.lits[v])]);
    if i :| 0 <= i < nv && i != v && !LitVal(p.lits[i], x(i)) {
      assert !LitVal(q.lits[i], x(i)) && !LitVal(r.lits[i], x(i));
    } else {
      assert Product(p.lits, x) == LitVal(p.lits[v], x(v));
      assert Product(q.lits, x) == LitVal(q.lits[v], x(v));
      assert Product(r.lits, x) == LitVal(r.lits[v], x(v));
    }
  }

  // Two cubes that differ in their outputs only.
  lemma MergeOutput(p: Prod, q: Prod, nv: nat, no: nat, o: nat, x: Input)
    requires Good(p, nv, no) && Good(q, nv, no) && p.lits == q.lits && p.outs != q.outs
    ensures var r := p.(outs := ExorOuts(p.outs, q.outs));
      Good(r, nv, no) && Value(r, o, x) == (Value(p, o, x) != Value(q, o, x)) && ExorOuts(r.outs, q.outs) == p.outs
  {
    var r := p.(outs := ExorOuts(p.outs, q.outs));
    assert ExorOuts(r.outs, q.outs) == p.outs;
    var i :| 0 <= i < no && p.outs[i] != q.outs[i];
    assert r.outs[i];
  }

  // ---- Distance ----

  // The differing input positions among the first k, in increasing order.
  function Diffs(p: seq<nat>, q: seq<nat>, k: nat): (r: seq<nat>)
    requires k <= |p| && |p| == |q|
    ensures |r| <= k && (forall i :: 0 <= i < |r| ==> r[i] < k && p[r[i]] != q[r[i]])
    ensures forall i, j :: 0 <= i < j < |r| ==> r[i] < r[j]
  {
    if k == 0 then []
    else
      var r := Diffs(p, q, k - 1);
      if p[k - 1] != q[k - 1] then r + [k - 1] else r
  }

  // The number of differing positions, the output part counting as one.
  function Distance(p: Prod, q: Prod): nat
    requires |p.lits| == |q.lits|
  {
    |Diffs(p.lits, q.lits, |p.lits|)| + if p.outs != q.outs then 1 else 0
  }

  // Two cubes at distance one as one cube.
  function Joined(p: Prod, q: Prod): Prod {
    if |p.lits| != |q.lits| || |p.outs| != |q.outs| then p
    else if p.outs != q.outs then p.(outs := ExorOuts(p.outs, q.outs))
    else
      var ds := Diffs(p.lits, q.lits, |p.lits|);
      if ds == [] || ds[0] >= |p.lits| then p
      else p.(lits := p.lits[ds[0] := ExorCode(p.lits[ds[0]], q.lits[ds[0]])])
  }

  lemma {:induction false} NoDiffs(lits: seq<nat>, k: nat)
    requires k <= |lits|
    ensures Diffs(lits, lits, k) == []
  {
    if k > 0 { NoDiffs(lits, k - 1); }
  }

  // Each differing position has its place in the list.
  lemma {:induction false} DiffPlace(p: seq<nat>, q: seq<nat>, k: nat, j: nat)
    requires k <= |p| == |q| && j < k
    ensures |Diffs(p, q, j)| <= |Diffs(p, q, k)|
    ensures p[j] != q[j] ==> |Diffs(p, q, j)| < |Diffs(p, q, k)| && Diffs(p, q, k)[|Diffs(p, q, j)|] == j
  {
    if j < k - 1 { DiffPlace(p, q, k - 1, j); }
  }

  lemma {:induction false} DiffersAt(p: seq<nat>, q: seq<nat>, k: nat, j: nat)
    requires k <= |p| == |q| && j < |Diffs(p, q, k)|
    ensures var d := Diffs(p, q, k)[j]; d < k && p[d] != q[d]
  {
    if p[k - 1] != q[k - 1] && j == |Diffs(p, q, k - 1)| {
    } else {
      DiffersAt(p, q, k - 1, j);
    }
  }

  lemma {:induction false} DiffsOrdered(p: seq<nat>, q: seq<nat>, k: nat)
    requires k <= |p| == |q|
    ensures forall i, j :: 0 <= i < j < |Diffs(p, q, k)| ==> Diffs(p, q, k)[i] < Diffs(p, q, k)[j]
    ensures forall i :: 0 <= i < |Diffs(p, q, k)| ==> Diffs(p, q, k)[i] < k
  {
    if k > 0 { DiffsOrdered(p, q, k - 1); }
  }

  lemma {:induction false} DiffAll(p: seq<nat>, q: seq<nat>, k: nat, j: nat)
    requires k <= |p| == |q| && j < |Diffs(p, q, k)|
    ensures Diffs(p, q, k)[j] < k && |Diffs(p, q, Diffs(p, q, k)[j])| == j
  {
    if p[k - 1] != q[k - 1] && j == |Diffs(p, q, k - 1)| {
    } else {
      DiffAll(p, q, k - 1, j);
    }
  }

  lemma SameCubes(p: Prod, q: Prod)
    requires |p.lits| == |q.lits| && Distance(p, q) == 0
    ensures p == q
  {
    forall i | 0 <= i < |p.lits| ensures p.lits[i] == q.lits[i] { DiffPlace(p.lits, q.lits, |p.lits|, i); }
  }

  // At distance one, either one input or the output differs.
  lemma NearCubes(p: Prod, q: Prod)
    requires |p.lits| == |q.lits| && Distance(p, q) == 1
    ensures p.outs != q.outs ==> p.lits == q.lits
    ensures p.outs == q.outs ==> |Diffs(p.lits, q.lits, |p.lits|)| == 1
    ensures p.outs == q.outs ==> forall i :: 0 <= i < |p.lits| && i != Diffs(p.lits, q.lits, |p.lits|)[0] ==>
      p.lits[i] == q.lits[i]
  {
    forall i | 0 <= i < |p.lits| && p.lits[i] != q.lits[i]
      ensures p.outs == q.outs && i == Diffs(p.lits, q.lits, |p.lits|)[0]
    {
      DiffPlace(p.lits, q.lits, |p.lits|, i);
    }
  }
}
