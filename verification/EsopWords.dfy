// The words of the cubes that ExorLink creates: the differing variables are cleared and filled with
// the codes of the rule, the output words are copied or combined.
module EsopWords {
  import opened EsopRules
  import opened EsopCube
  import opened EsopBits
  import opened EsopLink

  // ---- The inputs ----

  // lits with the variables ds set to the given codes.
  function Replaced(lits: seq<nat>, ds: seq<nat>, codes: seq<nat>): (r: seq<nat>)
    requires |codes| == |ds| && forall i :: 0 <= i < |ds| ==> ds[i] < |lits|
    ensures |r| == |lits|
  {
    if ds == [] then lits else Replaced(lits, ds[..|ds| - 1], codes[..|ds| - 1])[ds[|ds| - 1] := codes[|ds| - 1]]
  }

  lemma {:induction false} ReplacedAt(lits: seq<nat>, ds: seq<nat>, codes: seq<nat>, v: nat)
    requires |codes| == |ds| && (forall i :: 0 <= i < |ds| ==> ds[i] < |lits|) && v < |lits|
    requires forall i, j :: 0 <= i < j < |ds| ==> ds[i] < ds[j]
    ensures v !in ds ==> Replaced(lits, ds, codes)[v] == lits[v]
    ensures forall i :: 0 <= i < |ds| && ds[i] == v ==> Replaced(lits, ds, codes)[v] == codes[i]
  {
    if ds != [] {
      var m := |ds| - 1;
      ReplacedAt(lits, ds[..m], codes[..m], v);
      assert ds[m] in ds && forall i :: 0 <= i < m ==> ds[..m][i] == ds[i] && codes[..m][i] == codes[i];
    }
  }

  // Clear the differing variables, then insert the codes: the words of a created cube.
  method FillWords(ins: array<Word>, ds: seq<nat>, codes: seq<nat>) returns (r: array<Word>)
    requires Words(ins[..]) && |codes| == |ds|
    requires forall i :: 0 <= i < |ds| ==> ds[i] < 16 * ins.Length && codes[i] <= 3
    requires forall i, j :: 0 <= i < j < |ds| ==> ds[i] < ds[j]
    ensures fresh(r) && Words(r[..]) && Unpack(r[..]) == Replaced(Unpack(ins[..]), ds, codes)
  {
    hide Unpack;
    r := new Word[ins.Length](i requires 0 <= i < ins.Length reads ins => ins[i]);
    assert r[..] == ins[..];
    ghost var lits := Unpack(ins[..]);
    var zeros := seq(|ds|, i => 0);
    for i := 0 to |ds|
      invariant Words(r[..]) && Unpack(r[..]) == Replaced(lits, ds[..i], zeros[..i])
    {
      ReplacedMore(lits, ds, zeros, i);
      Cleared(r, ds[i]);
    }
    ghost var bare := Unpack(r[..]);
    assert ds[..|ds|] == ds && zeros[..|ds|] == zeros;
    for i := 0 to |ds|
      invariant Words(r[..]) && Unpack(r[..]) == Replaced(bare, ds[..i], codes[..i])
    {
      ReplacedAt(lits, ds, zeros, ds[i]);
      ReplacedAt(bare, ds[..i], codes[..i], ds[i]);
      ReplacedMore(bare, ds, codes, i);
      Insert(r, ds[i], codes[i]);
    }
    assert codes[..|ds|] == codes;
    ReplacedTwice(lits, ds, zeros, codes);
  }

  lemma ReplacedMore(lits: seq<nat>, ds: seq<nat>, codes: seq<nat>, i: nat)
    requires |codes| == |ds| && (forall j :: 0 <= j < |ds| ==> ds[j] < |lits|) && i < |ds|
    ensures Replaced(lits, ds[..i + 1], codes[..i + 1]) == Replaced(lits, ds[..i], codes[..i])[ds[i] := codes[i]]
  {
    assert ds[..i + 1][..i] == ds[..i] && codes[..i + 1][..i] == codes[..i];
  }

  lemma ReplacedTwice(lits: seq<nat>, ds: seq<nat>, zeros: seq<nat>, codes: seq<nat>)
    requires |codes| == |zeros| == |ds| && (forall i :: 0 <= i < |ds| ==> ds[i] < |lits|)
    requires forall i, j :: 0 <= i < j < |ds| ==> ds[i] < ds[j]
    ensures Replaced(Replaced(lits, ds, zeros), ds, codes) == Replaced(lits, ds, codes)
  {
    forall v | 0 <= v < |lits|
      ensures Replaced(Replaced(lits, ds, zeros), ds, codes)[v] == Replaced(lits, ds, codes)[v]
    {
      ReplacedAt(lits, ds, zeros, v);
      ReplacedAt(lits, ds, codes, v);
      ReplacedAt(Replaced(lits, ds, zeros), ds, codes, v);
    }
  }

  // DiffVarValues: the codes that the rule of cube k gives to the differing variables.
  function RuleCodes(p: Prod, q: Prod, dist: nat, k: nat): (r: seq<nat>)
    requires dist < 3 && k < CubeCount(dist) && |p.lits| == |q.lits| && |p.outs| == |q.outs|
    requires Distance(p, q) == dist + 2
    ensures |r| == |Diffs(p.lits, q.lits, |p.lits|)|
  {
    RuleShape(dist, k);
    var ds := Diffs(p.lits, q.lits, |p.lits|);
    seq(|ds|, i requires 0 <= i < |ds| => Pick(CubeRule(dist, k)[i], p.lits[ds[i]], q.lits[ds[i]]))
  }

  // The words filled with these codes hold the table cube.
  lemma FilledIsRule(p: Prod, q: Prod, dist: nat, k: nat, nv: nat, no: nat)
    requires Apart(p, q, dist, nv, no) && k < CubeCount(dist)
    ensures Replaced(p.lits, Diffs(p.lits, q.lits, nv), RuleCodes(p, q, dist, k)) == RuleProd(p, q, dist, k).lits
  {
    hide CubeRule, Pick, Diffs, Good;
    ApartShape(p, q, dist, nv, no);
    var ds, codes := Diffs(p.lits, q.lits, nv), RuleCodes(p, q, dist, k);
    forall v | 0 <= v < nv ensures Replaced(p.lits, ds, codes)[v] == RuleProd(p, q, dist, k).lits[v] {
      ReplacedAt(p.lits, ds, codes, v);
      DiffPlace(p.lits, q.lits, nv, v);
      if p.lits[v] != q.lits[v] { assert ds[Rank(p, q, v)] == v; }
    }
  }

  // ---- The outputs ----

  // One output word under rule r.
  function PickWord(r: nat, a: Word, b: Word): (w: Word)
    requires |a| == |b|
    ensures |w| == |a|
  {
    if r == 0 then a else if r == 1 then b else Xor(a, b)
  }

  lemma {:induction false} OutsPicked(r: nat, a: seq<Word>, b: seq<Word>, c: seq<Word>)
    requires Words(a) && Words(b) && |c| == |a| == |b|
    requires forall i :: 0 <= i < |a| ==> |a[i]| == |b[i]| && c[i] == PickWord(r, a[i], b[i])
    ensures |Outs(a)| == |Outs(b)| && Outs(c) == PickOuts(r, Outs(a), Outs(b))
  {
    if a != [] {
      var m := |a| - 1;
      OutsPicked(r, a[..m], b[..m], c[..m]);
      assert Outs(c) == Outs(c[..m]) + c[m];
    }
  }

  method PickOutputs(r: nat, out1: array<Word>, out2: array<Word>) returns (outs: array<Word>)
    requires Words(out1[..]) && Words(out2[..]) && out1.Length == out2.Length
    ensures fresh(outs) && Words(outs[..]) && outs.Length == out1.Length
    ensures |Outs(out1[..])| == |Outs(out2[..])| && Outs(outs[..]) == PickOuts(r, Outs(out1[..]), Outs(out2[..]))
  {
    outs := new Word[out1.Length](i requires 0 <= i < out1.Length reads out1 => out1[i]);
    for i := 0 to out1.Length
      invariant forall j :: 0 <= j < i ==> outs[j] == PickWord(r, out1[j], out2[j])
      invariant out1[..] == old(out1[..]) && out2[..] == old(out2[..])
    {
      outs[i] := PickWord(r, out1[i], out2[i]);
    }
    OutsPicked(r, out1[..], out2[..], outs[..]);
  }

  // ---- A created cube ----

  // The codes that the rule takes from the words of the two cubes.
  method PickCodes(in1: array<Word>, in2: array<Word>, ds: seq<nat>, rule: seq<nat>) returns (codes: seq<nat>)
    requires Words(in1[..]) && Words(in2[..]) && in1.Length == in2.Length && |rule| >= |ds|
    requires forall i :: 0 <= i < |ds| ==> ds[i] < 16 * in1.Length
    ensures |codes| == |ds|
    ensures forall i :: 0 <= i < |ds| ==> codes[i] == Pick(rule[i], Unpack(in1[..])[ds[i]], Unpack(in2[..])[ds[i]])
  {
    hide Unpack, Pick;
    codes := [];
    for i := 0 to |ds|
      invariant |codes| == i
      invariant forall j :: 0 <= j < i ==> codes[j] == Pick(rule[j], Unpack(in1[..])[ds[j]], Unpack(in2[..])[ds[j]])
    {
      codes := codes + [Pick(rule[i], GetVar(in1[..], ds[i]), GetVar(in2[..], ds[i]))];
    }
  }

  // The inputs of the list that FindDiffVars makes.
  function Inputs(vars: seq<int>): (ds: seq<nat>)
    requires forall i :: 0 <= i < |vars| ==> vars[i] >= 0
    ensures |ds| == |vars|
  {
    seq(|vars|, i requires 0 <= i < |vars| => vars[i])
  }

  lemma ListParts(outputs: bool, ds: seq<nat>)
    ensures var vars := DiffList(outputs, ds);
      && (vars != [] && vars[0] < 0 <==> outputs)
      && var rest := if outputs then vars[1..] else vars;
         (forall i :: 0 <= i < |rest| ==> rest[i] >= 0) && Inputs(rest) == ds
  {
    assert DiffList(false, ds) == Ints(ds) && DiffList(true, ds)[1..] == Ints(ds);
  }

  // The differing variables and the codes taken from the words are those of the cubes.
  lemma HeldCodes(in1: seq<Word>, in2: seq<Word>, out1: seq<Word>, out2: seq<Word>, p: Prod, q: Prod, dist: nat,
                  k: nat, nv: nat, no: nat, codes: seq<nat>)
    requires Holds(in1, out1, p) && Holds(in2, out2, q) && |in1| == |in2|
    requires Apart(p, q, dist, nv, no) && k < CubeCount(dist)
    requires var ds := Diffs(p.lits, q.lits, nv);
      && |codes| == |ds| <= |CubeRule(dist, k)|
      && (forall i :: 0 <= i < |ds| ==> ds[i] < 16 * |in1|)
      && forall i :: 0 <= i < |ds| ==> codes[i] == Pick(CubeRule(dist, k)[i], Unpack(in1)[ds[i]], Unpack(in2)[ds[i]])
    ensures codes == RuleCodes(p, q, dist, k)
    ensures forall i :: 0 <= i < |codes| ==> codes[i] <= 3
  {
    hide CubeRule, Pick, Diffs, Unpack, Outs;
    ApartShape(p, q, dist, nv, no);
    var ds := Diffs(p.lits, q.lits, nv);
    forall i | 0 <= i < |ds| ensures codes[i] == RuleCodes(p, q, dist, k)[i] && codes[i] <= 3 {
      DiffAll(p.lits, q.lits, nv, i);
      DiffersAt(p.lits, q.lits, nv, i);
      assert Unpack(in1)[ds[i]] == p.lits[ds[i]] && Unpack(in2)[ds[i]] == q.lits[ds[i]];
      RuleShape(dist, k);
      PickCode(CubeRule(dist, k)[i], p.lits[ds[i]], q.lits[ds[i]]);
    }
  }

  // The filled input words hold the inputs of the table cube.
  lemma FilledInputs(lits: seq<nat>, r: seq<nat>, p: Prod, q: Prod, dist: nat, k: nat, nv: nat, no: nat)
    requires Apart(p, q, dist, nv, no) && k < CubeCount(dist) && nv <= |lits| && lits[..nv] == p.lits
    requires forall i :: 0 <= i < |Diffs(p.lits, q.lits, nv)| ==> Diffs(p.lits, q.lits, nv)[i] < nv
    requires r == Replaced(lits, Diffs(p.lits, q.lits, nv), RuleCodes(p, q, dist, k))
    ensures r[..nv] == RuleProd(p, q, dist, k).lits && forall v :: nv <= v < |lits| ==> r[v] == lits[v]
  {
    hide CubeRule, Pick, Diffs, Good, Replaced, RuleProd, RuleCodes;
    ApartShape(p, q, dist, nv, no);
    var ds, codes := Diffs(p.lits, q.lits, nv), RuleCodes(p, q, dist, k);
    FilledIsRule(p, q, dist, k, nv, no);
    DiffsOrdered(p.lits, q.lits, nv);
    forall v | 0 <= v < |lits| ensures r[v] == if v < nv then Replaced(p.lits, ds, codes)[v] else lits[v] {
      ReplacedAt(lits, ds, codes, v);
      if v < nv { ReplacedAt(p.lits, ds, codes, v); assert lits[v] == p.lits[v]; }
    }
  }

  // The combined output words hold its outputs.
  lemma PickedOutputs(rule: nat, o1: seq<bool>, o2: seq<bool>, p: seq<bool>, q: seq<bool>)
    requires |p| == |q| <= |o1| == |o2| && o1[..|p|] == p && o2[..|p|] == q
    requires forall i :: |p| <= i < |o1| ==> !o1[i] && !o2[i]
    ensures PickOuts(rule, o1, o2)[..|p|] == PickOuts(rule, p, q)
    ensures forall i :: |p| <= i < |o1| ==> !PickOuts(rule, o1, o2)[i]
  {
    forall i | 0 <= i < |p| ensures PickOuts(rule, o1, o2)[i] == PickOuts(rule, p, q)[i] {
      assert o1[..|p|][i] == o1[i] && o2[..|p|][i] == o2[i];
    }
  }

  lemma FilledHolds(ins: seq<Word>, outs: seq<Word>, in1: seq<Word>, out1: seq<Word>, in2: seq<Word>,
                    out2: seq<Word>, p: Prod, q: Prod, dist: nat, k: nat, nv: nat, no: nat)
    requires Apart(p, q, dist, nv, no) && k < CubeCount(dist) && |CubeRule(dist, k)| == dist + 2
    requires Holds(in1, out1, p) && Holds(in2, out2, q) && |out1| == |out2|
    requires Words(ins) && Words(outs) && |outs| == |out1| && |Outs(out1)| == |Outs(out2)|
    requires forall i :: 0 <= i < |Diffs(p.lits, q.lits, nv)| ==> Diffs(p.lits, q.lits, nv)[i] < nv
    requires Unpack(ins) == Replaced(Unpack(in1), Diffs(p.lits, q.lits, nv), RuleCodes(p, q, dist, k))
    requires Outs(outs) == PickOuts(if p.outs != q.outs then CubeRule(dist, k)[dist + 1] else 0, Outs(out1), Outs(out2))
    ensures Holds(ins, outs, RuleProd(p, q, dist, k))
  {
    hide CubeRule, Pick, PickOuts, Diffs, Unpack, Outs, Good, Replaced, RuleCodes;
    ApartShape(p, q, dist, nv, no);
    FilledInputs(Unpack(in1), Unpack(ins), p, q, dist, k, nv, no);
    var rule := if p.outs != q.outs then CubeRule(dist, k)[dist + 1] else 0;
    PickedOutputs(rule, Outs(out1), Outs(out2), p.outs, q.outs);
    FirstPick(p.outs, q.outs);
  }

  lemma FirstPick(a: seq<bool>, b: seq<bool>)
    requires |a| == |b|
    ensures PickOuts(0, a, b) == a
  {
  }

  // What FindDiffVars says of words that hold the two cubes.
  lemma HeldPair(in1: seq<Word>, out1: seq<Word>, in2: seq<Word>, out2: seq<Word>, p: Prod, q: Prod, nv: nat, no: nat)
    requires Pair(in1, out1, in2, out2) && Holds(in1, out1, p) && Holds(in2, out2, q)
    requires Good(p, nv, no) && Good(q, nv, no)
    ensures Words(in1) && Words(in2) && Words(out1) && Words(out2) && |p.lits| == |q.lits| == nv && |p.outs| == |q.outs|
    ensures Distance(Cube(in1, out1), Cube(in2, out2)) == Distance(p, q)
    ensures DiffList(Outs(out1) != Outs(out2), DiffsUpTo(in1, in2, |in1|)) ==
      DiffList(p.outs != q.outs, Diffs(p.lits, q.lits, nv))
    ensures forall i :: 0 <= i < |Diffs(p.lits, q.lits, nv)| ==> Diffs(p.lits, q.lits, nv)[i] < nv <= 16 * |in1|
    ensures forall i, j :: 0 <= i < j < |Diffs(p.lits, q.lits, nv)| ==>
      Diffs(p.lits, q.lits, nv)[i] < Diffs(p.lits, q.lits, nv)[j]
    ensures |Diffs(p.lits, q.lits, nv)| <= Distance(p, q)
  {
    hide Diffs, Unpack, Outs, DiffList, DiffsUpTo;
    HeldDistance(in1, out1, in2, out2, p, q);
    DiffsOrdered(p.lits, q.lits, nv);
  }

  // The words of cube k of the table, for words that hold the two cubes: false when the distance
  // is not the expected one.
  method CreateWords(in1: array<Word>, out1: array<Word>, in2: array<Word>, out2: array<Word>, dist: nat, k: nat,
                     ghost p: Prod, ghost q: Prod, ghost nv: nat, ghost no: nat)
    returns (ok: bool, ins: array<Word>, outs: array<Word>)
    requires dist < 3 && k < CubeCount(dist) && Pair(in1[..], out1[..], in2[..], out2[..])
    requires Good(p, nv, no) && Good(q, nv, no) && Holds(in1[..], out1[..], p) && Holds(in2[..], out2[..], q)
    ensures |p.lits| == |q.lits| && |p.outs| == |q.outs| && (ok <==> Distance(p, q) == dist + 2)
    ensures ok ==> Holds(ins[..], outs[..], RuleProd(p, q, dist, k))
  {
    hide Unpack, Outs, Diffs, Good, CubeRule, Pick, PickOuts, Holds, Words, DiffList, DiffsUpTo, RuleProd, RuleCodes,
      Replaced, Distance, Cube, Inputs;
    HeldPair(in1[..], out1[..], in2[..], out2[..], p, q, nv, no);
    var vars, count := FindDiffVars(in1, out1, in2, out2);
    if count != dist + 2 {
      return false, in1, out1;
    }
    RuleShape(dist, k);
    ListParts(p.outs != q.outs, Diffs(p.lits, q.lits, nv));
    var rule := CubeRule(dist, k);
    var outputs := vars != [] && vars[0] < 0;
    var ds := Inputs(if outputs then vars[1..] else vars);
    var codes := PickCodes(in1, in2, ds, rule);
    HeldCodes(in1[..], in2[..], out1[..], out2[..], p, q, dist, k, nv, no, codes);
    ins := FillWords(in1, ds, codes);
    outs := PickOutputs(if outputs then rule[dist + 1] else 0, out1, out2);
    FilledHolds(ins[..], outs[..], in1[..], out1[..], in2[..], out2[..], p, q, dist, k, nv, no);
    ok := true;
  }
}
