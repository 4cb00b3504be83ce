// The cubes that ExorLink makes of two cubes at distance two, three or four.
module EsopLink {
  import opened EsopRules
  import opened EsopCube
  import opened EsopBits

  // The value a position takes under rule r.
  function Pick(r: nat, a: nat, b: nat): nat {
    if r == 0 then a else if r == 1 then b else ExorCode(a, b)
  }

  function PickOuts(r: nat, a: seq<bool>, b: seq<bool>): (s: seq<bool>)
    requires |a| == |b|
    ensures |s| == |a|
  {
    if r == 0 then a else if r == 1 then b else ExorOuts(a, b)
  }

  // Two cubes that ExorLink of this kind applies to.
  ghost predicate Apart(p: Prod, q: Prod, dist: nat, nv: nat, no: nat) {
    dist < 3 && Good(p, nv, no) && Good(q, nv, no) && Distance(p, q) == dist + 2
  }

  // The place of position j among the differing ones.
  function Rank(p: Prod, q: Prod, j: nat): nat
    requires j <= |p.lits| == |q.lits|
  {
    |Diffs(p.lits, q.lits, j)|
  }

  // Cube k of the table: the first cube with the differing positions replaced by their rules.
  function RuleProd(p: Prod, q: Prod, dist: nat, k: nat): (r: Prod)
    requires dist < 3 && k < CubeCount(dist) && |p.lits| == |q.lits| && |p.outs| == |q.outs|
    requires Distance(p, q) == dist + 2
    ensures |r.lits| == |p.lits| && |r.outs| == |p.outs|
  {
    RuleShape(dist, k);
    Prod(seq(|p.lits|, j requires 0 <= j < |p.lits| =>
           DiffPlace(p.lits, q.lits, |p.lits|, j);
           if p.lits[j] == q.lits[j] then p.lits[j] else Pick(CubeRule(dist, k)[Rank(p, q, j)], p.lits[j], q.lits[j])),
         if p.outs != q.outs then PickOuts(CubeRule(dist, k)[dist + 1], p.outs, q.outs) else p.outs)
  }

  lemma RuleGood(p: Prod, q: Prod, dist: nat, k: nat, nv: nat, no: nat)
    requires Apart(p, q, dist, nv, no) && k < CubeCount(dist)
    ensures Good(RuleProd(p, q, dist, k), nv, no)
  {
    hide CubeRule, Pick, PickOuts, Diffs;
    RuleShape(dist, k);
    var rule, r := CubeRule(dist, k), RuleProd(p, q, dist, k);
    forall j | 0 <= j < nv ensures 1 <= r.lits[j] <= 3 {
      DiffPlace(p.lits, q.lits, nv, j);
      if p.lits[j] != q.lits[j] { PickCode(rule[Rank(p, q, j)], p.lits[j], q.lits[j]); }
    }
    if p.outs != q.outs { PickSome(rule[dist + 1], p.outs, q.outs); }
  }

  lemma PickCode(r: nat, a: nat, b: nat)
    requires r <= 2 && 1 <= a <= 3 && 1 <= b <= 3 && a != b
    ensures 1 <= Pick(r, a, b) <= 3
  {
  }

  lemma PickSome(r: nat, a: seq<bool>, b: seq<bool>)
    requires |a| == |b| && true in a && true in b && a != b
    ensures true in PickOuts(r, a, b)
  {
    var o :| 0 <= o < |a| && a[o] != b[o];
    assert ExorOuts(a, b)[o];
  }

  // The values that the differing positions of p have, the output last.
  ghost function Bits(p: Prod, q: Prod, r: Prod, dist: nat, o: nat, x: Input): (b: seq<bool>)
    requires |p.lits| == |q.lits| == |r.lits| && |p.outs| == |q.outs| == |r.outs| && Distance(p, q) == dist + 2
    requires o < |p.outs|
    ensures |b| == dist + 2
  {
    var ds := Diffs(p.lits, q.lits, |p.lits|);
    seq(dist + 2, i requires 0 <= i < dist + 2 => if i < |ds| then LitVal(r.lits[ds[i]], x(ds[i])) else r.outs[o])
  }

  // What the two cubes have in common.
  ghost predicate Common(p: Prod, q: Prod, o: nat, x: Input)
    requires |p.lits| == |q.lits|
  {
    && o < |p.outs| && (p.outs == q.outs ==> p.outs[o])
    && forall j :: 0 <= j < |p.lits| && p.lits[j] == q.lits[j] ==> LitVal(p.lits[j], x(j))
  }

  // A cube that agrees with the common part has the value of its differing positions.
  lemma ValueByBits(p: Prod, q: Prod, r: Prod, dist: nat, o: nat, x: Input)
    requires |p.lits| == |q.lits| == |r.lits| && |p.outs| == |q.outs| == |r.outs| && Distance(p, q) == dist + 2
    requires o < |p.outs|
    requires forall j :: 0 <= j < |p.lits| && p.lits[j] == q.lits[j] ==> r.lits[j] == p.lits[j]
    requires p.outs == q.outs ==> r.outs == p.outs
    ensures Value(r, o, x) == (Common(p, q, o, x) && All(Bits(p, q, r, dist, o, x)))
  {
    var ds, b := Diffs(p.lits, q.lits, |p.lits|), Bits(p, q, r, dist, o, x);
    if Value(r, o, x) {
      assert forall i :: 0 <= i < dist + 2 ==> b[i];
    }
    if Common(p, q, o, x) && All(b) {
      forall j | 0 <= j < |r.lits| ensures LitVal(r.lits[j], x(j)) {
        DiffPlace(p.lits, q.lits, |p.lits|, j);
        if p.lits[j] != q.lits[j] { assert b[|Diffs(p.lits, q.lits, j)|]; }
      }
      if p.outs != q.outs { assert b[dist + 1]; }
    }
  }

  lemma PickValue(r: nat, a: nat, b: nat, v: bool)
    requires r <= 2 && 1 <= a <= 3 && 1 <= b <= 3 && a != b
    ensures LitVal(Pick(r, a, b), v) == Term(r, LitVal(a, v), LitVal(b, v))
  {
    ExorValue(a, b, v);
  }

  lemma PickOut(r: nat, a: seq<bool>, b: seq<bool>, o: nat)
    requires |a| == |b| && o < |a|
    ensures PickOuts(r, a, b)[o] == Term(r, a[o], b[o])
  {
  }

  // A table cube takes the values of its rule.
  lemma RuleBits(p: Prod, q: Prod, dist: nat, k: nat, nv: nat, no: nat, o: nat, x: Input)
    requires Apart(p, q, dist, nv, no) && k < CubeCount(dist) && o < no
    ensures |CubeRule(dist, k)| == dist + 2
    ensures All(Bits(p, q, RuleProd(p, q, dist, k), dist, o, x)) ==
      TermAll(CubeRule(dist, k), Bits(p, q, p, dist, o, x), Bits(p, q, q, dist, o, x))
  {
    hide CubeRule, Diffs, Pick, PickOuts;
    RuleShape(dist, k);
    var rule := CubeRule(dist, k);
    var r := RuleProd(p, q, dist, k);
    var ds := Diffs(p.lits, q.lits, nv);
    var a, b, c := Bits(p, q, p, dist, o, x), Bits(p, q, q, dist, o, x), Bits(p, q, r, dist, o, x);
    forall i | 0 <= i < dist + 2 ensures c[i] == Term(rule[i], a[i], b[i]) {
      if i < |ds| {
        DiffAll(p.lits, q.lits, nv, i);
        assert r.lits[ds[i]] == Pick(rule[i], p.lits[ds[i]], q.lits[ds[i]]);
        PickValue(rule[i], p.lits[ds[i]], q.lits[ds[i]], x(ds[i]));
      } else {
        assert i == dist + 1;
        PickOut(rule[i], p.outs, q.outs, o);
      }
    }
  }

  lemma RuleValue(p: Prod, q: Prod, dist: nat, k: nat, nv: nat, no: nat, o: nat, x: Input)
    requires Apart(p, q, dist, nv, no) && k < CubeCount(dist) && o < no
    ensures |CubeRule(dist, k)| == dist + 2
    ensures Value(RuleProd(p, q, dist, k), o, x) ==
      (Common(p, q, o, x) && TermAll(CubeRule(dist, k), Bits(p, q, p, dist, o, x), Bits(p, q, q, dist, o, x)))
  {
    hide CubeRule, TermAll;
    RuleBits(p, q, dist, k, nv, no, o, x);
    ValueByBits(p, q, RuleProd(p, q, dist, k), dist, o, x);
  }

  // The sum of the cubes c, c + 1, ... of a group.
  ghost function GroupValue(p: Prod, q: Prod, dist: nat, g: nat, c: nat, o: nat, x: Input): bool
    requires dist < 3 && g < GroupCount(dist) && c <= dist + 2
    requires |p.lits| == |q.lits| && |p.outs| == |q.outs| && Distance(p, q) == dist + 2
    decreases dist + 2 - c
  {
    GroupShape(dist, g);
    if c == dist + 2 then false
    else Value(RuleProd(p, q, dist, GroupRule(dist, g)[c]), o, x) != GroupValue(p, q, dist, g, c + 1, o, x)
  }

  lemma {:induction false} GroupByBits(p: Prod, q: Prod, dist: nat, g: nat, c: nat, nv: nat, no: nat, o: nat, x: Input)
    requires Apart(p, q, dist, nv, no) && g < GroupCount(dist) && c <= dist + 2 && o < no
    ensures GroupValue(p, q, dist, g, c, o, x) ==
      (Common(p, q, o, x) && GroupSum(dist, g, c, Bits(p, q, p, dist, o, x), Bits(p, q, q, dist, o, x)))
    decreases dist + 2 - c
  {
    hide GroupRule, CubeRule, TermAll, RuleProd, Value, Common;
    GroupShape(dist, g);
    if c < dist + 2 {
      GroupByBits(p, q, dist, g, c + 1, nv, no, o, x);
      RuleValue(p, q, dist, GroupRule(dist, g)[c], nv, no, o, x);
    }
  }

  // Every group of every table stands for the same function as the two cubes.
  lemma LinkIdentity(p: Prod, q: Prod, dist: nat, g: nat, nv: nat, no: nat, o: nat, x: Input)
    requires Apart(p, q, dist, nv, no) && g < GroupCount(dist) && o < no
    ensures GroupValue(p, q, dist, g, 0, o, x) == (Value(p, o, x) != Value(q, o, x))
  {
    hide GroupSum, GroupValue, All, Common;
    GroupByBits(p, q, dist, g, 0, nv, no, o, x);
    GroupIdentity(dist, g, Bits(p, q, p, dist, o, x), Bits(p, q, q, dist, o, x));
    ValueByBits(p, q, p, dist, o, x);
    OtherCommon(p, q, dist, o, x);
  }

  lemma OtherCommon(p: Prod, q: Prod, dist: nat, o: nat, x: Input)
    requires |p.lits| == |q.lits| && |p.outs| == |q.outs| && Distance(p, q) == dist + 2 && o < |p.outs|
    ensures Value(q, o, x) == (Common(p, q, o, x) && All(Bits(p, q, q, dist, o, x)))
  {
    ValueByBits(p, q, q, dist, o, x);
  }

  // ---- Literal counts ----

  // The differing positions that hold a literal.
  function DiffLiterals(lits: seq<nat>, ds: seq<nat>): nat
    requires forall i :: 0 <= i < |ds| ==> ds[i] < |lits|
  {
    if ds == [] then 0 else (if lits[ds[|ds| - 1]] == 3 then 0 else 1) + DiffLiterals(lits, ds[..|ds| - 1])
  }

  lemma LiteralStep(lits: seq<nat>, k: nat)
    requires 0 < k <= |lits|
    ensures Literals(lits[..k]) == Literals(lits[..k - 1]) + if lits[k - 1] == 3 then 0 else 1
  {
    assert lits[..k][..k - 1] == lits[..k - 1];
  }

  lemma DiffLiteralStep(lits: seq<nat>, ds: seq<nat>, d: nat)
    requires d < |lits| && forall i :: 0 <= i < |ds| ==> ds[i] < |lits|
    ensures DiffLiterals(lits, ds + [d]) == DiffLiterals(lits, ds) + if lits[d] == 3 then 0 else 1
  {
    assert (ds + [d])[..|ds|] == ds;
  }

  lemma {:induction false} LiteralsByDiffs(p: seq<nat>, q: seq<nat>, r: seq<nat>, k: nat)
    requires k <= |p| == |q| == |r| && forall j :: 0 <= j < |p| && p[j] == q[j] ==> r[j] == p[j]
    ensures Literals(r[..k]) == Literals(p[..k]) - DiffLiterals(p, Diffs(p, q, k)) + DiffLiterals(r, Diffs(p, q, k))
  {
    if k > 0 {
      LiteralsByDiffs(p, q, r, k - 1);
      LiteralStep(p, k);
      LiteralStep(r, k);
      var d := Diffs(p, q, k - 1);
      if p[k - 1] != q[k - 1] {
        assert Diffs(p, q, k) == d + [k - 1];
        DiffLiteralStep(p, d, k - 1);
        DiffLiteralStep(r, d, k - 1);
      } else {
        assert Diffs(p, q, k) == d;
      }
      hide Literals, DiffLiterals, Diffs;
    }
  }

  // The literal count of a table cube: the base without the differing positions, and the
  // literals its rule puts there.
  lemma RuleLiterals(p: Prod, q: Prod, dist: nat, k: nat, nv: nat, no: nat)
    requires Apart(p, q, dist, nv, no) && k < CubeCount(dist)
    ensures var r := RuleProd(p, q, dist, k); var ds := Diffs(p.lits, q.lits, nv);
      Literals(r.lits) == Literals(p.lits) - DiffLiterals(p.lits, ds) + DiffLiterals(r.lits, ds)
  {
    var r := RuleProd(p, q, dist, k);
    LiteralsByDiffs(p.lits, q.lits, r.lits, nv);
    assert r.lits[..nv] == r.lits && p.lits[..nv] == p.lits;
  }

  // ---- Literal masks ----

  function Hex(w: nat, i: nat): nat {
    if i == 0 then w % 16 else if i == 1 then w / 16 % 16 else if i == 2 then w / 256 % 16 else w / 4096 % 16
  }

  // A 16-bit number as its bits.
  function WordOf(w: nat): (r: Word)
    ensures |r| == 16
  {
    seq(16, j requires 0 <= j =>
      var h := Hex(w, j / 4);
      (if j % 4 == 0 then h else if j % 4 == 1 then h / 2 else if j % 4 == 2 then h / 4 else h / 8) % 2 == 1)
  }

  ghost predicate MaskDigit(dist: nat, k: nat, i: nat) {
    && dist < 3 && k < CubeCount(dist) && |CubeRule(dist, k)| == dist + 2
    && Hex(LitMask(dist, k), i) ==
         if i >= dist + 2 then 0
         else if CubeRule(dist, k)[i] == 0 then 1 else if CubeRule(dist, k)[i] == 1 then 2 else 4
  }

  lemma MaskSmall(dist: nat, k: nat, i: nat)
    requires dist < 2 && k < CubeCount(dist) && i < 4
    ensures MaskDigit(dist, k, i)
  {
    if dist == 0 { MaskPairs(k, i); } else { MaskTriples(k, i); }
  }

  lemma MaskPairs(k: nat, i: nat)
    requires k < 4 && i < 4
    ensures MaskDigit(0, k, i)
  {
    if i == 0 { } else if i == 1 { } else if i == 2 { } else { assert i == 3; }
  }

  lemma MaskTriples(k: nat, i: nat)
    requires k < 12 && i < 4
    ensures MaskDigit(1, k, i)
  {
    if i == 0 { } else if i == 1 { } else if i == 2 { } else { assert i == 3; }
  }

  lemma MaskFirst(k: nat, i: nat)
    requires k < 4 && i < 4
    ensures MaskDigit(2, k, i)
  {
    if i == 0 { } else if i == 1 { } else if i == 2 { } else { assert i == 3; }
  }

  lemma MaskSecond(k: nat, i: nat)
    requires 4 <= k < 8 && i < 4
    ensures MaskDigit(2, k, i)
  {
    if i == 0 { } else if i == 1 { } else if i == 2 { } else { assert i == 3; }
  }

  lemma MaskThird(k: nat, i: nat)
    requires 8 <= k < 12 && i < 4
    ensures MaskDigit(2, k, i)
  {
    if i == 0 { } else if i == 1 { } else if i == 2 { } else { assert i == 3; }
  }

  lemma MaskFourth(k: nat, i: nat)
    requires 12 <= k < 16 && i < 4
    ensures MaskDigit(2, k, i)
  {
    if i == 0 { } else if i == 1 { } else if i == 2 { } else { assert i == 3; }
  }

  lemma MaskFifth(k: nat, i: nat)
    requires 16 <= k < 20 && i < 4
    ensures MaskDigit(2, k, i)
  {
    if i == 0 { } else if i == 1 { } else if i == 2 { } else { assert i == 3; }
  }

  lemma MaskSixth(k: nat, i: nat)
    requires 20 <= k < 24 && i < 4
    ensures MaskDigit(2, k, i)
  {
    if i == 0 { } else if i == 1 { } else if i == 2 { } else { assert i == 3; }
  }

  lemma MaskSeventh(k: nat, i: nat)
    requires 24 <= k < 28 && i < 4
    ensures MaskDigit(2, k, i)
  {
    if i == 0 { } else if i == 1 { } else if i == 2 { } else { assert i == 3; }
  }

  lemma MaskEighth(k: nat, i: nat)
    requires 28 <= k < 32 && i < 4
    ensures MaskDigit(2, k, i)
  {
    if i == 0 { } else if i == 1 { } else if i == 2 { } else { assert i == 3; }
  }

  // The literal masks select in every position the bit of the rule of that position.
  lemma MaskMatches(dist: nat, k: nat, i: nat)
    requires dist < 3 && k < CubeCount(dist) && i < 4
    ensures MaskDigit(dist, k, i)
  {
    hide MaskDigit;
    if dist < 2 { MaskSmall(dist, k, i); }
    else if k < 4 { MaskFirst(k, i); }
    else if k < 8 { MaskSecond(k, i); }
    else if k < 12 { MaskThird(k, i); }
    else if k < 16 { MaskFourth(k, i); }
    else if k < 20 { MaskFifth(k, i); }
    else if k < 24 { MaskSixth(k, i); }
    else if k < 28 { MaskSeventh(k, i); }
    else { MaskEighth(k, i); }
  }

  // MaskLiterals: bit 4 * i + r tells whether position i has a literal under rule r.
  function LiteralMask(p: seq<nat>, q: seq<nat>, ds: seq<nat>): (r: Word)
    requires |p| == |q| && |ds| <= 4 && forall i :: 0 <= i < |ds| ==> ds[i] < |p|
    ensures |r| == 16
  {
    seq(16, j requires 0 <= j =>
      j / 4 < |ds| && j % 4 < 3 && Pick(j % 4, p[ds[j / 4]], q[ds[j / 4]]) != 3)
  }

  // The bits of one digit of a word that has at most one bit there.
  lemma WordDigit(w: nat, i: nat, h: nat)
    requires i < 4 && Hex(w, i) == h && (h == 0 || h == 1 || h == 2 || h == 4)
    ensures var m := WordOf(w);
      m[4 * i] == (h == 1) && m[4 * i + 1] == (h == 2) && m[4 * i + 2] == (h == 4) && !m[4 * i + 3]
  {
    hide Hex;
    Quarter(i, 0);
    Quarter(i, 1);
    Quarter(i, 2);
    Quarter(i, 3);
  }

  lemma Quarter(i: nat, r: nat)
    requires r < 4
    ensures (4 * i + r) / 4 == i && (4 * i + r) % 4 == r
  {
  }

  lemma LiteralBit(p: seq<nat>, q: seq<nat>, ds: seq<nat>, i: nat, r: nat)
    requires |p| == |q| && |ds| <= 4 && (forall j :: 0 <= j < |ds| ==> ds[j] < |p|) && i < 4 && r < 4
    ensures LiteralMask(p, q, ds)[4 * i + r] == (i < |ds| && r < 3 && Pick(r, p[ds[i]], q[ds[i]]) != 3)
  {
    hide Pick;
    Quarter(i, r);
  }

  // Position i of a table cube holds what its rule says.
  lemma RuleAtDiff(p: Prod, q: Prod, dist: nat, k: nat, i: nat, nv: nat, no: nat)
    requires Apart(p, q, dist, nv, no) && k < CubeCount(dist) && i < |Diffs(p.lits, q.lits, nv)|
    ensures var d := Diffs(p.lits, q.lits, nv)[i];
      |CubeRule(dist, k)| == dist + 2 && i < dist + 2 && CubeRule(dist, k)[i] <= 2 &&
      RuleProd(p, q, dist, k).lits[d] == Pick(CubeRule(dist, k)[i], p.lits[d], q.lits[d])
  {
    RuleShape(dist, k);
    DiffAll(p.lits, q.lits, nv, i);
    hide CubeRule, Pick;
  }

  // The four bits of position i after masking.
  lemma MaskedDigit(p: Prod, q: Prod, dist: nat, k: nat, i: nat, nv: nat, no: nat)
    requires Apart(p, q, dist, nv, no) && k < CubeCount(dist) && i < 4
    ensures var ds := Diffs(p.lits, q.lits, nv);
      |ds| <= 4 && var m := And(LiteralMask(p.lits, q.lits, ds), WordOf(LitMask(dist, k)));
      BitCount(m[..4 * i + 4]) == BitCount(m[..4 * i]) +
        if i < |ds| && RuleProd(p, q, dist, k).lits[ds[i]] != 3 then 1 else 0
  {
    hide CubeRule, LitMask, Hex, Pick, LiteralMask, WordOf, RuleProd, BitCount, Diffs;
    MaskMatches(dist, k, i);
    var ds := Diffs(p.lits, q.lits, nv);
    if i < |ds| { RuleAtDiff(p, q, dist, k, i, nv, no); }
    WordDigit(LitMask(dist, k), i, Hex(LitMask(dist, k), i));
    LiteralBit(p.lits, q.lits, ds, i, 0);
    LiteralBit(p.lits, q.lits, ds, i, 1);
    LiteralBit(p.lits, q.lits, ds, i, 2);
    FourBits(And(LiteralMask(p.lits, q.lits, ds), WordOf(LitMask(dist, k))), i);
  }

  lemma FourBits(m: Word, i: nat)
    requires 4 * i + 4 <= |m|
    ensures BitCount(m[..4 * i + 4]) ==
        BitCount(m[..4 * i]) + Bit(m[4 * i]) + Bit(m[4 * i + 1]) + Bit(m[4 * i + 2]) + Bit(m[4 * i + 3])
  {
    OneBit(m, 4 * i);
    OneBit(m, 4 * i + 1);
    OneBit(m, 4 * i + 2);
    OneBit(m, 4 * i + 3);
  }

  function Bit(b: bool): nat { if b then 1 else 0 }

  lemma OneBit(m: Word, j: nat)
    requires j < |m|
    ensures BitCount(m[..j + 1]) == BitCount(m[..j]) + Bit(m[j])
  {
    assert m[..j + 1][..j] == m[..j];
  }

  lemma {:induction false} MaskedDigits(p: Prod, q: Prod, dist: nat, k: nat, i: nat, nv: nat, no: nat)
    requires Apart(p, q, dist, nv, no) && k < CubeCount(dist) && i <= 4
    ensures var ds := Diffs(p.lits, q.lits, nv);
      |ds| <= 4 && BitCount(And(LiteralMask(p.lits, q.lits, ds), WordOf(LitMask(dist, k)))[..4 * i]) ==
        DiffLiterals(RuleProd(p, q, dist, k).lits, ds[..if i <= |ds| then i else |ds|])
  {
    hide CubeRule, LitMask, LiteralMask, WordOf, RuleProd;
    var ds, r := Diffs(p.lits, q.lits, nv), RuleProd(p, q, dist, k);
    if i > 0 {
      MaskedDigits(p, q, dist, k, i - 1, nv, no);
      MaskedDigit(p, q, dist, k, i - 1, nv, no);
      if i <= |ds| {
        assert ds[..i] == ds[..i - 1] + [ds[i - 1]];
        DiffLiteralStep(r.lits, ds[..i - 1], ds[i - 1]);
      }
    }
  }

  // CubeLiterals: counting the masked bits gives the literals that the rule of the cube puts
  // into the differing positions.
  lemma MaskedCount(p: Prod, q: Prod, dist: nat, k: nat, nv: nat, no: nat)
    requires Apart(p, q, dist, nv, no) && k < CubeCount(dist)
    ensures var ds := Diffs(p.lits, q.lits, nv);
      |ds| <= 4 &&
      BitCount(And(LiteralMask(p.lits, q.lits, ds), WordOf(LitMask(dist, k)))) ==
          DiffLiterals(RuleProd(p, q, dist, k).lits, ds)
  {
    hide CubeRule, LitMask, LiteralMask, WordOf, RuleProd;
    MaskedDigits(p, q, dist, k, 4, nv, no);
    var ds := Diffs(p.lits, q.lits, nv);
    var m := And(LiteralMask(p.lits, q.lits, ds), WordOf(LitMask(dist, k)));
    assert m[..16] == m && ds[..|ds|] == ds;
  }

  // StartingLiterals and CubeLiterals for a pair.
  ghost predicate Counts(p: Prod, q: Prod, dist: nat, starting: int, counts: seq<nat>) {
    && dist < 3 && |p.lits| == |q.lits| && |p.outs| == |q.outs| && Distance(p, q) == dist + 2
    && |counts| == CubeCount(dist)
    && var ds := Diffs(p.lits, q.lits, |p.lits|);
      && starting == Literals(p.lits) - DiffLiterals(p.lits, ds)
      && forall k :: 0 <= k < CubeCount(dist) ==> counts[k] == DiffLiterals(RuleProd(p, q, dist, k).lits, ds)
  }

  // The literal count that a created cube gets is its number of literals.
  lemma CountedLiterals(p: Prod, q: Prod, dist: nat, k: nat, starting: int, counts: seq<nat>, nv: nat, no: nat)
    requires Counts(p, q, dist, starting, counts) && Apart(p, q, dist, nv, no) && k < CubeCount(dist)
    ensures k < |counts| && starting + counts[k] == Literals(RuleProd(p, q, dist, k).lits)
  {
    hide RuleProd, DiffLiterals, Literals;
    RuleLiterals(p, q, dist, k, nv, no);
  }

  // MaskLiterals and StartingLiterals, one differing position after the other.
  method MaskPair(p: Prod, q: Prod, a: int) returns (mask: Word, starting: int)
    requires |p.lits| == |q.lits| && |Diffs(p.lits, q.lits, |p.lits|)| <= 4
    ensures var ds := Diffs(p.lits, q.lits, |p.lits|);
      mask == LiteralMask(p.lits, q.lits, ds) && starting == a - DiffLiterals(p.lits, ds)
  {
    hide Pick, LiteralMask, DiffLiterals;
    var ds := Diffs(p.lits, q.lits, |p.lits|);
    mask, starting := [], a;
    assert ds[..0] == [];
    NoneMasked(p.lits, ds);
    for i := 0 to |ds|
      invariant mask == LiteralMask(p.lits, q.lits, ds)[..4 * i] && starting == a - DiffLiterals(p.lits, ds[..i])
    {
      var u, v := p.lits[ds[i]], q.lits[ds[i]];
      MaskStep(p.lits, q.lits, ds, i);
      mask := mask + [Pick(0, u, v) != 3, Pick(1, u, v) != 3, Pick(2, u, v) != 3, false];
      starting := starting - if u == 3 then 0 else 1;
    }
    MaskEnd(p.lits, q.lits, ds);
    mask := mask + seq(16 - |mask|, j => false);
  }

  lemma NoneMasked(p: seq<nat>, ds: seq<nat>)
    requires forall i :: 0 <= i < |ds| ==> ds[i] < |p|
    ensures DiffLiterals(p, ds[..0]) == 0
  {
  }

  lemma MaskEnd(p: seq<nat>, q: seq<nat>, ds: seq<nat>)
    requires |p| == |q| && |ds| <= 4 && forall i :: 0 <= i < |ds| ==> ds[i] < |p|
    ensures LiteralMask(p, q, ds)[..4 * |ds|] + seq(16 - 4 * |ds|, j => false) == LiteralMask(p, q, ds)
    ensures ds[..|ds|] == ds
  {
  }

  lemma MaskStep(p: seq<nat>, q: seq<nat>, ds: seq<nat>, i: nat)
    requires |p| == |q| && |ds| <= 4 && (forall j :: 0 <= j < |ds| ==> ds[j] < |p|) && i < |ds|
    ensures var m := LiteralMask(p, q, ds); var u, v := p[ds[i]], q[ds[i]];
      m[..4 * i + 4] == m[..4 * i] + [Pick(0, u, v) != 3, Pick(1, u, v) != 3, Pick(2, u, v) != 3, false] &&
      DiffLiterals(p, ds[..i + 1]) == DiffLiterals(p, ds[..i]) + if u == 3 then 0 else 1
  {
    hide Pick, LiteralMask;
    assert ds[..i + 1] == ds[..i] + [ds[i]];
    DiffLiteralStep(p, ds[..i], ds[i]);
    LiteralBit(p, q, ds, i, 0);
    LiteralBit(p, q, ds, i, 1);
    LiteralBit(p, q, ds, i, 2);
    LiteralBit(p, q, ds, i, 3);
    FourMore(LiteralMask(p, q, ds), i);
  }

  lemma FourMore(m: Word, i: nat)
    requires 4 * i + 4 <= |m|
    ensures m[..4 * i + 4] == m[..4 * i] + [m[4 * i + 0], m[4 * i + 1], m[4 * i + 2], m[4 * i + 3]]
  {
  }

  lemma ApartShape(p: Prod, q: Prod, dist: nat, nv: nat, no: nat)
    requires Apart(p, q, dist, nv, no)
    ensures |p.lits| == |q.lits| == nv && |p.outs| == |q.outs| == no
  {
  }

  // The counts of a pair, by masking.
  method CountPair(p: Prod, q: Prod, dist: nat, a: int, ghost nv: nat, ghost no: nat)
    returns (starting: int, counts: seq<nat>)
    requires Apart(p, q, dist, nv, no) && a == Literals(p.lits)
    ensures Counts(p, q, dist, starting, counts)
  {
    hide CubeRule, LitMask, LiteralMask, WordOf, RuleProd, Good, BitCount, DiffLiterals, Literals;
    ApartShape(p, q, dist, nv, no);
    MaskedCount(p, q, dist, 0, nv, no);
    var mask;
    mask, starting := MaskPair(p, q, a);
    counts := [];
    for k := 0 to CubeCount(dist)
      invariant |counts| == k
      invariant forall j :: 0 <= j < k ==>
        counts[j] == DiffLiterals(RuleProd(p, q, dist, j).lits, Diffs(p.lits, q.lits, |p.lits|))
    {
      MaskedCount(p, q, dist, k, nv, no);
      counts := counts + [BitCount(And(mask, WordOf(LitMask(dist, k))))];
    }
  }

  // ---- Group costs ----

  // GroupCosts: the literals that the first c cubes of a group have in the differing positions.
  function GroupCost(counts: seq<nat>, dist: nat, g: nat, c: nat): nat
    requires dist < 3 && g < GroupCount(dist) && c <= dist + 2 && |counts| == CubeCount(dist)
  {
    GroupShape(dist, g);
    if c == 0 then 0 else GroupCost(counts, dist, g, c - 1) + counts[GroupRule(dist, g)[c - 1]]
  }

  // All literals of the first c cubes of a group.
  function GroupLiterals(p: Prod, q: Prod, dist: nat, g: nat, c: nat): nat
    requires dist < 3 && g < GroupCount(dist) && c <= dist + 2
    requires |p.lits| == |q.lits| && |p.outs| == |q.outs| && Distance(p, q) == dist + 2
  {
    GroupShape(dist, g);
    if c == 0 then 0
    else GroupLiterals(p, q, dist, g, c - 1) + Literals(RuleProd(p, q, dist, GroupRule(dist, g)[c - 1]).lits)
  }

  // The cost of a group orders the groups by all the literals of their cubes.
  lemma {:induction false} CostIsLiterals(p: Prod, q: Prod, dist: nat, g: nat, c: nat, starting: int,
                                          counts: seq<nat>, nv: nat, no: nat)
    requires Counts(p, q, dist, starting, counts) && Apart(p, q, dist, nv, no) && g < GroupCount(dist) && c <= dist + 2
    ensures GroupLiterals(p, q, dist, g, c) == c * starting + GroupCost(counts, dist, g, c)
  {
    hide GroupRule, RuleProd, Counts, Literals;
    GroupShape(dist, g);
    CountsShape(p, q, dist, starting, counts);
    if c > 0 {
      CostIsLiterals(p, q, dist, g, c - 1, starting, counts, nv, no);
      CountedLiterals(p, q, dist, GroupRule(dist, g)[c - 1], starting, counts, nv, no);
    }
  }

  lemma CountsShape(p: Prod, q: Prod, dist: nat, starting: int, counts: seq<nat>)
    requires Counts(p, q, dist, starting, counts)
    ensures dist < 3 && |counts| == CubeCount(dist)
  {
  }
}
