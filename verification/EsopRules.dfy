// The ExorLink rule tables, and the identity that every group of every table satisfies.
module EsopRules {
  // s_ELCubeRules: where each differing position of cube k comes from: 0 the first cube,
  // 1 the second, 2 their EXOR.
  function CubeRule(dist: nat, k: nat): seq<nat>
    requires dist < 3
  {
    match dist
    case 0 => (match k
      case 0 => [2, 0] case 1 => [2, 1] case 2 => [0, 2] case _ => [1, 2])
    case 1 => (match k
      case 0 => [2, 0, 0] case 1 => [2, 0, 1] case 2 => [2, 1, 0] case 3 => [2, 1, 1]
      case 4 => [0, 2, 0] case 5 => [0, 2, 1] case 6 => [1, 2, 0] case 7 => [1, 2, 1]
      case 8 => [0, 0, 2] case 9 => [0, 1, 2] case 10 => [1, 0, 2] case _ => [1, 1, 2])
    case _ => (match k
      case 0 => [2, 0, 0, 0] case 1 => [2, 0, 0, 1] case 2 => [2, 0, 1, 0] case 3 => [2, 0, 1, 1]
      case 4 => [2, 1, 0, 0] case 5 => [2, 1, 0, 1] case 6 => [2, 1, 1, 0] case 7 => [2, 1, 1, 1]
      case 8 => [0, 2, 0, 0] case 9 => [0, 2, 0, 1] case 10 => [0, 2, 1, 0] case 11 => [0, 2, 1, 1]
      case 12 => [1, 2, 0, 0] case 13 => [1, 2, 0, 1] case 14 => [1, 2, 1, 0] case 15 => [1, 2, 1, 1]
      case 16 => [0, 0, 2, 0] case 17 => [0, 0, 2, 1] case 18 => [0, 1, 2, 0] case 19 => [0, 1, 2, 1]
      case 20 => [1, 0, 2, 0] case 21 => [1, 0, 2, 1] case 22 => [1, 1, 2, 0] case 23 => [1, 1, 2, 1]
      case 24 => [0, 0, 0, 2] case 25 => [0, 0, 1, 2] case 26 => [0, 1, 0, 2] case 27 => [0, 1, 1, 2]
      case 28 => [1, 0, 0, 2] case 29 => [1, 0, 1, 2] case 30 => [1, 1, 0, 2] case _ => [1, 1, 1, 2])
  }

  // s_ELGroupRules: the cubes of group k.
  function GroupRule(dist: nat, k: nat): seq<nat>
    requires dist < 3
  {
    match dist
    case 0 => (match k
      case 0 => [0, 3] case _ => [2, 1])
    case 1 => (match k
      case 0 => [0, 6, 11] case 1 => [0, 7, 10] case 2 => [4, 2, 11] case 3 => [4, 3, 9]
      case 4 => [8, 1, 7] case _ => [8, 3, 5])
    case _ => (match k
      case 0 => [0, 12, 22, 31] case 1 => [0, 12, 23, 30] case 2 => [0, 20, 14, 31] case 3 => [0, 20, 15, 29]
      case 4 => [0, 28, 13, 23] case 5 => [0, 28, 15, 21] case 6 => [8, 4, 22, 31] case 7 => [8, 4, 23, 30]
      case 8 => [8, 18, 6, 31] case 9 => [8, 18, 7, 27] case 10 => [8, 26, 5, 23] case 11 => [8, 26, 7, 19]
      case 12 => [16, 2, 14, 31] case 13 => [16, 2, 15, 29] case 14 => [16, 10, 6, 31] case 15 => [16, 10, 7, 27]
      case 16 => [16, 25, 3, 15] case 17 => [16, 25, 7, 11] case 18 => [24, 1, 13, 23] case 19 => [24, 1, 15, 21]
      case 20 => [24, 9, 5, 23] case 21 => [24, 9, 7, 19] case 22 => [24, 17, 3, 15] case _ => [24, 17, 7, 11])
  }

  // s_CubeLitMasks: bit 4 * i + r of the mask of cube k is set when position i has rule r.
  function LitMask(dist: nat, k: nat): nat
    requires dist < 3
  {
    match dist
    case 0 => (match k
      case 0 => 0x14 case 1 => 0x24 case 2 => 0x41 case _ => 0x42)
    case 1 => (match k
      case 0 => 0x114 case 1 => 0x214 case 2 => 0x124 case 3 => 0x224 case 4 => 0x141
      case 5 => 0x241 case 6 => 0x142 case 7 => 0x242
      case 8 => 0x411 case 9 => 0x421 case 10 => 0x412 case _ => 0x422)
    case _ => (match k
      case 0 => 0x1114 case 1 => 0x2114 case 2 => 0x1214 case 3 => 0x2214 case 4 => 0x1124
      case 5 => 0x2124 case 6 => 0x1224 case 7 => 0x2224
      case 8 => 0x1141 case 9 => 0x2141 case 10 => 0x1241 case 11 => 0x2241 case 12 => 0x1142
      case 13 => 0x2142 case 14 => 0x1242 case 15 => 0x2242
      case 16 => 0x1411 case 17 => 0x2411 case 18 => 0x1421 case 19 => 0x2421 case 20 => 0x1412
      case 21 => 0x2412 case 22 => 0x1422 case 23 => 0x2422
      case 24 => 0x4111 case 25 => 0x4211 case 26 => 0x4121 case 27 => 0x4221 case 28 => 0x4112
      case 29 => 0x4212 case 30 => 0x4122 case _ => 0x4222)
  }

  function GroupCount(dist: nat): nat { if dist == 0 then 2 else if dist == 1 then 6 else 24 }

  function CubeCount(dist: nat): nat { if dist == 0 then 4 else if dist == 1 then 12 else 32 }

  // The value of a position under rule r when the two cubes give it the values a and b.
  predicate Term(r: nat, a: bool, b: bool) {
    if r == 0 then a else if r == 1 then b else a != b
  }

  ghost predicate TermAll(rule: seq<nat>, a: seq<bool>, b: seq<bool>)
    requires |rule| == |a| == |b|
  {
    forall i :: 0 <= i < |rule| ==> Term(rule[i], a[i], b[i])
  }

  ghost predicate All(a: seq<bool>) {
    forall i :: 0 <= i < |a| ==> a[i]
  }

  lemma RuleShape(dist: nat, k: nat)
    requires dist < 3 && k < CubeCount(dist)
    ensures |CubeRule(dist, k)| == dist + 2 && forall i :: 0 <= i < dist + 2 ==> CubeRule(dist, k)[i] <= 2
  {
  }

  lemma GroupShape(dist: nat, g: nat)
    requires dist < 3 && g < GroupCount(dist)
    ensures |GroupRule(dist, g)| == dist + 2
    ensures forall c :: 0 <= c < dist + 2 ==> GroupRule(dist, g)[c] < CubeCount(dist)
    ensures forall c, d :: 0 <= c < d < dist + 2 ==> GroupRule(dist, g)[c] != GroupRule(dist, g)[d]
  {
  }

  // The exclusive or of the cubes c, c + 1, ... of a group.
  ghost function GroupSum(dist: nat, g: nat, c: nat, a: seq<bool>, b: seq<bool>): bool
    requires dist < 3 && g < GroupCount(dist) && |a| == |b| == dist + 2 && c <= dist + 2
    decreases dist + 2 - c
  {
    GroupShape(dist, g);
    if c == dist + 2 then false
    else
      RuleShape(dist, GroupRule(dist, g)[c]);
      TermAll(CubeRule(dist, GroupRule(dist, g)[c]), a, b) != GroupSum(dist, g, c + 1, a, b)
  }

  // The groups with an odd number have their last two cubes the other way round.
  function InChain(dist: nat, g: nat, c: nat): (r: nat)
    requires c < dist + 2
    ensures r < dist + 2
  {
    if dist > 0 && g % 2 == 1 && c >= dist then 2 * dist + 1 - c else c
  }

  // The cube at place c of a group in that order, and its position i.
  function ChainCube(dist: nat, g: nat, c: nat): (k: nat)
    requires dist < 3 && g < GroupCount(dist) && c < dist + 2
    ensures k < CubeCount(dist)
  {
    GroupShape(dist, g);
    GroupRule(dist, g)[InChain(dist, g, c)]
  }

  function RuleAt(dist: nat, g: nat, c: nat, i: nat): nat
    requires dist < 3 && g < GroupCount(dist) && c < dist + 2 && i < dist + 2
  {
    RuleShape(dist, ChainCube(dist, g, c));
    CubeRule(dist, ChainCube(dist, g, c))[i]
  }

  // One switch from cube c to the next, read off the tables in parts.
  ghost predicate Switches(dist: nat, g: nat, c: nat, i: nat) {
    dist < 3 && g < GroupCount(dist) && c < dist + 1 && i < dist + 2 &&
    (RuleAt(dist, g, c + 1, i) == 1 <==> RuleAt(dist, g, c, i) != 0)
  }

  lemma SwitchSmall(dist: nat, g: nat, c: nat, i: nat)
    requires dist < 2 && g < GroupCount(dist) && c < dist + 1 && i < dist + 2
    ensures Switches(dist, g, c, i)
  {
    RuleShape(dist, ChainCube(dist, g, c));
    RuleShape(dist, ChainCube(dist, g, c + 1));
    if dist == 0 { assert c == 0; } else if c == 0 { } else { assert c == 1; }
    if i == 0 { } else if i == 1 { } else { assert i == 2; }
  }

  lemma SwitchFirst(g: nat, c: nat, i: nat)
    requires g < 4 && c < 3 && i < 4
    ensures Switches(2, g, c, i)
  {
    RuleShape(2, ChainCube(2, g, c));
    RuleShape(2, ChainCube(2, g, c + 1));
    if c == 0 { } else if c == 1 { } else { assert c == 2; }
    if i == 0 { } else if i == 1 { } else if i == 2 { } else { assert i == 3; }
  }

  lemma SwitchSecond(g: nat, c: nat, i: nat)
    requires 4 <= g < 8 && c < 3 && i < 4
    ensures Switches(2, g, c, i)
  {
    RuleShape(2, ChainCube(2, g, c));
    RuleShape(2, ChainCube(2, g, c + 1));
    if c == 0 { } else if c == 1 { } else { assert c == 2; }
    if i == 0 { } else if i == 1 { } else if i == 2 { } else { assert i == 3; }
  }

  lemma SwitchThird(g: nat, c: nat, i: nat)
    requires 8 <= g < 12 && c < 3 && i < 4
    ensures Switches(2, g, c, i)
  {
    RuleShape(2, ChainCube(2, g, c));
    RuleShape(2, ChainCube(2, g, c + 1));
    if c == 0 { } else if c == 1 { } else { assert c == 2; }
    if i == 0 { } else if i == 1 { } else if i == 2 { } else { assert i == 3; }
  }

  lemma SwitchFourth(g: nat, c: nat, i: nat)
    requires 12 <= g < 16 && c < 3 && i < 4
    ensures Switches(2, g, c, i)
  {
    RuleShape(2, ChainCube(2, g, c));
    RuleShape(2, ChainCube(2, g, c + 1));
    if c == 0 { } else if c == 1 { } else { assert c == 2; }
    if i == 0 { } else if i == 1 { } else if i == 2 { } else { assert i == 3; }
  }

  lemma SwitchFifth(g: nat, c: nat, i: nat)
    requires 16 <= g < 20 && c < 3 && i < 4
    ensures Switches(2, g, c, i)
  {
    RuleShape(2, ChainCube(2, g, c));
    RuleShape(2, ChainCube(2, g, c + 1));
    if c == 0 { } else if c == 1 { } else { assert c == 2; }
    if i == 0 { } else if i == 1 { } else if i == 2 { } else { assert i == 3; }
  }

  lemma SwitchSixth(g: nat, c: nat, i: nat)
    requires 20 <= g < 24 && c < 3 && i < 4
    ensures Switches(2, g, c, i)
  {
    RuleShape(2, ChainCube(2, g, c));
    RuleShape(2, ChainCube(2, g, c + 1));
    if c == 0 { } else if c == 1 { } else { assert c == 2; }
    if i == 0 { } else if i == 1 { } else if i == 2 { } else { assert i == 3; }
  }

  lemma FirstOfColumn(dist: nat, g: nat, i: nat)
    requires dist < 3 && g < GroupCount(dist) && i < dist + 2
    ensures RuleAt(dist, g, 0, i) != 1
  {
    if i == 0 { } else if i == 1 { } else if i == 2 { } else { assert i == 3; }
    if dist == 0 { } else if dist == 1 { } else { assert dist == 2; }
  }

  lemma LastOfColumn(dist: nat, g: nat, i: nat)
    requires dist < 3 && g < GroupCount(dist) && i < dist + 2
    ensures RuleAt(dist, g, dist + 1, i) != 0
  {
    if i == 0 { } else if i == 1 { } else if i == 2 { } else { assert i == 3; }
    if dist == 0 { } else if dist == 1 { } else { assert dist == 2; }
  }

  // Along a group every position goes from the first cube through the sum to the second.
  lemma Column(dist: nat, g: nat, i: nat)
    requires dist < 3 && g < GroupCount(dist) && i < dist + 2
    ensures RuleAt(dist, g, 0, i) != 1 && RuleAt(dist, g, dist + 1, i) != 0
    ensures forall c :: 0 <= c < dist + 1 ==> Switches(dist, g, c, i)
  {
    hide RuleAt, GroupRule, CubeRule, Switches;
    FirstOfColumn(dist, g, i);
    LastOfColumn(dist, g, i);
    forall c | 0 <= c < dist + 1 ensures Switches(dist, g, c, i) {
      if dist < 2 { SwitchSmall(dist, g, c, i); }
      else if g < 4 { SwitchFirst(g, c, i); }
      else if g < 8 { SwitchSecond(g, c, i); }
      else if g < 12 { SwitchThird(g, c, i); }
      else if g < 16 { SwitchFourth(g, c, i); }
      else if g < 20 { SwitchFifth(g, c, i); }
      else { SwitchSixth(g, c, i); }
    }
  }

  // Each cube has the sum in one position.
  lemma SumsInRule(dist: nat, k: nat, i: nat, j: nat)
    requires dist < 3 && k < CubeCount(dist) && i < j < dist + 2
    ensures |CubeRule(dist, k)| == dist + 2 && (CubeRule(dist, k)[i] != 2 || CubeRule(dist, k)[j] != 2)
  {
  }

  lemma SumInRule(dist: nat, k: nat) returns (i: nat)
    requires dist < 3 && k < CubeCount(dist)
    ensures i < dist + 2 == |CubeRule(dist, k)| && CubeRule(dist, k)[i] == 2
  {
    RuleShape(dist, k);
    var r := CubeRule(dist, k);
    i := if r[0] == 2 then 0 else if r[1] == 2 then 1 else if dist == 0 || r[2] == 2 then 2 else 3;
  }

  lemma OneSum(dist: nat, g: nat, c: nat, i: nat, j: nat)
    requires dist < 3 && g < GroupCount(dist) && c < dist + 2 && i < j < dist + 2
    ensures RuleAt(dist, g, c, i) != 2 || RuleAt(dist, g, c, j) != 2
    ensures exists k :: 0 <= k < dist + 2 && RuleAt(dist, g, c, k) == 2
  {
    hide GroupRule, CubeRule;
    SumsInRule(dist, ChainCube(dist, g, c), i, j);
    var k := SumInRule(dist, ChainCube(dist, g, c));
    assert RuleAt(dist, g, c, k) == 2;
  }

  // The values on the way from the first cube to the second, before cube c.
  ghost function Mixed(dist: nat, g: nat, c: nat, a: seq<bool>, b: seq<bool>): (r: seq<bool>)
    requires dist < 3 && g < GroupCount(dist) && c <= dist + 2 && |a| == |b| == dist + 2
    ensures |r| == dist + 2
  {
    seq(dist + 2, i requires 0 <= i < dist + 2 =>
      if c == dist + 2 || RuleAt(dist, g, c, i) == 1 then b[i] else a[i])
  }

  // One cube is the difference of two neighbouring products.
  lemma OneStep(dist: nat, g: nat, c: nat, a: seq<bool>, b: seq<bool>)
    requires dist < 3 && g < GroupCount(dist) && c < dist + 2 && |a| == |b| == dist + 2
    ensures |CubeRule(dist, ChainCube(dist, g, c))| == dist + 2
    ensures TermAll(CubeRule(dist, ChainCube(dist, g, c)), a, b) ==
      (All(Mixed(dist, g, c, a, b)) != All(Mixed(dist, g, c + 1, a, b)))
  {
    hide GroupRule, CubeRule, ChainCube;
    RuleShape(dist, ChainCube(dist, g, c));
    OneSum(dist, g, c, 0, 1);
    var rule := CubeRule(dist, ChainCube(dist, g, c));
    assert forall i :: 0 <= i < dist + 2 ==> rule[i] == RuleAt(dist, g, c, i);
    var x :| 0 <= x < dist + 2 && RuleAt(dist, g, c, x) == 2;
    var s, t := Mixed(dist, g, c, a, b), Mixed(dist, g, c + 1, a, b);
    forall i | 0 <= i < dist + 2 && i != x ensures s[i] == t[i] == Term(rule[i], a[i], b[i]) {
      Column(dist, g, i);
      assert c < dist + 1 ==> Switches(dist, g, c, i);
      OneSum(dist, g, c, if i < x then i else x, if i < x then x else i);
    }
    Column(dist, g, x);
    assert c < dist + 1 ==> Switches(dist, g, c, x);
    assert s[x] == a[x] && t[x] == b[x];
    Differ(s, t, x, rule, a, b);
  }

  lemma Differ(s: seq<bool>, t: seq<bool>, x: nat, rule: seq<nat>, a: seq<bool>, b: seq<bool>)
    requires |s| == |t| == |rule| == |a| == |b| && x < |s| && rule[x] == 2 && s[x] == a[x] && t[x] == b[x]
    requires forall i :: 0 <= i < |s| && i != x ==> s[i] == t[i] == Term(rule[i], a[i], b[i])
    ensures TermAll(rule, a, b) == (All(s) != All(t))
  {
    assert Term(rule[x], a[x], b[x]) == (s[x] != t[x]);
    if forall i :: 0 <= i < |s| && i != x ==> s[i] {
      assert All(s) == s[x] && All(t) == t[x];
    } else {
      var i :| 0 <= i < |s| && i != x && !s[i];
      assert !All(s) && !All(t) && !TermAll(rule, a, b);
    }
  }

  ghost function ChainSum(dist: nat, g: nat, c: nat, a: seq<bool>, b: seq<bool>): bool
    requires dist < 3 && g < GroupCount(dist) && |a| == |b| == dist + 2 && c <= dist + 2
    decreases dist + 2 - c
  {
    if c == dist + 2 then false
    else
      RuleShape(dist, ChainCube(dist, g, c));
      TermAll(CubeRule(dist, ChainCube(dist, g, c)), a, b) != ChainSum(dist, g, c + 1, a, b)
  }

  lemma {:induction false} Telescope(dist: nat, g: nat, c: nat, a: seq<bool>, b: seq<bool>)
    requires dist < 3 && g < GroupCount(dist) && c <= dist + 2 && |a| == |b| == dist + 2
    ensures ChainSum(dist, g, c, a, b) == (All(Mixed(dist, g, c, a, b)) != All(b))
    decreases dist + 2 - c
  {
    hide GroupRule, CubeRule, ChainCube, All, TermAll, RuleAt;
    if c == dist + 2 {
      assert Mixed(dist, g, c, a, b) == b;
    } else {
      Telescope(dist, g, c + 1, a, b);
      OneStep(dist, g, c, a, b);
    }
  }

  // The order within a group does not matter.
  lemma {:induction false} ReorderedSum(dist: nat, g: nat, c: nat, a: seq<bool>, b: seq<bool>)
    requires dist < 3 && g < GroupCount(dist) && c <= dist && |a| == |b| == dist + 2
    ensures GroupSum(dist, g, c, a, b) == ChainSum(dist, g, c, a, b)
    decreases dist - c
  {
    hide GroupRule, CubeRule, All, TermAll, RuleAt;
    GroupShape(dist, g);
    if c == dist {
      RuleShape(dist, GroupRule(dist, g)[dist]);
      RuleShape(dist, GroupRule(dist, g)[dist + 1]);
      assert GroupSum(dist, g, dist + 2, a, b) == ChainSum(dist, g, dist + 2, a, b) == false;
    } else {
      ReorderedSum(dist, g, c + 1, a, b);
    }
  }

  // Whatever the two cubes are, the cubes of a group add up to their sum.
  lemma GroupIdentity(dist: nat, g: nat, a: seq<bool>, b: seq<bool>)
    requires dist < 3 && g < GroupCount(dist) && |a| == |b| == dist + 2
    ensures GroupSum(dist, g, 0, a, b) == (All(a) != All(b))
  {
    hide GroupRule, CubeRule, ChainCube, RuleAt, GroupSum, ChainSum, All;
    ReorderedSum(dist, g, 0, a, b);
    Telescope(dist, g, 0, a, b);
    forall i | 0 <= i < dist + 2 ensures Mixed(dist, g, 0, a, b)[i] == a[i] {
      Column(dist, g, i);
    }
    assert Mixed(dist, g, 0, a, b) == a;
  }

  // Every cube is in some group: where to find it.
  function FirstUse(dist: nat, k: nat): (nat, nat)
    requires dist < 3
  {
    match dist
    case 0 => (match k
      case 0 => (0, 0) case 1 => (1, 1) case 2 => (1, 0) case _ => (0, 1))
    case 1 => (match k
      case 0 => (0, 0) case 1 => (4, 1) case 2 => (2, 1) case 3 => (3, 1) case 4 => (2, 0) case 5 => (5, 2)
      case 6 => (0, 1) case 7 => (1, 1) case 8 => (4, 0) case 9 => (3, 2) case 10 => (1, 2) case _ => (0, 2))
    case _ => (match k
      case 0 => (0, 0) case 1 => (18, 1) case 2 => (12, 1) case 3 => (16, 2) case 4 => (6, 1) case 5 => (10, 2)
      case 6 => (8, 2) case 7 => (9, 2) case 8 => (6, 0) case 9 => (20, 1) case 10 => (14, 1) case 11 => (17, 3)
      case 12 => (0, 1) case 13 => (4, 2) case 14 => (2, 2) case 15 => (3, 2) case 16 => (12, 0) case 17 => (22, 1)
      case 18 => (8, 1) case 19 => (11, 3) case 20 => (2, 1) case 21 => (5, 3) case 22 => (0, 2) case 23 => (1, 2)
      case 24 => (18, 0) case 25 => (16, 1) case 26 => (10, 1) case 27 => (9, 3) case 28 => (4, 1) case 29 => (3, 3)
      case 30 => (1, 3) case _ => (0, 3))
  }

  lemma EveryCubeInGroup(dist: nat, k: nat)
    requires dist < 3 && k < CubeCount(dist)
    ensures var u := FirstUse(dist, k);
      u.0 < GroupCount(dist) && u.1 < |GroupRule(dist, u.0)| && GroupRule(dist, u.0)[u.1] == k
  {
  }
}
