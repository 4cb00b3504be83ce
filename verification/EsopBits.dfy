// Cubes packed into words: the word loops that find the differing positions of two cubes
// compute the distance and the differing variables of the cubes they stand for.
module EsopBits {
  import opened EsopCube

  // A word as its bits, the lowest first.
  type Word = seq<bool>

  ghost predicate Words(ws: seq<Word>) {
    forall i :: 0 <= i < |ws| ==> |ws[i]| == 32
  }

  function Xor(a: Word, b: Word): (r: Word)
    requires |a| == |b|
    ensures |r| == |a|
  {
    seq(|a|, j requires 0 <= j < |a| => a[j] != b[j])
  }

  function Or(a: Word, b: Word): (r: Word)
    requires |a| == |b|
    ensures |r| == |a|
  {
    seq(|a|, j requires 0 <= j < |a| => a[j] || b[j])
  }

  function And(a: Word, b: Word): (r: Word)
    requires |a| == |b|
    ensures |r| == |a|
  {
    seq(|a|, j requires 0 <= j < |a| => a[j] && b[j])
  }

  function Shr(a: Word, k: nat): (r: Word)
    ensures |r| == |a|
  {
    seq(|a|, j requires 0 <= j < |a| => j + k < |a| && a[j + k])
  }

  function Shl(a: Word, k: nat): (r: Word)
    ensures |r| == |a|
  {
    seq(|a|, j requires 0 <= j < |a| => k <= j && a[j - k])
  }

  predicate NonZero(a: Word) {
    exists j :: 0 <= j < |a| && a[j]
  }

  // BitCount.
  function BitCount(w: Word): nat {
    if w == [] then 0 else BitCount(w[..|w| - 1]) + if w[|w| - 1] then 1 else 0
  }

  // DIFFERENT: 0x55555555.
  function Different(): (r: Word)
    ensures |r| == 32
  {
    seq(32, j requires 0 <= j => j % 2 == 0)
  }

  // The two bits of variable k of a word.
  function Field(w: Word, k: nat): (r: nat)
    requires 2 * k + 1 < |w|
    ensures r <= 3
  {
    (if w[2 * k] then 1 else 0) + if w[2 * k + 1] then 2 else 0
  }

  // The literal codes that the words hold, 16 in each.
  function Unpack(ws: seq<Word>): (r: seq<nat>)
    requires forall i :: 0 <= i < |ws| ==> |ws[i]| == 32
    ensures |r| == 16 * |ws|
  {
    seq(16 * |ws|, v requires 0 <= v < 16 * |ws| => Field(ws[v / 16], v % 16))
  }

  // The output bits that the words hold, 32 in each.
  function Outs(ws: seq<Word>): seq<bool> {
    if ws == [] then [] else Outs(ws[..|ws| - 1]) + ws[|ws| - 1]
  }

  function Cube(ins: seq<Word>, outs: seq<Word>): Prod
    requires forall i :: 0 <= i < |ins| ==> |ins[i]| == 32
  {
    Prod(Unpack(ins), Outs(outs))
  }

  // Temp2: the low bit of each variable in which the words differ.
  function Marks(a: Word, b: Word): (r: Word)
    requires |a| == |b| == 32
    ensures |r| == 32
  {
    And(Or(Xor(a, b), Shr(Xor(a, b), 1)), Different())
  }

  // ---- One word ----

  lemma MarkBits(a: Word, b: Word, k: nat)
    requires |a| == |b| == 32 && k < 16
    ensures Marks(a, b)[2 * k] == (Field(a, k) != Field(b, k)) && !Marks(a, b)[2 * k + 1]
  {
  }

  lemma FieldAt(ws: seq<Word>, i: nat, k: nat)
    requires Words(ws) && i < |ws| && k < 16
    ensures Unpack(ws)[16 * i + k] == Field(ws[i], k)
  {
    assert (16 * i + k) / 16 == i && (16 * i + k) % 16 == k;
  }

  // The marked variables among those from k up to m.
  function Marked(w: Word, k: nat, m: nat): (r: seq<nat>)
    requires k <= m && 2 * m <= |w|
    ensures |r| <= m - k && forall j :: 0 <= j < |r| ==> k <= r[j] < m
    decreases m - k
  {
    if m == k then []
    else if w[2 * (m - 1)] then Marked(w, k, m - 1) + [m - 1] else Marked(w, k, m - 1)
  }

  function Shifted(s: seq<nat>, d: nat): (r: seq<nat>)
    ensures |r| == |s| && forall j :: 0 <= j < |r| ==> r[j] == s[j] + d
  {
    seq(|s|, j requires 0 <= j < |s| => s[j] + d)
  }

  // The differing variables of word i are the marked ones.
  lemma {:induction false} WordDiffs(a: seq<Word>, b: seq<Word>, i: nat, k: nat, m: nat)
    requires Words(a) && Words(b) && i < |a| == |b| && k <= m <= 16
    ensures Diffs(Unpack(a), Unpack(b), 16 * i + m) ==
      Diffs(Unpack(a), Unpack(b), 16 * i + k) + Shifted(Marked(Marks(a[i], b[i]), k, m), 16 * i)
    decreases m - k
  {
    hide Unpack, Marks, Field, Diffs, Marked, Shifted;
    if m > k {
      WordDiffs(a, b, i, k, m - 1);
      MarkBits(a[i], b[i], m - 1);
      FieldAt(a, i, m - 1);
      FieldAt(b, i, m - 1);
      OneMore(Unpack(a), Unpack(b), 16 * i + m);
      MarkedMore(Marks(a[i], b[i]), k, m, 16 * i);
    }
  }

  lemma MarkedMore(w: Word, k: nat, m: nat, d: nat)
    requires k < m && 2 * m <= |w|
    ensures Shifted(Marked(w, k, m), d) == Shifted(Marked(w, k, m - 1), d) + if w[2 * (m - 1)] then [d + m - 1] else []
  {
  }

  lemma OneMore(p: seq<nat>, q: seq<nat>, k: nat)
    requires 0 < k <= |p| == |q|
    ensures Diffs(p, q, k) == Diffs(p, q, k - 1) + if p[k - 1] != q[k - 1] then [k - 1] else []
  {
  }

  // Counting the bits counts the marked variables.
  lemma {:induction false} MarkedCount(w: Word, k: nat, m: nat)
    requires k <= m && 2 * m <= |w| && forall j :: k <= j < m ==> !w[2 * j + 1]
    ensures BitCount(w[2 * k..2 * m]) == |Marked(w, k, m)|
    decreases m - k
  {
    if m > k {
      MarkedCount(w, k, m - 1);
      var t := w[2 * k..2 * m];
      assert t[..|t| - 1] == w[2 * k..2 * m - 1] && t[..|t| - 1][..|t| - 2] == w[2 * k..2 * (m - 1)];
    } else {
      assert w[2 * k..2 * m] == [];
    }
  }

  lemma MarksCount(a: Word, b: Word, k: nat, m: nat)
    requires |a| == |b| == 32 && k <= m <= 16
    ensures BitCount(Marks(a, b)[2 * k..2 * m]) == |Marked(Marks(a, b), k, m)|
  {
    hide Marks;
    forall j | k <= j < m ensures !Marks(a, b)[2 * j + 1] { MarkBits(a, b, j); }
    MarkedCount(Marks(a, b), k, m);
  }

  // ---- Output words ----

  lemma {:induction false} OutsDiffer(a: seq<Word>, b: seq<Word>)
    requires Words(a) && Words(b) && |a| == |b|
    ensures Outs(a) == Outs(b) <==> a == b
    ensures |Outs(a)| == 32 * |a|
    decreases |a|
  {
    if a != [] {
      var m := |a| - 1;
      OutsDiffer(a[..m], b[..m]);
      OutsDiffer(b[..m], b[..m]);
      assert a == a[..m] + [a[m]] && b == b[..m] + [b[m]];
      assert Outs(a)[..32 * m] == Outs(a[..m]) && Outs(b)[..32 * m] == Outs(b[..m]);
      assert Outs(a)[32 * m..] == a[m] && Outs(b)[32 * m..] == b[m];
    }
  }

  // Are there output words that differ?
  method OutputsDiffer(a: array<Word>, b: array<Word>) returns (yes: bool)
    requires Words(a[..]) && Words(b[..]) && a.Length == b.Length
    ensures yes <==> Outs(a[..]) != Outs(b[..])
  {
    yes := false;
    for i := 0 to a.Length
      invariant !yes && a[..i] == b[..i]
    {
      if a[i] != b[i] {
        yes := true;
        assert a[..][i] != b[..][i];
        OutsDiffer(a[..], b[..]);
        return;
      }
    }
    assert a[..] == a[..a.Length] && b[..] == b[..a.Length];
    OutsDiffer(a[..], b[..]);
  }

  // ---- Distance ----

  // The distance, where 5 stands for everything above 4.
  function Capped(d: nat): nat { if d > 4 then 5 else d }

  ghost predicate Pair(in1: seq<Word>, out1: seq<Word>, in2: seq<Word>, out2: seq<Word>) {
    Words(in1) && Words(out1) && Words(in2) && Words(out2) && |in1| == |in2| && |out1| == |out2|
  }

  // The differing variables of the first i words.
  function DiffsUpTo(a: seq<Word>, b: seq<Word>, i: nat): seq<nat>
    requires (forall j :: 0 <= j < |a| ==> |a[j]| == 32) && (forall j :: 0 <= j < |b| ==> |b[j]| == 32)
    requires i <= |a| == |b|
  {
    Diffs(Unpack(a), Unpack(b), 16 * i)
  }

  lemma NextWord(a: seq<Word>, b: seq<Word>, i: nat)
    requires Words(a) && Words(b) && i < |a| == |b|
    ensures var w := Marks(a[i], b[i]);
      && DiffsUpTo(a, b, i + 1) == DiffsUpTo(a, b, i) + Shifted(Marked(w, 0, 16), 16 * i)
      && BitCount(w) == |Marked(w, 0, 16)|
  {
    hide Marks, Unpack;
    WordDiffs(a, b, i, 0, 16);
    MarksCount(a[i], b[i], 0, 16);
    assert Marks(a[i], b[i])[0..32] == Marks(a[i], b[i]);
  }

  lemma {:induction false} MoreDiffs(p: seq<nat>, q: seq<nat>, i: nat, k: nat)
    requires i <= k <= |p| == |q|
    ensures Diffs(p, q, i) <= Diffs(p, q, k)
    decreases k - i
  {
    if i < k { MoreDiffs(p, q, i, k - 1); }
  }

  lemma FarAlready(a: seq<Word>, b: seq<Word>, i: nat, outs1: seq<Word>, outs2: seq<Word>)
    requires Pair(a, outs1, b, outs2) && i <= |a| && |DiffsUpTo(a, b, i)| > 4
    ensures Distance(Cube(a, outs1), Cube(b, outs2)) > 4
  {
    MoreDiffs(Unpack(a), Unpack(b), 16 * i, 16 * |a|);
  }

  // GetDistance.
  method GetDistance(in1: array<Word>, out1: array<Word>, in2: array<Word>, out2: array<Word>) returns (d: nat)
    requires Pair(in1[..], out1[..], in2[..], out2[..])
    ensures d == Capped(Distance(Cube(in1[..], out1[..]), Cube(in2[..], out2[..])))
  {
    hide Marks, Unpack, Diffs, BitCount, Outs;
    d := 0;
    for i := 0 to in1.Length
      invariant d == |DiffsUpTo(in1[..], in2[..], i)| <= 4
    {
      NextWord(in1[..], in2[..], i);
      d := d + BitCount(Marks(in1[i], in2[i]));
      if d > 4 {
        FarAlready(in1[..], in2[..], i + 1, out1[..], out2[..]);
        return 5;
      }
    }
    var differ := OutputsDiffer(out1, out2);
    if differ {
      d := d + 1;
    }
  }

  // ---- Single variables ----

  // GetVar: shift the word right and keep two bits.
  function GetVar(ws: seq<Word>, v: nat): (r: nat)
    requires (forall i :: 0 <= i < |ws| ==> |ws[i]| == 32) && v < 16 * |ws|
    ensures r == Unpack(ws)[v] && r <= 3
  {
    assert 2 * v / 32 == v / 16 && 2 * v % 32 == 2 * (v % 16);
    Field(Shr(ws[2 * v / 32], 2 * v % 32), 0)
  }

  // A code in the two lowest bits.
  function CodeWord(c: nat): (r: Word)
    ensures |r| == 32
  {
    seq(32, j requires 0 <= j => (j == 0 && c % 2 == 1) || (j == 1 && c / 2 == 1))
  }

  lemma ExorField(w: Word, k: nat, m: nat, c: nat)
    requires |w| == 32 && k < 16 && m < 16 && c <= 3
    ensures Field(Xor(w, Shl(CodeWord(c), 2 * k)), m) == if m == k then ExorCode(Field(w, k), c) else Field(w, m)
  {
    var x := Shl(CodeWord(c), 2 * k);
    if m == k {
      assert x[2 * k] == (c % 2 == 1) && x[2 * k + 1] == (c / 2 == 1);
    } else {
      assert !x[2 * m] && !x[2 * m + 1];
    }
  }

  // ExorVar.
  method ExorVar(ins: array<Word>, v: nat, c: nat)
    requires Words(ins[..]) && v < 16 * ins.Length && c <= 3
    modifies ins
    ensures Words(ins[..]) && Unpack(ins[..]) == old(Unpack(ins[..]))[v := ExorCode(old(Unpack(ins[..]))[v], c)]
  {
    assert 2 * v / 32 == v / 16 && 2 * v % 32 == 2 * (v % 16);
    ghost var was := ins[..];
    ins[2 * v / 32] := Xor(ins[2 * v / 32], Shl(CodeWord(c), 2 * v % 32));
    ExorUnpack(was, ins[..], v, c);
  }

  lemma ExorUnpack(a: seq<Word>, b: seq<Word>, v: nat, c: nat)
    requires Words(a) && v < 16 * |a| && c <= 3 && b == a[v / 16 := Xor(a[v / 16], Shl(CodeWord(c), 2 * (v % 16)))]
    ensures Words(b) && Unpack(b) == Unpack(a)[v := ExorCode(Unpack(a)[v], c)]
  {
    hide Field, Xor, Shl, CodeWord;
    forall m | 0 <= m < 16 * |a| ensures Unpack(b)[m] == Unpack(a)[v := ExorCode(Unpack(a)[v], c)][m] {
      if m / 16 == v / 16 {
        ExorField(a[v / 16], v % 16, m % 16, c);
        assert m % 16 == v % 16 ==> m == v;
      }
    }
  }

  // Clear the field of variable k, and put a code into an empty field.
  lemma ClearField(w: Word, k: nat, m: nat)
    requires |w| == 32 && k < 16 && m < 16
    ensures Field(And(w, Inverse(Shl(CodeWord(3), 2 * k))), m) == if m == k then 0 else Field(w, m)
  {
    var x := Shl(CodeWord(3), 2 * k);
    if m == k {
      assert x[2 * k] && x[2 * k + 1];
    } else {
      assert !x[2 * m] && !x[2 * m + 1];
    }
  }

  lemma FillField(w: Word, k: nat, m: nat, c: nat)
    requires |w| == 32 && k < 16 && m < 16 && c <= 3 && Field(w, k) == 0
    ensures Field(Or(w, Shl(CodeWord(c), 2 * k)), m) == if m == k then c else Field(w, m)
  {
    var x := Shl(CodeWord(c), 2 * k);
    if m == k {
      assert x[2 * k] == (c % 2 == 1) && x[2 * k + 1] == (c / 2 == 1);
    } else {
      assert !x[2 * m] && !x[2 * m + 1];
    }
  }

  function Inverse(a: Word): (r: Word)
    ensures |r| == |a|
  {
    seq(|a|, j requires 0 <= j < |a| => !a[j])
  }

  method Cleared(ins: array<Word>, v: nat)
    requires Words(ins[..]) && v < 16 * ins.Length
    modifies ins
    ensures Words(ins[..]) && Unpack(ins[..]) == old(Unpack(ins[..]))[v := 0]
  {
    hide Field, And, Inverse, Shl, CodeWord;
    assert 2 * v / 32 == v / 16 && 2 * v % 32 == 2 * (v % 16);
    ghost var was := ins[..];
    ins[2 * v / 32] := And(ins[2 * v / 32], Inverse(Shl(CodeWord(3), 2 * v % 32)));
    forall m | 0 <= m < 16 * |was| ensures Unpack(ins[..])[m] == Unpack(was)[v := 0][m] {
      if m / 16 == v / 16 {
        ClearField(was[v / 16], v % 16, m % 16);
        assert m % 16 == v % 16 ==> m == v;
      }
    }
  }

  method Insert(ins: array<Word>, v: nat, c: nat)
    requires Words(ins[..]) && v < 16 * ins.Length && c <= 3 && Unpack(ins[..])[v] == 0
    modifies ins
    ensures Words(ins[..]) && Unpack(ins[..]) == old(Unpack(ins[..]))[v := c]
  {
    hide Field, Or, Shl, CodeWord;
    assert 2 * v / 32 == v / 16 && 2 * v % 32 == 2 * (v % 16);
    ghost var was := ins[..];
    ins[2 * v / 32] := Or(ins[2 * v / 32], Shl(CodeWord(c), 2 * v % 32));
    forall m | 0 <= m < 16 * |was| ensures Unpack(ins[..])[m] == Unpack(was)[v := c][m] {
      if m / 16 == v / 16 {
        FillField(was[v / 16], v % 16, m % 16, c);
        assert m % 16 == v % 16 ==> m == v;
      }
    }
  }

  // ---- Distance one ----

  // Only the mark of variable k is set.
  ghost predicate OnlyMark(w: Word, k: nat) {
    |w| == 32 && k < 16 && forall j :: 0 <= j < 32 ==> (w[j] <==> j == 2 * k)
  }

  lemma {:induction false} MarkedHas(w: Word, m: nat, k: nat)
    requires k < m && 2 * m <= |w|
    ensures w[2 * k] <==> k in Marked(w, 0, m)
  {
    if k < m - 1 { MarkedHas(w, m - 1, k); }
  }

  lemma OneMarked(a: Word, b: Word)
    requires |a| == |b| == 32 && |Marked(Marks(a, b), 0, 16)| == 1
    ensures OnlyMark(Marks(a, b), Marked(Marks(a, b), 0, 16)[0])
  {
    hide Marks, Marked;
    var w := Marks(a, b);
    forall j | 0 <= j < 32 ensures w[j] <==> j == 2 * Marked(w, 0, 16)[0] {
      MarkBits(a, b, j / 2);
      MarkedHas(w, 16, j / 2);
      assert j == 2 * (j / 2) || j == 2 * (j / 2) + 1;
    }
  }

  lemma AnyMarked(a: Word, b: Word)
    requires |a| == |b| == 32
    ensures NonZero(Marks(a, b)) <==> Marked(Marks(a, b), 0, 16) != []
  {
    hide Marks, Marked;
    var w := Marks(a, b);
    if NonZero(w) {
      var j :| 0 <= j < 32 && w[j];
      MarkBits(a, b, j / 2);
      MarkedHas(w, 16, j / 2);
      assert j == 2 * (j / 2) || j == 2 * (j / 2) + 1;
    } else if Marked(w, 0, 16) != [] {
      MarkedHas(w, 16, Marked(w, 0, 16)[0]);
    }
  }

  // Shift the marks out to the right and count.
  method MarkPlace(w: Word, ghost k: nat) returns (i: nat)
    requires OnlyMark(w, k)
    ensures i == k
  {
    hide Shr, NonZero;
    var temp := Shr(w, 2);
    i := 0;
    ShiftedOut(w, k, 0);
    while NonZero(temp)
      invariant i <= k && temp == Shr(w, 2 * (i + 1))
      decreases k - i
    {
      ShiftedOut(w, k, i);
      ShiftAgain(w, 2 * (i + 1));
      temp := Shr(temp, 2);
      i := i + 1;
    }
    ShiftedOut(w, k, i);
  }

  lemma ShiftedOut(w: Word, k: nat, i: nat)
    requires OnlyMark(w, k)
    ensures NonZero(Shr(w, 2 * (i + 1))) <==> i < k
  {
    var t := Shr(w, 2 * (i + 1));
    if i < k { assert t[2 * k - 2 * (i + 1)]; }
  }

  lemma ShiftAgain(w: Word, n: nat)
    ensures Shr(Shr(w, n), 2) == Shr(w, n + 2)
  {
  }

  // The last word with a mark, if there is one.
  ghost predicate LastWord(a: seq<Word>, b: seq<Word>, i: nat, last: int, marks: Word) {
    && Words(a) && Words(b) && i <= |a| == |b|
    && (last == -1 <==> DiffsUpTo(a, b, i) == [])
    && (last != -1 ==> 0 <= last < i && marks == Marks(a[last], b[last]))
    && (|DiffsUpTo(a, b, i)| == 1 ==> last != -1 && Marked(marks, 0, 16) == [DiffsUpTo(a, b, i)[0] - 16 * last])
  }

  lemma LastStart(a: seq<Word>, b: seq<Word>)
    requires Words(a) && Words(b) && |a| == |b|
    ensures LastWord(a, b, 0, -1, []) && DiffsUpTo(a, b, 0) == []
  {
  }

  lemma LastStep(a: seq<Word>, b: seq<Word>, i: nat, last: int, marks: Word)
    requires LastWord(a, b, i, last, marks) && i < |a|
    ensures var w := Marks(a[i], b[i]);
      if NonZero(w) then LastWord(a, b, i + 1, i, w) else LastWord(a, b, i + 1, last, marks)
  {
    hide Marks, Marked, DiffsUpTo, NonZero, BitCount;
    NextWord(a, b, i);
    AnyMarked(a[i], b[i]);
    var m := Marked(Marks(a[i], b[i]), 0, 16);
    if |m| == 1 { assert m == [m[0]]; }
  }

  // GetDistancePlus: at distance one in an input, this input of the first cube is merged with
  // that of the second.
  method GetDistancePlus(in1: array<Word>, out1: array<Word>, in2: array<Word>, out2: array<Word>)
    returns (d: nat, varNum: int, oldP: nat, newP: nat, valQ: nat)
    requires Pair(in1[..], out1[..], in2[..], out2[..]) && in1 != out1 && in1 != out2
    modifies in1
    ensures d == Capped(Distance(old(Cube(in1[..], out1[..])), old(Cube(in2[..], out2[..]))))
    ensures d == 1 && Outs(out1[..]) != Outs(out2[..]) ==> varNum == -1
    ensures d == 1 && Outs(out1[..]) == Outs(out2[..]) ==>
      && DiffsUpTo(old(in1[..]), old(in2[..]), in1.Length) == [varNum] && 0 <= varNum < 16 * in1.Length
      && oldP == old(Unpack(in1[..]))[varNum] && valQ == old(Unpack(in2[..]))[varNum] && newP == ExorCode(oldP, valQ)
      && Words(in1[..]) && Unpack(in1[..]) == old(Unpack(in1[..]))[varNum := newP]
    ensures !(d == 1 && Outs(out1[..]) == Outs(out2[..])) ==> in1[..] == old(in1[..])
  {
    hide Marks, Unpack, Diffs, BitCount, Outs, LastWord, NonZero, Marked, GetVar, ExorCode;
    var last, lastMarks: Word := -1, [];
    d, varNum, oldP, newP, valQ := 0, -1, 0, 0, 0;
    LastStart(in1[..], in2[..]);
    for i := 0 to in1.Length
      invariant in1[..] == old(in1[..]) && in2[..] == old(in2[..])
      invariant d == |DiffsUpTo(in1[..], in2[..], i)| <= 4 && LastWord(in1[..], in2[..], i, last, lastMarks)
    {
      NextWord(in1[..], in2[..], i);
      LastStep(in1[..], in2[..], i, last, lastMarks);
      var w := Marks(in1[i], in2[i]);
      if NonZero(w) {
        last, lastMarks := i, w;
      }
      d := d + BitCount(w);
      if d > 4 {
        FarAlready(in1[..], in2[..], i + 1, out1[..], out2[..]);
        d := 5;
        return;
      }
    }
    var differ := OutputsDiffer(out1, out2);
    if differ {
      d := d + 1;
    }
    LastMeans(in1[..], in2[..], last, lastMarks);
    NoDiffs(Unpack(in1[..]), 16 * in1.Length);
    if d == 1 && last != -1 {
      var place := MarkPlace(lastMarks, DiffsUpTo(in1[..], in2[..], in1.Length)[0] - 16 * last);
      varNum := 16 * last + place;
      oldP, valQ := GetVar(in1[..], varNum), GetVar(in2[..], varNum);
      ExorVar(in1, varNum, valQ);
      newP := GetVar(in1[..], varNum);
    }
  }

  lemma LastMeans(a: seq<Word>, b: seq<Word>, last: int, marks: Word)
    requires LastWord(a, b, |a|, last, marks)
    ensures last == -1 <==> DiffsUpTo(a, b, |a|) == []
    ensures |DiffsUpTo(a, b, |a|)| == 1 ==>
      0 <= last < |a| && 0 <= DiffsUpTo(a, b, |a|)[0] - 16 * last &&
      OnlyMark(marks, DiffsUpTo(a, b, |a|)[0] - 16 * last)
  {
    hide Marks, Marked, DiffsUpTo;
    if |DiffsUpTo(a, b, |a|)| == 1 { OneMarked(a[last], b[last]); }
  }

  // ---- The differing variables ----

  // The row of GroupLiterals for half a word: the marked variables.
  function GroupLiterals(half: Word): seq<nat>
    requires |half| == 16
  {
    Marked(half, 0, 8)
  }

  lemma {:induction false} MarkedSlice(w: Word, k: nat, m: nat)
    requires k <= m && 2 * m <= |w|
    ensures Marked(w, k, m) == Shifted(Marked(w[2 * k..], 0, m - k), k)
    decreases m - k
  {
    if k < m {
      MarkedSlice(w, k, m - 1);
      assert w[2 * k..][2 * (m - 1 - k)] == w[2 * (m - 1)];
    }
  }

  lemma {:induction false} MarkedPrefix(w: Word, m: nat, e: nat)
    requires m <= e && 2 * e <= |w|
    ensures Marked(w[..2 * e], 0, m) == Marked(w, 0, m)
  {
    if m > 0 { MarkedPrefix(w, m - 1, e); }
  }

  // What one half of word i, the low one or the high one, adds to the differing variables.
  lemma HalfWord(a: seq<Word>, b: seq<Word>, i: nat, high: bool)
    requires Words(a) && Words(b) && i < |a| == |b|
    ensures var w := Marks(a[i], b[i]); var half, k := if high then w[16..] else w[..16], if high then 8 else 0;
      && |half| == 16 && BitCount(half) == |GroupLiterals(half)| && 16 * i + k + 8 <= |Unpack(a)|
      && Diffs(Unpack(a), Unpack(b), 16 * i + k + 8) ==
          Diffs(Unpack(a), Unpack(b), 16 * i + k) + Shifted(GroupLiterals(half), 16 * i + k)
  {
    hide Marks, Unpack, BitCount, Marked;
    var w := Marks(a[i], b[i]);
    var k := if high then 8 else 0;
    WordDiffs(a, b, i, k, k + 8);
    MarksCount(a[i], b[i], k, k + 8);
    if high {
      MarkedSlice(w, 8, 16);
      assert w[16..32] == w[16..];
      assert Shifted(Shifted(Marked(w[16..], 0, 8), 8), 16 * i) == Shifted(GroupLiterals(w[16..]), 16 * i + 8);
    } else {
      MarkedPrefix(w, 8, 8);
      assert w[0..16] == w[..16];
    }
  }

  // The list that FindDiffVars makes: -1 for the outputs, then the inputs.
  function DiffList(outputs: bool, ds: seq<nat>): (r: seq<int>)
    ensures |r| == |ds| + if outputs then 1 else 0
  {
    (if outputs then [-1] else []) + Ints(ds)
  }

  function Ints(ds: seq<nat>): (r: seq<int>)
    ensures |r| == |ds|
  {
    seq(|ds|, i requires 0 <= i < |ds| => ds[i])
  }

  lemma DiffListMore(outputs: bool, ds: seq<nat>, es: seq<nat>)
    ensures DiffList(outputs, ds + es) == DiffList(outputs, ds) + Ints(es)
  {
  }

  // Append the marked variables of one half; the counts up to v.
  method AppendHalf(vars: seq<int>, half: Word, d: nat) returns (r: seq<int>)
    requires |half| == 16
    ensures r == vars + Ints(Shifted(GroupLiterals(half), d))
  {
    hide Marked;
    r := vars;
    var group := GroupLiterals(half);
    for v := 0 to |group|
      invariant r == vars + Ints(Shifted(group, d))[..v]
    {
      r := r + [d + group[v]];
    }
    assert Ints(Shifted(group, d))[..|group|] == Ints(Shifted(group, d));
  }

  // FindDiffVars.
  method FindDiffVars(in1: array<Word>, out1: array<Word>, in2: array<Word>, out2: array<Word>)
    returns (vars: seq<int>, count: nat)
    requires Pair(in1[..], out1[..], in2[..], out2[..])
    ensures count == Capped(Distance(Cube(in1[..], out1[..]), Cube(in2[..], out2[..])))
    ensures count < 5 ==> vars == DiffList(Outs(out1[..]) != Outs(out2[..]), DiffsUpTo(in1[..], in2[..], in1.Length))
  {
    hide Marks, Unpack, Diffs, BitCount, Outs, Marked, GroupLiterals;
    var outputs := OutputsDiffer(out1, out2);
    vars := if outputs then [-1] else [];
    for i := 0 to in1.Length
      invariant vars == DiffList(outputs, DiffsUpTo(in1[..], in2[..], i)) && |vars| <= 4
    {
      var enough;
      vars, enough := AddHalf(in1, in2, i, false, outputs, vars);
      if enough {
        FarHalf(in1[..], out1[..], in2[..], out2[..], 16 * i + 8);
        return vars, 5;
      }
      vars, enough := AddHalf(in1, in2, i, true, outputs, vars);
      if enough {
        FarHalf(in1[..], out1[..], in2[..], out2[..], 16 * i + 16);
        return vars, 5;
      }
    }
    count := |vars|;
  }

  // One half of word i; enough: more than four positions differ.
  method AddHalf(in1: array<Word>, in2: array<Word>, i: nat, high: bool, outputs: bool, vars: seq<int>)
    returns (r: seq<int>, enough: bool)
    requires Words(in1[..]) && Words(in2[..]) && i < in1.Length == in2.Length && |vars| <= 4
    requires vars == DiffList(outputs, Diffs(Unpack(in1[..]), Unpack(in2[..]), 16 * i + if high then 8 else 0))
    ensures var ds := Diffs(Unpack(in1[..]), Unpack(in2[..]), 16 * i + if high then 16 else 8);
      && (enough <==> |ds| + (if outputs then 1 else 0) > 4)
      && (!enough ==> |r| <= 4 && r == DiffList(outputs, ds))
  {
    hide Marks, Unpack, Diffs, BitCount, Marked, GroupLiterals;
    var d := 16 * i + if high then 8 else 0;
    var w := Marks(in1[i], in2[i]);
    var half := if high then w[16..] else w[..16];
    HalfWord(in1[..], in2[..], i, high);
    DiffListMore(outputs, Diffs(Unpack(in1[..]), Unpack(in2[..]), d), Shifted(GroupLiterals(half), d));
    var count := BitCount(half);
    r := vars;
    if count != 0 {
      if count >= 5 {
        return r, true;
      }
      r := AppendHalf(vars, half, d);
    }
    enough := |r| > 4;
  }

  lemma FarHalf(a: seq<Word>, outs1: seq<Word>, b: seq<Word>, outs2: seq<Word>, k: nat)
    requires Pair(a, outs1, b, outs2) && k <= 16 * |a|
    requires |Diffs(Unpack(a), Unpack(b), k)| + (if Outs(outs1) != Outs(outs2) then 1 else 0) > 4
    ensures Distance(Cube(a, outs1), Cube(b, outs2)) > 4
  {
    MoreDiffs(Unpack(a), Unpack(b), k, 16 * |a|);
  }

  // ---- Cubes of nv variables ----

  // The words hold the cube p; what is left of the last words is zero.
  ghost predicate Holds(ins: seq<Word>, outs: seq<Word>, p: Prod) {
    && Words(ins) && Words(outs) && |p.lits| <= 16 * |ins| && |p.outs| <= 32 * |outs| == |Outs(outs)|
    && Unpack(ins)[..|p.lits|] == p.lits && (forall v :: |p.lits| <= v < 16 * |ins| ==> Unpack(ins)[v] == 0)
    && Outs(outs)[..|p.outs|] == p.outs && (forall o :: |p.outs| <= o < |Outs(outs)| ==> !Outs(outs)[o])
  }

  lemma {:induction false} SameDiffs(p: seq<nat>, q: seq<nat>, r: seq<nat>, s: seq<nat>, k: nat)
    requires |p| == |q| <= |r| == |s| && r[..|p|] == p && s[..|p|] == q
    requires (forall v :: |p| <= v < |r| ==> r[v] == s[v]) && k <= |r|
    ensures Diffs(r, s, k) == Diffs(p, q, if k <= |p| then k else |p|)
  {
    if k > 0 {
      SameDiffs(p, q, r, s, k - 1);
      if k <= |p| { assert r[k - 1] == p[k - 1] && s[k - 1] == q[k - 1]; }
    }
  }

  // The word loops compute the distance of the cubes that the words hold, and the differing
  // variables.
  lemma HeldDistance(in1: seq<Word>, out1: seq<Word>, in2: seq<Word>, out2: seq<Word>, p: Prod, q: Prod)
    requires Pair(in1, out1, in2, out2) && Holds(in1, out1, p) && Holds(in2, out2, q) && |p.lits| == |q.lits|
    requires |p.outs| == |q.outs|
    ensures Distance(Cube(in1, out1), Cube(in2, out2)) == Distance(p, q)
    ensures DiffsUpTo(in1, in2, |in1|) == Diffs(p.lits, q.lits, |p.lits|)
    ensures Outs(out1) == Outs(out2) <==> p.outs == q.outs
  {
    hide Unpack, Outs, Diffs;
    SameDiffs(p.lits, q.lits, Unpack(in1), Unpack(in2), 16 * |in1|);
    PaddedSame(p.outs, q.outs, Outs(out1), Outs(out2));
  }

  lemma PaddedSame(p: seq<bool>, q: seq<bool>, a: seq<bool>, b: seq<bool>)
    requires |p| == |q| <= |a| == |b| && a[..|p|] == p && b[..|q|] == q
    requires forall o :: |p| <= o < |a| ==> !a[o] && !b[o]
    ensures a == b <==> p == q
  {
    assert a == p + a[|p|..] && b == q + b[|p|..];
    assert a[|p|..] == b[|p|..];
  }
}
