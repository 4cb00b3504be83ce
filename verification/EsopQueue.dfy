// The queues of cube pairs.
module EsopQueue {
  import opened EsopCube
  import opened EsopStore
  import opened EsopCost

  // A circular queue of cube pairs with their IDs; where it is read is kept apart (posOut).
  datatype Queue = Queue(
    c1: seq<nat>, c2: seq<nat>, id1: seq<nat>, id2: seq<nat>, posIn: nat, posCur: nat, posMark: nat)

  // The pair at place i has been written: it names two cubes, with IDs in use.
  ghost predicate EntryOk(q: Queue, i: int, n: nat) {
    0 <= i < |q.c1| && i < |q.c2| && i < |q.id1| && i < |q.id2| && q.c1[i] < n && q.c2[i] < n && q.id1[i] != 0 &&
    q.id2[i] != 0
  }

  ghost predicate Entries(q: Queue, k: nat, n: nat) {
    forall i :: 0 <= i < k ==> EntryOk(q, i, n)
  }

  // The positions of a queue that has not been filled up to its end yet; stop is where the
  // iterator ends, -1 for the queues that are not being read.
  ghost predicate InOrder(q: Queue, out: nat, stop: int, marked: bool) {
    var low := if stop >= 0 then stop else out;
    var mark := if marked then q.posMark else low;
    out <= low <= mark <= q.posIn <= q.posCur
  }

  ghost predicate QueueOk(q: Queue, out: nat, places: nat, n: nat, stop: int, marked: bool) {
    && |q.c1| == |q.c2| == |q.id1| == |q.id2| == places
    && out < places && q.posIn < places && q.posCur < places && q.posMark < places
    && (Entries(q, places, n) || (Entries(q, q.posCur, n) && InOrder(q, out, stop, marked)))
  }

  lemma EntriesDown(q: Queue, r: Queue, k: nat, j: nat, n: nat)
    requires Entries(q, k, n) && j <= k && r.c1 == q.c1 && r.c2 == q.c2 && r.id1 == q.id1 && r.id2 == q.id2
    ensures Entries(r, j, n)
  {
    forall i | 0 <= i < j ensures EntryOk(r, i, n) { assert EntryOk(q, i, n); }
  }

  function WithPair(q: Queue, p1: nat, p2: nat, i1: nat, i2: nat, places: nat): Queue
    requires |q.c1| == |q.c2| == |q.id1| == |q.id2| == places && q.posCur < places
  {
    var i := q.posCur;
    q.(c1 := q.c1[i := p1], c2 := q.c2[i := p2], id1 := q.id1[i := i1], id2 := q.id2[i := i2],
       posCur := if i + 1 == places then 0 else i + 1)
  }

  lemma PairEntered(q: Queue, out: nat, p1: nat, p2: nat, i1: nat, i2: nat, places: nat, n: nat, stop: int,
                    marked: bool)
    requires QueueOk(q, out, places, n, stop, marked) && p1 < n && p2 < n && i1 != 0 && i2 != 0
    ensures QueueOk(WithPair(q, p1, p2, i1, i2, places), out, places, n, stop, marked)
  {
    var r := WithPair(q, p1, p2, i1, i2, places);
    var k := if Entries(q, places, n) || q.posCur + 1 == places then places else q.posCur + 1;
    forall i | 0 <= i < k ensures EntryOk(r, i, n) { assert i != q.posCur ==> EntryOk(q, i, n); }
  }

  // The mark is set.
  lemma QueueMarked(q: Queue, out: nat, places: nat, n: nat, stop: int, marked: bool)
    requires QueueOk(q, out, places, n, stop, marked)
    ensures QueueOk(q.(posMark := q.posIn), out, places, n, stop, true)
  {
    var r := q.(posMark := q.posIn);
    if Entries(q, places, n) { EntriesDown(q, r, places, places, n); }
    else { EntriesDown(q, r, q.posCur, r.posCur, n); }
  }

  lemma QueueRewound(q: Queue, out: nat, places: nat, n: nat, stop: int)
    requires QueueOk(q, out, places, n, stop, true)
    ensures QueueOk(q.(posIn := q.posMark), out, places, n, stop, true)
  {
    var r := q.(posIn := q.posMark);
    if Entries(q, places, n) { EntriesDown(q, r, places, places, n); }
    else { EntriesDown(q, r, q.posCur, r.posCur, n); }
  }

  lemma RangeReset(q: Queue, out: nat, places: nat, n: nat, stop: int, marked: bool)
    requires QueueOk(q, out, places, n, stop, marked)
    ensures QueueOk(q.(posCur := q.posIn), out, places, n, stop, marked)
  {
    var r := q.(posCur := q.posIn);
    if Entries(q, places, n) { EntriesDown(q, r, places, places, n); }
    else { EntriesDown(q, r, q.posCur, r.posCur, n); }
  }

  lemma RangeAdded(q: Queue, out: nat, places: nat, n: nat, stop: int, marked: bool)
    requires QueueOk(q, out, places, n, stop, marked)
    ensures QueueOk(q.(posIn := q.posCur), out, places, n, stop, marked)
  {
    var r := q.(posIn := q.posCur);
    if Entries(q, places, n) { EntriesDown(q, r, places, places, n); }
    else { EntriesDown(q, r, q.posCur, r.posCur, n); }
  }

  // The entry to be read next has been written.
  lemma NextEntry(q: Queue, out: nat, places: nat, n: nat, stop: nat, marked: bool)
    requires QueueOk(q, out, places, n, stop, marked) && out != stop
    ensures EntryOk(q, out, n)
    ensures QueueOk(q, if out + 1 == places then 0 else out + 1, places, n, stop, marked)
  {
  }

  lemma ReadOut(q: Queue, out: nat, places: nat, n: nat, stop: nat, marked: bool)
    requires QueueOk(q, out, places, n, stop, marked) && out == stop
    ensures QueueOk(q, out, places, n, -1, marked)
  {
  }

  // A new iterator: nothing is marked.
  lemma Restarted(q: Queue, out: nat, places: nat, n: nat, stop: int, marked: bool)
    requires QueueOk(q, out, places, n, -1, marked) && (stop == -1 || stop == q.posIn)
    ensures QueueOk(q, out, places, n, stop, false)
  {
  }

  // ---- All three queues ----

  // MarkSet, MarkRewind, NewRangeReset and NewRangeAdd.
  function MarkedQueues(que: seq<Queue>): (r: seq<Queue>)
    ensures |r| == |que|
  {
    seq(|que|, d requires 0 <= d < |que| => que[d].(posMark := que[d].posIn))
  }

  function RewoundQueues(que: seq<Queue>): (r: seq<Queue>)
    ensures |r| == |que|
  {
    seq(|que|, d requires 0 <= d < |que| => que[d].(posIn := que[d].posMark))
  }

  function ResetQueues(que: seq<Queue>): (r: seq<Queue>)
    ensures |r| == |que|
  {
    seq(|que|, d requires 0 <= d < |que| => que[d].(posCur := que[d].posIn))
  }

  function AddedQueues(que: seq<Queue>): (r: seq<Queue>)
    ensures |r| == |que|
  {
    seq(|que|, d requires 0 <= d < |que| => que[d].(posIn := que[d].posCur))
  }

  ghost predicate Shaped(q: Queue, places: nat) {
    |q.c1| == |q.c2| == |q.id1| == |q.id2| == places && q.posCur < places && q.posIn < places
  }

  ghost predicate AllShaped(que: seq<Queue>, places: nat) {
    |que| == 3 && forall d :: 0 <= d < 3 ==> Shaped(que[d], places)
  }

  // NewRangeInsertCubePair with the cubes p and q of s, when their distance is enabled.
  ghost function Offered(que: seq<Queue>, s: Store, p: nat, q: nat, enabled: seq<bool>, places: nat): seq<Queue> {
    if Sized(s, p) && Sized(s, q) && |s.data[p].lits| == |s.data[q].lits| && AllShaped(que, places) && |enabled| == 3
    then
      var d := Distance(s.data[p], s.data[q]);
      if 2 <= d <= 4 && enabled[d - 2]
      then que[d - 2 := WithPair(que[d - 2], p, q, s.info[p].id, s.info[q].id, places)] else que
    else que
  }

  ghost predicate Sized(s: Store, p: nat) {
    p < |s.data| == |s.info|
  }

  // The queues after the first k cubes of the cover have been compared with p.
  ghost function Scanned(que: seq<Queue>, s: Store, p: nat, enabled: seq<bool>, places: nat, k: nat): seq<Queue> {
    if k == 0 || k > |s.cover| then que
    else Offered(Scanned(que, s, p, enabled, places, k - 1), s, p, s.cover[k - 1], enabled, places)
  }

  ghost predicate SameEntries(q: Queue, r: Queue, n: nat) {
    && |r.c1| == |q.c1| && |r.c2| == |q.c2| && |r.id1| == |q.id1| && |r.id2| == |q.id2|
    && (forall i :: 0 <= i < n && i < |q.c1| ==> r.c1[i] == q.c1[i])
    && (forall i :: 0 <= i < n && i < |q.c2| ==> r.c2[i] == q.c2[i])
    && (forall i :: 0 <= i < n && i < |q.id1| ==> r.id1[i] == q.id1[i])
    && (forall i :: 0 <= i < n && i < |q.id2| ==> r.id2[i] == q.id2[i])
  }

  // At most n pairs have been written from posCur on.
  ghost predicate Appended(q: Queue, r: Queue, n: nat) {
    r.posIn == q.posIn && q.posCur <= r.posCur <= q.posCur + n && SameEntries(q, r, q.posCur)
  }

  // Place i names p and h, with the IDs they have in s.
  ghost predicate EntryIs(q: Queue, i: int, s: Store, p: nat, h: nat) {
    && 0 <= i < |q.c1| && i < |q.c2| && i < |q.id1| && i < |q.id2| && p < |s.info| && h < |s.info|
    && q.c1[i] == p && q.c2[i] == h && q.id1[i] == s.info[p].id && q.id2[i] == s.info[h].id
  }

  lemma {:induction false} ScannedGrows(que: seq<Queue>, s: Store, p: nat, enabled: seq<bool>, places: nat, k: nat)
    requires AllShaped(que, places) && forall d :: 0 <= d < 3 ==> que[d].posCur + k < places
    ensures AllShaped(Scanned(que, s, p, enabled, places, k), places)
    ensures forall d :: 0 <= d < 3 ==> Appended(que[d], Scanned(que, s, p, enabled, places, k)[d], k)
  {
    hide Distance;
    if 0 < k <= |s.cover| {
      var r := Scanned(que, s, p, enabled, places, k - 1);
      ScannedGrows(que, s, p, enabled, places, k - 1);
      forall d | 0 <= d < 3
        ensures Appended(que[d], Offered(r, s, p, s.cover[k - 1], enabled, places)[d], k)
      {
        assert Appended(que[d], r[d], k - 1) && Shaped(r[d], places);
      }
    }
  }

  // A pair at an enabled distance d + 2 has been written.
  lemma {:induction false} ScannedHas(que: seq<Queue>, s: Store, p: nat, enabled: seq<bool>, places: nat, k: nat,
                                      j: nat,
                                      d: nat) returns (i: nat)
    requires AllShaped(que, places) && (forall d :: 0 <= d < 3 ==> que[d].posCur + k < places)
    requires j < k <= |s.cover| && d < 3 == |enabled| && enabled[d] && Sized(s, p) && Sized(s, s.cover[j])
    requires |s.data[p].lits| == |s.data[s.cover[j]].lits| && Distance(s.data[p], s.data[s.cover[j]]) == d + 2
    ensures AllShaped(Scanned(que, s, p, enabled, places, k), places)
    ensures var r := Scanned(que, s, p, enabled, places, k)[d];
      que[d].posCur <= i < r.posCur && EntryIs(r, i, s, p, s.cover[j])
  {
    hide Distance;
    ScannedGrows(que, s, p, enabled, places, k);
    ScannedGrows(que, s, p, enabled, places, k - 1);
    var r := Scanned(que, s, p, enabled, places, k - 1);
    assert Appended(que[d], r[d], k - 1) && Shaped(r[d], places);
    if j == k - 1 {
      i := r[d].posCur;
    } else {
      i := ScannedHas(que, s, p, enabled, places, k - 1, j, d);
    }
  }

  // ---- What checking a cube leaves in the queues ----

  ghost predicate Room(que: seq<Queue>, n: nat, places: nat) {
    |que| == 3 && forall d :: 0 <= d < 3 ==> que[d].posIn + n < places
  }

  // At most n pairs have been added.
  ghost predicate Extended(q: Queue, r: Queue, n: nat) {
    q.posIn <= r.posIn <= q.posIn + n && SameEntries(q, r, q.posIn)
  }

  // From place lo on there are all pairs of p and a cube of the cover at distance d + 2.
  ghost predicate PairedWith(q: Queue, lo: nat, s: Store, p: nat, d: nat) {
    forall h: nat :: h in s.cover && h != p && AtDistance(s, p, h, d) ==>
      exists i :: lo <= i < q.posIn && EntryIs(q, i, s, p, h)
  }

  ghost predicate AtDistance(s: Store, p: nat, h: nat, d: nat) {
    Sized(s, p) && Sized(s, h) && |s.data[p].lits| == |s.data[h].lits| && Distance(s.data[p], s.data[h]) == d + 2
  }

  // Unless there is too little room, the queues keep their pairs, and if p is in the cover, all its pairs at
  // enabled distances have been added.
  ghost predicate Enqueued(was: seq<Queue>, que: seq<Queue>, s: Store, p: nat, enabled: seq<bool>, n: nat,
                           places: nat) {
    && AllShaped(was, places) && AllShaped(que, places) && |enabled| == 3
    && (Room(was, n, places) ==> forall d: nat :: d < 3 ==>
          Extended(was[d], que[d], n) && (enabled[d] && p in s.cover ==> PairedWith(que[d], was[d].posIn, s, p, d)))
  }

  // No cube close to p has been found.
  lemma EnqueuedKept(que: seq<Queue>, s: Store, t: Store, p: nat, enabled: seq<bool>, places: nat)
    requires AllShaped(que, places) && |enabled| == 3 && t.data == s.data && |t.info| == |s.info| && Sized(s, p)
    requires forall h: nat :: h < |s.info| ==> t.info[h].id == s.info[h].id
    requires forall h :: h in t.cover && h != p ==> h in s.cover
    requires AllShaped(Scanned(ResetQueues(que), s, p, enabled, places, |s.cover|), places)
    ensures Enqueued(que, AddedQueues(Scanned(ResetQueues(que), s, p, enabled, places, |s.cover|)), t, p, enabled,
                     |s.cover|, places)
  {
    hide Distance, Scanned;
    var was := ResetQueues(que);
    var r := Scanned(was, s, p, enabled, places, |s.cover|);
    if Room(que, |s.cover|, places) {
      ScannedGrows(was, s, p, enabled, places, |s.cover|);
      forall d: nat | d < 3 && enabled[d] && p in t.cover ensures PairedWith(AddedQueues(r)[d], que[d].posIn, t, p, d) {
        forall h: nat | h in t.cover && h != p && AtDistance(t, p, h, d)
          ensures exists i :: que[d].posIn <= i < AddedQueues(r)[d].posIn && EntryIs(AddedQueues(r)[d], i, t, p, h)
        {
          var j: nat :| j < |s.cover| && s.cover[j] == h;
          var i := ScannedHas(was, s, p, enabled, places, |s.cover|, j, d);
          assert EntryIs(r[d], i, s, p, h);
          assert EntryIs(AddedQueues(r)[d], i, t, p, h);
        }
      }
      forall d: nat | d < 3 ensures Extended(que[d], AddedQueues(r)[d], |s.cover|) {
        assert Appended(was[d], r[d], |s.cover|);
      }
    }
  }

  // The first k cubes have been compared with p, and p has left.
  lemma EnqueuedNone(que: seq<Queue>, s: Store, t: Store, p: nat, enabled: seq<bool>, places: nat, k: nat)
    requires AllShaped(que, places) && |enabled| == 3 && p !in t.cover && k <= |s.cover|
    requires AllShaped(Scanned(ResetQueues(que), s, p, enabled, places, k), places)
    ensures Enqueued(que, ResetQueues(Scanned(ResetQueues(que), s, p, enabled, places, k)), t, p, enabled, |s.cover|,
                     places)
  {
    hide Distance, Scanned;
    var was := ResetQueues(que);
    if Room(que, |s.cover|, places) {
      ScannedGrows(was, s, p, enabled, places, k);
      forall d: nat | d < 3
        ensures Extended(que[d], ResetQueues(Scanned(was, s, p, enabled, places, k))[d], |s.cover|)
      {
        assert Appended(was[d], Scanned(was, s, p, enabled, places, k)[d], k);
      }
    }
  }

  // The same before p is checked once more.
  lemma EnqueuedAgain(que: seq<Queue>, s: Store, t: Store, r: seq<Queue>, p: nat, enabled: seq<bool>, places: nat,
                      k: nat)
    requires AllShaped(que, places) && k < |s.cover|
    requires Enqueued(Scanned(ResetQueues(que), s, p, enabled, places, k), r, t, p, enabled, |s.cover| - 1, places)
    ensures Enqueued(que, r, t, p, enabled, |s.cover|, places)
  {
    hide Distance, Scanned, PairedWith;
    var was := ResetQueues(que);
    if Room(que, |s.cover|, places) {
      ScannedGrows(was, s, p, enabled, places, k);
      var u := Scanned(was, s, p, enabled, places, k);
      forall d: nat | d < 3 ensures u[d].posIn == que[d].posIn && SameEntries(que[d], u[d], que[d].posIn) {
        assert Appended(was[d], u[d], k);
      }
      assert Room(u, |s.cover| - 1, places);
    }
  }

  // ---- All pairs of a cover ----

  // Every two cubes at distance d + 2 are in the queue, with their IDs.
  ghost predicate Complete(s: Store, q: Queue, d: nat) {
    forall g: nat, h: nat :: g in s.cover && h in s.cover && g != h && AtDistance(s, g, h, d) ==>
      exists i :: 0 <= i < q.posIn && (EntryIs(q, i, s, g, h) || EntryIs(q, i, s, h, g))
  }

  // What adding a cube does to it, as long as there is room.
  ghost predicate QueuedOn(s: Store, t: Store, was: seq<Queue>, que: seq<Queue>, enabled: seq<bool>, places: nat) {
    && |was| == |que| == |enabled| == 3
    && (Room(was, |s.cover|, places) ==> forall d: nat :: d < 3 ==>
          que[d].posIn <= was[d].posIn + |s.cover| && (enabled[d] && Complete(s, was[d], d) ==> Complete(t, que[d], d)))
  }

  // The cubes but p are those of s.
  ghost predicate Stayed(s: Store, t: Store, p: nat) {
    && |t.data| == |s.data| == |s.info| == |t.info|
    && forall h: nat :: h in t.cover && h != p ==>
         h in s.cover && h < |s.data| && t.data[h] == s.data[h] && t.info[h].id == s.info[h].id
  }

  lemma DistanceBack(p: Prod, q: Prod)
    requires |p.lits| == |q.lits|
    ensures Distance(p, q) == Distance(q, p)
  {
    DiffsBack(p.lits, q.lits, |p.lits|);
  }

  lemma CompleteStep(s: Store, t: Store, p: nat, was: seq<Queue>, que: seq<Queue>, enabled: seq<bool>, places: nat)
    requires Stayed(s, t, p) && Enqueued(was, que, t, p, enabled, |s.cover|, places)
    ensures QueuedOn(s, t, was, que, enabled, places)
  {
    hide Distance, SameEntries, PairedWith, Shaped, Complete;
    if Room(was, |s.cover|, places) {
      forall d: nat | d < 3 && enabled[d] && Complete(s, was[d], d) ensures Complete(t, que[d], d) {
        assert Extended(was[d], que[d], |s.cover|);
        CompleteAt(s, t, p, was[d], que[d], |s.cover|, d);
      }
    }
  }

  lemma CompleteAt(s: Store, t: Store, p: nat, q: Queue, r: Queue, n: nat, d: nat)
    requires Stayed(s, t, p) && Extended(q, r, n) && (p in t.cover ==> PairedWith(r, q.posIn, t, p, d))
    requires Complete(s, q, d)
    ensures Complete(t, r, d)
  {
    hide Distance;
    forall g: nat, h: nat | g in t.cover && h in t.cover && g != h && AtDistance(t, g, h, d)
      ensures exists i :: 0 <= i < r.posIn && (EntryIs(r, i, t, g, h) || EntryIs(r, i, t, h, g))
    {
      if g == p {
        assert AtDistance(t, p, h, d);
      } else if h == p {
        DistanceBack(t.data[g], t.data[p]);
        assert AtDistance(t, p, g, d);
      } else {
        assert AtDistance(s, g, h, d);
        var i :| 0 <= i < q.posIn && (EntryIs(q, i, s, g, h) || EntryIs(q, i, s, h, g));
        assert EntryIs(r, i, t, g, h) || EntryIs(r, i, t, h, g);
      }
    }
  }

  // ---- Reading a queue ----

  // The cubes, the queues, and where these are read next.
  datatype View = View(st: Store, que: seq<Queue>, outs: seq<nat>)

  function NextPlaceOf(i: nat, places: nat): nat {
    if i + 1 == places then 0 else i + 1
  }

  ghost function Past(v: View, d: nat, places: nat): View
    requires d < |v.outs|
  {
    v.(outs := v.outs[d := NextPlaceOf(v.outs[d], places)])
  }

  // The next pair of queue d: both cubes still have the IDs they had when it was written.
  ghost predicate Matching(v: View, d: nat) {
    && d < |v.que| && d < |v.outs| && var q, i := v.que[d], v.outs[d];
    && i < |q.c1| && i < |q.c2| && i < |q.id1| && i < |q.id2| && q.c1[i] < |v.st.info| && q.c2[i] < |v.st.info|
    && v.st.info[q.c1[i]].id == q.id1[i] && v.st.info[q.c2[i]].id == q.id2[i]
  }

  // All but the last of the pairs seen have been skipped.
  ghost predicate Seen(seen: seq<View>, d: nat, stop: nat, places: nat) {
    && seen != [] && (forall i :: 0 <= i < |seen| ==> d < |seen[i].outs|)
    && forall i :: 0 <= i < |seen| - 1 ==>
         seen[i].outs[d] != stop && !Matching(seen[i], d) && seen[i + 1] == Past(seen[i], d, places)
  }

  lemma SeenMore(seen: seq<View>, v: View, d: nat, stop: nat, places: nat)
    requires Seen(seen, d, stop, places) && seen[|seen| - 1].outs[d] != stop && !Matching(seen[|seen| - 1], d)
    requires v == Past(seen[|seen| - 1], d, places)
    ensures Seen(seen + [v], d, stop, places)
  {
    hide Matching;
  }

  function EmptyQueue(places: nat): Queue {
    var none := seq(places, i => 0);
    Queue(none, none, none, none, 0, 0, 0)
  }
}
