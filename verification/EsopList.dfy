// The cube store and the checks of EXORCISM-4 as they change it.
module EsopList {
  import opened EsopCube
  import opened EsopPool
  import opened EsopStore
  import opened EsopCheck
  import opened EsopCost
  import opened EsopQueue

  function Upto(n: nat): (r: seq<nat>)
    ensures |r| == n && forall i :: 0 <= i < n ==> r[i] == i
  {
    seq(n, i requires 0 <= i => i)
  }

  function ClearInfo(n: nat): (r: seq<Info>)
    ensures |r| == n && forall i :: 0 <= i < n ==> r[i] == Info(0, false, -1, if i + 1 < n then i + 1 else -1)
  {
    seq(n, i => Info(0, false, -1, if i + 1 < n then i + 1 else -1))
  }

  // All cubes are free and linked in order.
  lemma ClearChained(n: nat)
    requires n > 0
    ensures Chained(ClearInfo(n), 0, Upto(n)) && forall h: nat :: h in Upto(n) <==> h < n
  {
    var info, hs := ClearInfo(n), Upto(n);
    forall i | 0 <= i < |hs| ensures ChainOk(info, hs, i) { }
    forall h: nat | h < n ensures h in hs { assert hs[h] == h; }
  }

  class Exorcism {
    const nv: nat
    const no: nat
    const places: nat
    const useQCost: bool
    var data: seq<Prod>
    var info: seq<Info>
    var a: seq<int>
    var z: seq<int>
    var list: int               // s_List
    var free: int               // s_CubesFree
    ghost var cover: seq<nat>
    ghost var pool: seq<nat>
    var nCubesInUse: int
    var nCubesFree: int
    var cIDs: nat
    var change: Change          // s_ChangeStore
    var que: seq<Queue>         // distances two, three and four
    var posOut: seq<nat>
    var enabled: seq<bool>      // s_fDistEnable2, 3 and 4
    var decreaseLiterals: bool
    var started: bool           // s_Iter: the queue being read, and where to stop
    var iterDist: nat
    var posStop: nat
    ghost var marked: bool      // the marks have been set since the iterator was started

    // AllocateCover, AllocateCubeSets and AllocateQueques.
    constructor (nv: nat, no: nat, nCubes: nat, places: nat, useQCost: bool)
      requires nCubes > 0 && places > 0
      ensures this.nv == nv && this.no == no && this.places == places && this.useQCost == useQCost
      ensures Valid() && Queues() && cover == [] && |pool| == |data| == nCubes && !started && !decreaseLiterals
      ensures (forall h: nat :: !Out(St(), h)) && forall h: nat :: h < |info| ==> !info[h].mark
      ensures posOut == [0, 0, 0] && enabled == [true, false, false] && AllShaped(que, places)
      ensures forall d :: 0 <= d < 3 ==> que[d].posIn == 0
    {
      this.nv, this.no, this.places, this.useQCost := nv, no, places, useQCost;
      data := seq(nCubes, h => Prod(seq(nv, i => 0), seq(no, o => false)));
      info := ClearInfo(nCubes);
      a, z := seq(nCubes, h => 0), seq(nCubes, h => 0);
      list, free, cover, pool := -1, 0, [], Upto(nCubes);
      nCubesInUse, nCubesFree, cIDs := 0, nCubes, 1;
      change := Change(false, 0, 0, 0, 0, 0, 0, 0);
      que := seq(3, d => EmptyQueue(places));
      posOut := [0, 0, 0];
      enabled, decreaseLiterals := [true, false, false], false;
      started, iterDist, posStop, marked := false, 0, 0, false;
      ClearChained(nCubes);
    }

    ghost function St(): Store
      reads this`data, this`info, this`a, this`z, this`list, this`free, this`cover, this`pool
    {
      Store(data, info, a, z, list, free, cover, pool)
    }

    // The cover is well formed and the counters are right.
    ghost predicate Valid()
      reads this`data, this`info, this`a, this`z, this`list, this`free, this`cover, this`pool, this`nCubesInUse,
            this`nCubesFree, this`cIDs
    {
      Ok(St(), nv, no, -1) && nCubesInUse == |cover| && nCubesFree == |pool| && 1 <= cIDs <= 255
    }

    // What is read from the queues has been written before.
    ghost predicate Queues()
      reads this`que, this`posOut, this`data, this`enabled, this`started, this`iterDist, this`posStop, this`marked
    {
      && places > 0 && |que| == |posOut| == 3 && |enabled| == 3 && posStop < places
      && forall d :: 0 <= d < 3 ==> QueueOk(que[d], posOut[d], places, |data|, StopOf(d), marked)
    }

    ghost function StopOf(d: int): int
      reads this`started, this`iterDist, this`posStop
    {
      if started && iterDist == d then posStop else -1
    }

    // ---- The cube list ----

    // CubeInsert: at the beginning of the list.
    method CubeInsert(p: nat)
      requires Valid() && Out(St(), p)
      modifies this`info, this`list, this`cover, this`nCubesInUse
      ensures Valid() && -1 <= old(list) < |old(info)| && St() == Inserted(old(St()), p)
      ensures Added(old(St()), St(), old(data)[p]) && Kept(old(St()), St(), p)
    {
      InsertOk(St(), p, nv, no, -1);
      InsertAdds(St(), p, nv, no);
      hide QueueOk, Ok, Added, Kept;
      if list != -1 {
        info := info[p := info[p].(next := list)];
        info := info[list := info[list].(prev := p)];
      }
      list := p;
      cover := [p] + cover;
      nCubesInUse := nCubesInUse + 1;
    }

    // CubeExtract.
    method CubeExtract(p: nat, ghost k: nat)
      requires Valid() && k < |cover| && cover[k] == p
      modifies this`info, this`list, this`cover, this`nCubesInUse
      ensures Valid() && p < |old(info)| && -1 <= old(info)[p].prev < |old(info)|
      ensures -1 <= old(info)[p].next < |old(info)|
      ensures St() == Extracted(old(St()), k)
    {
      hide QueueOk, Ok, AfterExtract;
      ExtractOk(St(), k, nv, no);
      HeadPlace(St(), k, nv, no);
      Unlink(p);
      cover := Without(cover, k);
      nCubesInUse := nCubesInUse - 1;
    }

    method Unlink(p: nat)
      requires p < |info| && -1 <= info[p].prev < |info| && -1 <= info[p].next < |info|
      requires list == p || info[p].prev >= 0
      modifies this`info, this`list
      ensures info == AfterExtract(old(info), old(list), p)
      ensures list == if old(list) == p then old(info)[p].next else old(list)
    {
      var was := info[p];
      if list == p {
        list := was.next;
      } else {
        info := info[was.prev := info[was.prev].(next := was.next)];
      }
      if was.next != -1 {
        info := info[was.next := info[was.next].(prev := was.prev)];
      }
      info := info[p := info[p].(prev := -1, next := -1)];
    }

    // AddToFreeCubes.
    method AddToFreeCubes(p: nat)
      requires Valid() && Out(St(), p)
      modifies this`info, this`free, this`pool, this`nCubesFree
      ensures Valid() && p < |old(info)| && St() == Freed(old(St()), p)
    {
      FreeOk(St(), p, nv, no);
      assert p < |info|;
      hide QueueOk, Ok;
      info := info[p := info[p].(next := free, id := 0)];
      free := p;
      pool := [p] + pool;
      nCubesFree := nCubesFree + 1;
    }

    // GetFreeCube: the cube still has the contents it had when it was freed.
    method GetFreeCube() returns (p: nat)
      requires Valid() && pool != []
      modifies this`info, this`free, this`pool, this`nCubesFree
      ensures 0 <= old(free) < |old(info)| && St() == Taken(old(St())) && p == old(free) == old(pool[0])
      ensures Ok(St(), nv, no, p) && Out(St(), p) && nCubesInUse == |cover| && nCubesFree == |pool|
      ensures p < |data| == |info| == |a| == |z|
    {
      TakeOk(St(), nv, no);
      hide QueueOk, Ok;
      p := free;
      free := info[p].next;
      info := info[p := info[p].(next := -1)];
      pool := pool[1..];
      nCubesFree := nCubesFree - 1;
    }

    // A free cube with new contents and the next ID.
    method NewCube(d: Prod, da: int, dz: int) returns (p: nat)
      requires Valid() && Queues() && pool != []
      requires 0 <= free < |info| == |data| == |a| == |z| && Ok(Filled(Taken(St()), free, d, da, dz, cIDs), nv, no, -1)
      modifies this`data, this`info, this`a, this`z, this`free, this`pool, this`nCubesFree, this`cIDs
      ensures Valid() && Queues() && St() == Filled(Taken(old(St())), old(free), d, da, dz, old(cIDs)) && p == old(free)
    {
      hide Ok, QueueOk;
      p := GetFreeCube();
      SetContents(p, d, da, dz);
      info := info[p := info[p].(id := cIDs)];
      cIDs := if cIDs == 255 then 1 else cIDs + 1;
    }

    // ---- The pair queues ----

    // MarkSet, MarkRewind, NewRangeReset and NewRangeAdd.
    method MarkSet()
      requires Queues()
      modifies this`que, this`marked
      ensures Queues() && marked
      ensures que == MarkedQueues(old(que))
    {
      hide QueueOk;
      forall d | 0 <= d < 3
        ensures QueueOk(que[d].(posMark := que[d].posIn), posOut[d], places, |data|, StopOf(d), true)
      {
        QueueMarked(que[d], posOut[d], places, |data|, StopOf(d), marked);
      }
      que := [que[0].(posMark := que[0].posIn), que[1].(posMark := que[1].posIn), que[2].(posMark := que[2].posIn)];
      marked := true;
    }

    method MarkRewind()
      requires Queues() && marked
      modifies this`que
      ensures Queues()
      ensures que == RewoundQueues(old(que))
    {
      hide QueueOk;
      forall d | 0 <= d < 3
        ensures QueueOk(que[d].(posIn := que[d].posMark), posOut[d], places, |data|, StopOf(d), true)
      {
        QueueRewound(que[d], posOut[d], places, |data|, StopOf(d));
      }
      que := [que[0].(posIn := que[0].posMark), que[1].(posIn := que[1].posMark), que[2].(posIn := que[2].posMark)];
    }

    method NewRangeReset()
      requires Queues()
      modifies this`que
      ensures Queues()
      ensures que == ResetQueues(old(que))
    {
      hide QueueOk;
      forall d | 0 <= d < 3
        ensures QueueOk(que[d].(posCur := que[d].posIn), posOut[d], places, |data|, StopOf(d), marked)
      {
        RangeReset(que[d], posOut[d], places, |data|, StopOf(d), marked);
      }
      que := [que[0].(posCur := que[0].posIn), que[1].(posCur := que[1].posIn), que[2].(posCur := que[2].posIn)];
    }

    method NewRangeAdd()
      requires Queues()
      modifies this`que
      ensures Queues()
      ensures que == AddedQueues(old(que))
    {
      hide QueueOk;
      forall d | 0 <= d < 3
        ensures QueueOk(que[d].(posIn := que[d].posCur), posOut[d], places, |data|, StopOf(d), marked)
      {
        RangeAdded(que[d], posOut[d], places, |data|, StopOf(d), marked);
      }
      que := [que[0].(posIn := que[0].posCur), que[1].(posIn := que[1].posCur), que[2].(posIn := que[2].posCur)];
    }

    // NewRangeInsertCubePair, for the enabled distances: fEmpty is always set, so the queue may overwrite its oldest
    // pairs.
    method InsertPair(d: nat, p: nat, q: nat)
      requires Valid() && Queues() && d < 3 && Out(St(), p) && q in cover && Sized(St(), p) && Sized(St(), q)
      requires |data[p].lits| == |data[q].lits| && Distance(data[p], data[q]) == d + 2
      modifies this`que
      ensures Queues() && que == Offered(old(que), St(), p, q, enabled, places)
    {
      hide Ok, Distance;
      if !enabled[d] { return; }
      UsedIds(St(), p, q, nv, no);
      PairEntered(que[d], posOut[d], p, q, info[p].id, info[q].id, places, |data|, StopOf(d), marked);
      var u := que[d];
      var i := u.posCur;
      u := u.(c1 := u.c1[i := p], c2 := u.c2[i := q], id1 := u.id1[i := info[p].id], id2 := u.id2[i := info[q].id],
              posCur := if i + 1 == places then 0 else i + 1);
      hide QueueOk;
      que := que[d := u];
    }

    // IteratorCubePairStart, before the first pair is looked for.
    method IterStart(d: nat)
      requires Queues() && d < 3 && !started
      modifies this`started, this`iterDist, this`posStop, this`marked
      ensures Queues() && started && iterDist == d && posStop == que[d].posIn
    {
      hide QueueOk;
      forall i | 0 <= i < 3
        ensures QueueOk(que[i], posOut[i], places, |data|, if i == d then que[d].posIn as int else -1, false) &&
          que[i].posIn < places
      {
        Restarted(que[i], posOut[i], places, |data|, if i == d then que[d].posIn as int else -1, marked);
      }
      started := true;
      iterDist := d;
      posStop := que[d].posIn;
      marked := false;
    }

    // GetPosDiff: how far the iterator has still to go.
    function PosLeft(): nat
      requires iterDist < |posOut| && places > 0
      reads this`posOut, this`iterDist, this`posStop
    {
      (posStop - posOut[iterDist] + places) % places
    }

    ghost function Now(): View
      reads this`data, this`info, this`a, this`z, this`list, this`free, this`cover, this`pool, this`que, this`posOut
    {
      View(St(), que, posOut)
    }

    // IteratorCubePairNext: pairs whose IDs no longer match are skipped, and the first that does is found, so
    // both its cubes are in the cover.
    method IterNext() returns (found: bool, p: nat, q: nat, ghost seen: seq<View>)
      requires Valid() && Queues() && started && iterDist < 3 && forall h: nat :: !Out(St(), h)
      modifies this`posOut, this`started
      ensures Valid() && Queues() && St() == old(St()) && (found <==> started)
      ensures found ==> p in cover && q in cover && PosLeft() < old(PosLeft())
      ensures Seen(seen, iterDist, posStop, places) && seen[0] == old(Now())
      ensures if found then Fetching(seen[|seen| - 1], p, q)
        else seen[|seen| - 1] == Now() && posOut[iterDist] == posStop
    {
      hide QueueOk, Ok, Matching;
      var d := iterDist;
      found, p, q, seen := false, 0, 0, [Now()];
      while posOut[d] != posStop && !found
        invariant Valid() && Queues() && started && Seen(seen, d, posStop, places) && seen[0] == old(Now())
        invariant PosLeft() <= old(PosLeft())
        invariant found ==> p in cover && q in cover && PosLeft() < old(PosLeft())
        invariant if found then Fetching(seen[|seen| - 1], p, q) else seen[|seen| - 1] == Now()
        decreases PosLeft()
      {
        p, q, found := StepOut(d);
        if !found {
          SeenMore(seen, Now(), d, posStop, places);
          seen := seen + [Now()];
        }
      }
      StopReading(found);
    }

    // The pair p, q has been read at v.
    ghost predicate Fetching(v: View, p: nat, q: nat)
      reads this
    {
      && iterDist < |v.outs| && Matching(v, iterDist) && v.outs[iterDist] != posStop
      && Now() == Past(v, iterDist, places)
      && p == v.que[iterDist].c1[v.outs[iterDist]] && q == v.que[iterDist].c2[v.outs[iterDist]]
    }

    method StopReading(found: bool)
      requires Queues() && started && iterDist < 3 && (found || posOut[iterDist] == posStop)
      modifies this`started
      ensures Queues() && started == found
    {
      hide QueueOk;
      forall d | 0 <= d < 3
        ensures QueueOk(que[d], posOut[d], places, |data|, if found then StopOf(d) else -1, marked)
      {
        if d == iterDist && !found { ReadOut(que[d], posOut[d], places, |data|, posStop, marked); }
      }
      started := found;
    }

    method StepOut(d: nat) returns (p: nat, q: nat, found: bool)
      requires Valid() && Queues() && started && iterDist == d < 3 && posOut[d] != posStop
      requires forall h: nat :: !Out(St(), h)
      modifies this`posOut
      ensures Valid() && Queues() && PosLeft() == old(PosLeft()) - 1
      ensures found ==> p in cover && q in cover
      ensures Now() == Past(old(Now()), d, places) && (found <==> Matching(old(Now()), d))
      ensures found ==> p == que[d].c1[old(posOut)[d]] && q == que[d].c2[old(posOut)[d]]
    {
      hide Ok, QueueOk;
      OkSizes(St(), nv, no);
      assert QueueOk(que[d], posOut[d], places, |data|, StopOf(d), marked);
      NextEntry(que[d], posOut[d], places, |data|, posStop, marked);
      StepLeft(posOut[d], posStop, places);
      var u := que[d];
      p, q := u.c1[posOut[d]], u.c2[posOut[d]];
      found := info[p].id == u.id1[posOut[d]] && info[q].id == u.id2[posOut[d]];
      if found {
        InUse(St(), p, nv, no);
        InUse(St(), q, nv, no);
      }
      posOut := posOut[d := (if posOut[d] + 1 == places then 0 else posOut[d] + 1)];
    }

    // ---- Checking a cube against the cover ----

    // CheckForCloseCubes: the number of cubes gained. Without a gain the cube is inserted only
    // when asked for. The pairs of a cube that stays in the cover are enqueued.
    method CheckForCloseCubes(p: nat, fAdd: bool) returns (gain: nat)
      requires Valid() && Queues() && Out(St(), p)
      modifies this`data, this`info, this`a, this`z, this`list, this`free, this`cover, this`pool, this`nCubesInUse,
               this`nCubesFree,
               this`change, this`que
      ensures Valid() && Queues()
      ensures gain == 0 ==> change == old(change)
      ensures gain == 0 && !fAdd ==> St() == old(St())
      ensures gain == 0 && fAdd ==> p < |old(info)| && -1 <= old(list) < |old(info)| && St() == Inserted(old(St()), p)
      ensures gain > 0 || fAdd ==>
        Added(old(St()), St(), old(data)[p]) && Kept(old(St()), St(), p) && |cover| + gain == |old(cover)| + 1
      ensures gain == 1 ==> Merged(old(St()), St(), p, change)
      ensures p < |old(data)| && (gain == 0 <==> FarFrom(old(St()), old(data)[p]))
      ensures Spread(old(St())) && (gain > 0 || fAdd) ==> Spread(St())
      ensures Steady(old(St()), St(), p)
      ensures Enqueued(old(que), que, St(), p, enabled, |old(cover)|, places)
      decreases |cover|, 1
    {
      hide QueueOk, Ok, Added, Kept, Merged, Spread, FarFrom, FarAt, Out, Valid, Queues, Steady, Scanned, Enqueued,
        AllShaped, ResetQueues, AddedQueues;
      ghost var was, s := que, St();
      QueueSizes();
      NewRangeReset();
      var found, q, d, k := FirstClose(p);
      QueueSizes();
      if !found {
        KeepCube(p, fAdd);
        KeptPairs(was, s, St(), p);
        gain := 0;
      } else if d == 0 {
        CancelWith(p, q, k);
        NewRangeReset();
        EnqueuedNone(was, s, St(), p, enabled, places, k);
        gain := 2;
      } else {
        gain := MergeWith(p, q, k);
        EnqueuedAgain(was, s, St(), que, p, enabled, places, k);
      }
    }

    lemma QueueSizes()
      requires Valid() && Queues()
      ensures AllShaped(que, places) && |enabled| == 3 && Ok(St(), nv, no, -1)
    {
    }

    lemma KeptPairs(was: seq<Queue>, s: Store, t: Store, p: nat)
      requires AllShaped(was, places) && |enabled| == 3 && Ok(s, nv, no, -1) && Out(s, p)
      requires t == s || (p < |s.info| && -1 <= s.list < |s.info| && t == Inserted(s, p))
      requires AllShaped(Scanned(ResetQueues(was), s, p, enabled, places, |s.cover|), places)
      requires que == AddedQueues(Scanned(ResetQueues(was), s, p, enabled, places, |s.cover|))
      ensures Enqueued(was, que, t, p, enabled, |s.cover|, places)
    {
      hide AllShaped, Scanned, Enqueued, ResetQueues, AddedQueues, AfterInsert;
      InsertOk(s, p, nv, no, -1);
      OkSizes(s, nv, no);
      hide Ok;
      EnqueuedKept(was, s, t, p, enabled, places);
    }

    // The first cube of the list at distance zero or one; the pairs on the way are enqueued.
    method FirstClose(p: nat) returns (found: bool, q: int, d: nat, ghost k: nat)
      requires Valid() && Queues() && Out(St(), p)
      modifies this`que
      ensures Valid() && Queues() && p < |data| == |a| == |z| == |info| && Good(data[p], nv, no)
      ensures found ==>
        k < |cover| && q >= 0 && cover[k] == q && q < |data| && Good(data[q], nv, no) &&
        Distance(data[p], data[q]) == d
      ensures found ==> d < 2 && !FarFrom(St(), data[p])
      ensures !found ==> (forall i :: 0 <= i < |cover| ==> FarAt(St(), i, data[p])) && k == |cover|
      ensures que == Scanned(old(que), St(), p, enabled, places, k)
    {
      hide QueueOk, Ok, FarFrom, FarAt, Distance, Queues, Out, Offered;
      OkSizes(St(), nv, no);
      OutGood(St(), p, nv, no);
      q := list;
      k := 0;
      while q != -1
        invariant Valid() && Queues()
        invariant 0 <= k <= |cover| && q == At(cover, k)
        invariant forall i :: 0 <= i < k ==> FarAt(St(), i, data[p])
        invariant que == Scanned(old(que), St(), p, enabled, places, k)
        decreases |cover| - k
      {
        NextPlace(St(), k, nv, no);
        PairSizes(St(), p, q, nv, no);
        d := Distance(data[p], data[q]);
        DistanceFar(St(), k, data[p]);
        if d < 2 {
          return true, q, d, k;
        }
        if d <= 4 { InsertPair(d - 2, p, q); } else { NotOffered(que, St(), p, q, enabled, places); }
        q := info[q].next;
        k := k + 1;
      }
      found, d := false, 0;
    }

    // No close cube has been found.
    method KeepCube(p: nat, fAdd: bool)
      requires Valid() && Queues() && Out(St(), p) && p < |data|
      requires forall i :: 0 <= i < |cover| ==> FarAt(St(), i, data[p])
      modifies this`info, this`list, this`cover, this`nCubesInUse, this`que
      ensures Valid() && Queues() && FarFrom(old(St()), old(data)[p])
      ensures if fAdd then p < |old(info)| && -1 <= old(list) < |old(info)| &&
        St() == Inserted(old(St()), p) else St() == old(St())
      ensures fAdd ==> Added(old(St()), St(), old(data)[p]) && Kept(old(St()), St(), p) && |cover| == |old(cover)| + 1
      ensures fAdd && Spread(old(St())) ==> Spread(St())
      ensures Steady(old(St()), St(), p) && que == AddedQueues(old(que))
    {
      hide QueueOk, Ok, Added, Kept, Spread, FarFrom, FarAt, Queues, Out, Steady;
      AllFar(St(), data[p]);
      SteadySelf(St(), p);
      SteadyInsert(St(), p, nv, no);
      if fAdd { SpreadInserted(St(), p, nv, no); }
      if fAdd {
        CubeInsert(p);
      }
      NewRangeAdd();
    }

    // Two equal cubes cancel.
    method CancelWith(p: nat, q: nat, ghost k: nat)
      requires Valid() && Queues() && Out(St(), p) && k < |cover| && cover[k] == q && p < |data| && q < |data|
      requires |data[p].lits| == |data[q].lits| && Distance(data[p], data[q]) == 0
      modifies this`info, this`list, this`free, this`cover, this`pool, this`nCubesInUse, this`nCubesFree
      ensures Valid() && Queues()
      ensures Added(old(St()), St(), data[p]) && Kept(old(St()), St(), p) && |cover| == |old(cover)| - 1
      ensures Spread(old(St())) ==> Spread(St())
      ensures Steady(old(St()), St(), p) && p !in cover
    {
      hide QueueOk, Ok, Added, Kept, Spread, Queues, Distance, AfterExtract, Steady;
      SameCubes(data[p], data[q]);
      AnnulOk(St(), k, p, nv, no);
      SteadyAnnul(St(), k, p, nv, no);
      AddToFreeCubes(p);
      CubeExtract(q, k);
      ExtractedOut(old(St()), p, k, St(), nv, no);
      AddToFreeCubes(q);
      SpreadWithout(old(St()), k, St());
    }

    // Two cubes that differ in one position become one, which is checked again.
    method MergeWith(p: nat, q: nat, ghost k: nat) returns (gain: nat)
      requires Valid() && Queues() && Out(St(), p) && k < |cover| && cover[k] == q && p < |data| == |a| == |z|
      requires q < |data| == |info|
      requires Good(data[p], nv, no) && Good(data[q], nv, no) && Distance(data[p], data[q]) == 1
      modifies this`data, this`info, this`a, this`z, this`list, this`free, this`cover, this`pool, this`nCubesInUse,
               this`nCubesFree,
               this`change, this`que
      ensures Valid() && Queues() && gain > 0
      ensures Added(old(St()), St(), old(data)[p]) && Kept(old(St()), St(), p) && |cover| + gain == |old(cover)| + 1
      ensures gain == 1 ==> Merged(old(St()), St(), p, change)
      ensures Spread(old(St())) ==> Spread(St())
      ensures Steady(old(St()), St(), p)
      ensures Enqueued(old(que), que, St(), p, enabled, |old(cover)| - 1, places)
      decreases |cover|, 0
    {
      hide QueueOk, Ok, Added, Kept, Merged, Spread, FarFrom, Queues, Good, Value, Distance, AfterExtract, AfterInsert,
        Steady, Enqueued;
      ghost var s := St();
      PairSizes(s, p, q, nv, no);
      var c, d, a', z' := MergedCube(p, q);
      MergeOk(s, k, p, d, a', z', nv, no);
      ghost var m := AfterMerge(s, k, p, d, a', z');
      MergeMerged(s, k, p, d, a', z', c, nv, no);
      Replace(p, q, k, c, d, a', z');
      SpreadMerge(s, k, p, m);
      var more := CheckForCloseCubes(p, true);
      gain := 1 + more;
      MergeAdds(s, k, p, d, a', z', St(), nv, no);
      MergeKept(s, k, p, d, a', z', St(), nv, no);
      SteadyMerge(s, k, p, d, a', z', nv, no);
      SteadyTwice(s, m, St(), p);
    }

    // The merged cube, and the record for taking the merge back.
    method MergedCube(p: nat, q: nat) returns (c: Change, d: Prod, a': int, z': int)
      requires p < |data| == |a| == |z| == |info| && q < |data|
      requires Good(data[p], nv, no) && Good(data[q], nv, no) && Distance(data[p], data[q]) == 1
      requires a[p] == Literals(data[p].lits) && z[p] == Ones(data[p].outs)
      ensures Good(d, nv, no) && a' == Literals(d.lits) && z' == Ones(d.outs)
      ensures forall o: nat, x: Input :: Value(d, o, x) == (Value(data[p], o, x) != Value(data[q], o, x))
      ensures Joins(data[p], data[q], d)
      ensures c.p == p && c.prevQa == a[q] && c.prevId == info[q].id && c.prevPa == a[p] && c.prevPz == z[p]
      ensures if c.fInput then
          && c.v < nv && d == data[p].(lits := data[p].lits[c.v := ExorCode(data[p].lits[c.v], c.value)])
          && ExorCode(ExorCode(data[p].lits[c.v], c.value), c.value) == data[p].lits[c.v] && z' == z[p]
        else d == data[p].(outs := ExorOuts(data[p].outs, data[q].outs)) && a' == a[p]
    {
      NearCubes(data[p], data[q]);
      if data[p].outs != data[q].outs {
        c := Change(false, p, a[q], a[p], z[p], 0, 0, info[q].id);
        d := data[p].(outs := ExorOuts(data[p].outs, data[q].outs));
        a', z' := a[p], Ones(d.outs);
        forall o: nat, x: Input ensures Value(d, o, x) == (Value(data[p], o, x) != Value(data[q], o, x)) {
          MergeOutput(data[p], data[q], nv, no, o, x);
        }
      } else {
        var v := Diffs(data[p].lits, data[q].lits, nv)[0];
        var was, value := data[p].lits[v], data[q].lits[v];
        c := Change(true, p, a[q], a[p], z[p], v, value, info[q].id);
        d := data[p].(lits := data[p].lits[v := ExorCode(was, value)]);
        ExorValue(was, value, true);
        LiteralsChanged(data[p].lits, v, ExorCode(was, value));
        a', z' := a[p], z[p];
        if was == 1 || was == 2 { a' := a' - 1; }
        if d.lits[v] == 1 || d.lits[v] == 2 { a' := a' + 1; }
        forall o: nat, x: Input ensures Value(d, o, x) == (Value(data[p], o, x) != Value(data[q], o, x)) {
          MergeInput(data[p], data[q], v, nv, no, o, x);
        }
      }
    }

    // q goes to the free list, p gets the merged contents.
    method Replace(p: nat, q: nat, ghost k: nat, c: Change, d: Prod, a': int, z': int)
      requires Valid() && Queues() && Out(St(), p) && k < |cover| && cover[k] == q
      requires p < |data| == |a| == |z| == |info| && q < |data|
      requires Good(d, nv, no) && a' == Literals(d.lits) && z' == Ones(d.outs)
      modifies this`data, this`info, this`a, this`z, this`list, this`free, this`cover, this`pool, this`nCubesInUse,
               this`nCubesFree, this`change
      ensures Valid() && Queues() && change == c && -1 <= old(info)[q].prev < |old(info)|
      ensures -1 <= old(info)[q].next < |old(info)|
      ensures St() == AfterMerge(old(St()), k, p, d, a', z') && |cover| == |old(cover)| - 1
    {
      hide QueueOk, Ok, AfterExtract;
      change := c;
      ghost var s := St();
      ExtractedAlso(s, p, k, nv, no);
      CubeExtract(q, k);
      ChangeOk(St(), p, d, a', z', nv, no);
      SetContents(p, d, a', z');
      AddToFreeCubes(q);
    }

    method SetContents(p: nat, d: Prod, a': int, z': int)
      requires Queues() && p < |data| == |a| == |z|
      modifies this`data, this`a, this`z
      ensures Queues() && |data| == |old(data)|
      ensures St() == Changed(old(St()), p, d, a', z')
    {
      data := data[p := d];
      a := a[p := a'];
      z := z[p := z'];
    }

    // UndoRecentChanges: take the last merge back.
    method UndoRecentChanges(ghost s: Store, ghost k: nat)
      requires Valid() && Queues() && Ok(s, nv, no, -1) && Out(s, change.p) && MergedAt(s, St(), change.p, k, change)
      modifies this`data, this`info, this`a, this`z, this`list, this`free, this`cover, this`pool, this`nCubesInUse,
               this`nCubesFree
      ensures Valid() && Queues() && Restored(s, St(), change.p)
    {
      hide QueueOk, Ok, Restored, MergedAt, AfterInsert, AfterExtract, Reinserted;
      ghost var t := St();
      UndoData(s, t, change.p, k, change, nv, no);
      UndoCounts(s, t, change.p, k, change);
      var q := TakeBack(s, k);
      UndoRestores(s, t, St(), change.p, k, change, nv, no);
      SetBack(s, q);
    }

    // The merged cube leaves the cover, the one it was merged with comes back.
    method TakeBack(ghost s: Store, ghost k: nat) returns (q: nat)
      requires Valid() && Queues() && Ok(s, nv, no, -1) && Out(s, change.p) && MergedAt(s, St(), change.p, k, change)
      modifies this`info, this`list, this`free, this`cover, this`pool, this`nCubesInUse, this`nCubesFree
      ensures Valid() && Queues() && k < |s.cover| && q == s.cover[k]
      ensures cover == [s.cover[k]] + Without(s.cover, k) && pool == s.pool && Out(St(), change.p) && |info| == |s.info|
      ensures forall h: nat :: h < |s.info| ==> info[h].id == s.info[h].id && info[h].mark == s.info[h].mark
    {
      hide QueueOk, Ok, MergedAt, AfterInsert, AfterExtract, Added, Kept;
      ghost var p, t := change.p, St();
      UndoCounts(s, t, p, k, change);
      UndoOk(s, t, p, k, change, nv, no);
      ReinsertOk(s, t, p, k, change, nv, no);
      q := Regain();
      CubeInsert(q);
      CubeExtract(change.p, 1);
    }

    // The last freed cube, with its old ID.
    method Regain() returns (q: nat)
      requires Valid() && pool != []
      requires 0 <= free < |info| == |data| == |a| == |z| && Ok(Reinserted(St(), change.prevId), nv, no, -1)
      modifies this`info, this`free, this`pool, this`nCubesFree
      ensures Valid() && q == old(free) && St() == Reinserted(old(St()), change.prevId)
    {
      hide QueueOk, Ok;
      q := GetFreeCube();
      SameFill(St(), q);
      info := info[q := info[q].(id := change.prevId)];
    }

    method SetBack(ghost s: Store, q: nat)
      requires change.p < |data| == |a| == |z| && change.p < |s.data| == |s.a| == |s.z| && nCubesInUse == |cover|
      requires nCubesFree == |pool| && 1 <= cIDs <= 255 && Queues()
      requires var r := Changed(St(), change.p, s.data[change.p], s.a[change.p], s.z[change.p]);
        Ok(r, nv, no, -1) && Restored(s, r, change.p)
      requires change.prevPa == s.a[change.p] && change.prevPz == s.z[change.p] && q < |data|
      requires change.fInput ==> change.v < |data[change.p].lits| && z[change.p] == s.z[change.p]
      requires change.fInput ==>
        data[change.p].(lits := data[change.p].lits[
          change.v := ExorCode(data[change.p].lits[change.v], change.value)]) == s.data[change.p]
      requires !change.fInput ==> |data[change.p].outs| == |data[q].outs| && a[change.p] == s.a[change.p]
      requires !change.fInput ==>
        data[change.p].(outs := ExorOuts(data[change.p].outs, data[q].outs)) == s.data[change.p]
      modifies this`data, this`a, this`z
      ensures Valid() && Queues() && Restored(s, St(), change.p)
    {
      hide QueueOk, Ok, Restored;
      var p := change.p;
      if change.fInput {
        data := data[p := data[p].(lits := data[p].lits[change.v := ExorCode(data[p].lits[change.v], change.value)])];
        a := a[p := change.prevPa];
      } else {
        data := data[p := data[p].(outs := ExorOuts(data[p].outs, data[q].outs))];
        z := z[p := change.prevPz];
      }
      assert St() == Changed(old(St()), p, s.data[p], s.a[p], s.z[p]);
    }
  }

  ghost predicate FarAt(s: Store, i: int, d: Prod) {
    0 <= i < |s.cover| && s.cover[i] < |s.data| ==> FarApart(d, s.data[s.cover[i]])
  }

  // What the distance from the cube at place k says.
  lemma DistanceFar(s: Store, k: nat, d: Prod)
    requires k < |s.cover| && s.cover[k] < |s.data| && |d.lits| == |s.data[s.cover[k]].lits|
    ensures if Distance(d, s.data[s.cover[k]]) < 2 then !FarFrom(s, d) else FarAt(s, k, d)
  {
    assert s.cover[k] in s.cover;
  }

  lemma NotOffered(que: seq<Queue>, s: Store, p: nat, q: nat, enabled: seq<bool>, places: nat)
    requires Sized(s, p) && Sized(s, q) && |s.data[p].lits| == |s.data[q].lits|
    requires Distance(s.data[p], s.data[q]) > 4
    ensures Offered(que, s, p, q, enabled, places) == que
  {
  }

  lemma OutGood(s: Store, p: nat, nv: nat, no: nat)
    requires Ok(s, nv, no, -1) && Out(s, p)
    ensures p < |s.data| && Good(s.data[p], nv, no)
  {
    assert CubeOk(s, p, nv, no);
  }

  lemma AllFar(s: Store, d: Prod)
    requires forall i :: 0 <= i < |s.cover| ==> FarAt(s, i, d)
    ensures FarFrom(s, d)
  {
    forall h: nat | h in s.cover && h < |s.data| ensures FarApart(d, s.data[h]) {
      var i :| 0 <= i < |s.cover| && s.cover[i] == h;
      assert FarAt(s, i, d);
    }
  }

  lemma SpreadInserted(s: Store, p: nat, nv: nat, no: nat)
    requires Ok(s, nv, no, -1) && Out(s, p) && FarFrom(s, s.data[p])
    ensures p < |s.info| && -1 <= s.list < |s.info| && (Spread(s) ==> Spread(Inserted(s, p)))
  {
    hide AfterInsert;
    InsertOk(s, p, nv, no, -1);
    if Spread(s) { SpreadMore(s, Inserted(s, p), p); }
  }

  // Taking a cube out.
  lemma SpreadWithout(s: Store, k: nat, t: Store)
    requires k < |s.cover| && t.data == s.data && t.cover == Without(s.cover, k)
    ensures Spread(s) ==> Spread(t)
  {
    if Spread(s) { SpreadLess(s, t); }
  }

  lemma SpreadMerge(s: Store, k: nat, p: nat, m: Store)
    requires k < |s.cover| && p < |s.data| && p !in s.cover && m.cover == Without(s.cover, k) && |m.data| == |s.data|
    requires m.data == s.data[p := m.data[p]]
    ensures Spread(s) ==> Spread(m)
  {
    if Spread(s) { SpreadLess(s, m); }
  }

  lemma HeadPlace(s: Store, k: nat, nv: nat, no: nat)
    requires Ok(s, nv, no, -1) && k < |s.cover|
    ensures s.cover[k] < |s.info| && -1 <= s.info[s.cover[k]].prev < |s.info| && (s.list == s.cover[k] <==> k == 0)
    ensures k > 0 ==> s.info[s.cover[k]].prev >= 0
  {
    ExtractListed(s.info, s.list, s.cover, k);
  }

  // A cube with an ID is in the cover when nothing is outside the lists.
  lemma InUse(s: Store, p: nat, nv: nat, no: nat)
    requires Ok(s, nv, no, -1) && p < |s.data| && s.info[p].id != 0 && forall h: nat :: !Out(s, h)
    ensures p in s.cover
  {
    assert !Out(s, p);
  }

  lemma UsedIds(s: Store, p: nat, q: nat, nv: nat, no: nat)
    requires Ok(s, nv, no, -1) && Out(s, p) && q in s.cover
    ensures p < |s.info| == |s.data| && s.info[p].id != 0 && q < |s.info| && s.info[q].id != 0
  {
    ListedRange(s.info, s.list, s.cover);
    assert CubeOk(s, p, nv, no) && CubeOk(s, q, nv, no);
  }

  lemma StepLeft(i: nat, stop: nat, n: nat)
    requires i < n && stop < n && i != stop
    ensures (stop - (if i + 1 == n then 0 else i + 1) + n) % n == (stop - i + n) % n - 1
  {
    Left(i, stop, n);
    Left(if i + 1 == n then 0 else i + 1, stop, n);
  }

  lemma Left(i: nat, stop: nat, n: nat)
    requires i < n && stop < n
    ensures (stop - i + n) % n == if i <= stop then stop - i else stop - i + n
  {
    if i <= stop { Wrap(stop - i, n); } else { Small(stop - i + n, n); }
  }

  lemma Wrap(a: nat, n: nat)
    requires a < n
    ensures (a + n) % n == a
  {
  }

  lemma Small(a: nat, n: nat)
    requires a < n
    ensures a % n == a
  {
  }

  lemma OkSizes(s: Store, nv: nat, no: nat)
    requires Ok(s, nv, no, -1)
    ensures |s.data| == |s.info| == |s.a| == |s.z| && s.list == At(s.cover, 0)
  {
  }

  // The next cube of the list.
  lemma NextPlace(s: Store, k: nat, nv: nat, no: nat)
    requires Ok(s, nv, no, -1) && At(s.cover, k) != -1
    ensures k < |s.cover| && s.cover[k] < |s.info| && s.info[s.cover[k]].next == At(s.cover, k + 1)
  {
    assert LinkOk(s.info, s.cover, k);
  }

  lemma PairSizes(s: Store, p: nat, q: int, nv: nat, no: nat)
    requires Ok(s, nv, no, -1) && Out(s, p) && q in s.cover
    ensures 0 <= q < |s.data| && p < |s.data| && Good(s.data[p], nv, no) && Good(s.data[q], nv, no)
    ensures s.a[p] == Literals(s.data[p].lits) && s.z[p] == Ones(s.data[p].outs)
  {
    ListedRange(s.info, s.list, s.cover);
    assert CubeOk(s, p, nv, no) && CubeOk(s, q, nv, no);
  }

  lemma ExtractedOut(s: Store, p: nat, k: nat, t: Store, nv: nat, no: nat)
    requires Ok(s, nv, no, -1) && Out(s, p) && k < |s.cover| && t.cover == Without(s.cover, k)
    requires t.pool == [p] + s.pool && |t.data| == |s.data|
    ensures Out(t, s.cover[k])
  {
    ListedDistinct(s.info, s.list, s.cover);
    ListedRange(s.info, s.list, s.cover);
    WithoutMembers(s.cover, k);
    assert s.cover[k] in s.cover;
  }

  lemma ExtractedAlso(s: Store, p: nat, k: nat, nv: nat, no: nat)
    requires Ok(s, nv, no, -1) && Out(s, p) && k < |s.cover|
    ensures s.cover[k] < |s.info| && -1 <= s.info[s.cover[k]].prev < |s.info|
    ensures -1 <= s.info[s.cover[k]].next < |s.info|
    ensures Out(Extracted(s, k), p) && Out(Extracted(s, k), s.cover[k]) && p != s.cover[k]
  {
    ExtractOk(s, k, nv, no);
    assert s.cover[k] in s.cover;
  }

  lemma SameFill(s: Store, q: nat)
    requires q < |s.data| == |s.a| == |s.z|
    ensures s.data[q := s.data[q]] == s.data && s.a[q := s.a[q]] == s.a && s.z[q := s.z[q]] == s.z
  {
  }
}
