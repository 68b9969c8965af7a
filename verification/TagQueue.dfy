/**
 The tag routines of one queue, on the arrays they use.
 */
module TagQueue {
  import opened Lists
  import T = Tags

  /** Busy stands for -EBUSY. */
  datatype Outcome = Done | Busy

  /** Requests in the order in which they were started. */
  ghost predicate InStartOrder(l: seq<nat>, stamp: map<nat, nat>) {
    && (forall x :: x in l ==> x in stamp)
    && forall i, j :: 0 <= i < j < |l| ==> stamp[l[i]] < stamp[l[j]]
  }

  /** The busy list holds the tagged requests once each, from the newest start to the oldest. */
  ghost predicate Listed(busy: seq<nat>, tag: map<nat, nat>, stamp: map<nat, nat>, clock: nat) {
    && (forall rq :: rq in tag <==> rq in busy)
    && NoDup(busy) && T.Newest(busy, stamp) && (forall rq :: rq in busy ==> stamp[rq] < clock)
  }

  lemma ListedFirst(busy: seq<nat>, tag: map<nat, nat>, stamp: map<nat, nat>, clock: nat, rq: nat, t: nat)
    requires Listed(busy, tag, stamp, clock) && rq !in tag
    ensures Listed([rq] + busy, tag[rq := t], stamp[rq := clock], clock + 1)
  {
    T.NewestFirst(busy, stamp, rq, clock);
    assert ([rq] + busy)[1..] == busy;
    hide T.Newest;
  }

  lemma ListedWithout(busy: seq<nat>, tag: map<nat, nat>, stamp: map<nat, nat>, clock: nat, rq: nat)
    requires Listed(busy, tag, stamp, clock)
    ensures Listed(Without(busy, rq), tag - {rq}, stamp, clock)
  {
    WithoutOk(busy, rq);
    T.WithoutNewest(busy, stamp, rq);
    hide T.Newest, NoDup, Without;
  }

  // ----- what becomes of a map that is copied into another -----

  /** tag_index, and rq->tag of the requests that have one. */
  datatype TagMap = TagMap(index: seq<Option<nat>>, tag: map<nat, nat>)

  /** Every entry belongs to a request with that tag. */
  ghost predicate Owned(m: TagMap) {
    forall t :: 0 <= t < |m.index| && m.index[t].Some? ==> m.index[t].value in m.tag && m.tag[m.index[t].value] == t
  }

  /** Every request with a tag has the entry of its tag. */
  ghost predicate Kept(m: TagMap) {
    forall rq :: rq in m.tag ==> m.tag[rq] < |m.index| && m.index[m.tag[rq]] == Some(rq)
  }

  /** A bit is set iff its entry is. */
  ghost predicate Matched(bits: seq<bool>, index: seq<Option<nat>>) {
    |bits| == |index| && forall t :: 0 <= t < |bits| ==> (bits[t] <==> index[t].Some?)
  }

  lemma TakenOk(m: TagMap, rq: nat, t: nat)
    requires Owned(m) && rq !in m.tag && t < |m.index| && m.index[t] == None
    ensures var n := TagMap(m.index[t := Some(rq)], m.tag[rq := t]); Owned(n) && (Kept(m) ==> Kept(n))
  {
  }

  lemma GivenBackOk(m: TagMap, rq: nat, t: nat)
    requires Owned(m) && rq in m.tag && m.tag[rq] == t < |m.index|
    ensures var n := TagMap(m.index[t := None], m.tag - {rq});
      Owned(n) && (Kept(m) ==> Kept(n) && m.index[t] == Some(rq))
  {
  }

  /** What an index of the given size holds of an older one after the copy. */
  function Copied(index: seq<Option<nat>>, size: nat): (r: seq<Option<nat>>)
    ensures |r| == size && forall t :: 0 <= t < size ==> r[t] == if t < |index| then index[t] else None
  {
    seq(size, t requires 0 <= t => if t < |index| then index[t] else None)
  }

  /** A copied map keeps its requests exactly if the new index reaches every tag in use. */
  lemma CopyKeeps(m: TagMap, size: nat)
    requires Owned(m) && Kept(m)
    ensures Owned(m.(index := Copied(m.index, size)))
    ensures Kept(m.(index := Copied(m.index, size))) <==> forall rq :: rq in m.tag ==> m.tag[rq] < size
  {
  }

  /** A map of the given depth with every tag in use. */
  function Full(depth: nat): (m: TagMap) {
    var ids := seq(depth, t requires 0 <= t => t);
    TagMap(seq(depth, t requires 0 <= t => Some(t)), map t: nat | t in ids :: t)
  }

  lemma FullIsSound(depth: nat)
    ensures Owned(Full(depth)) && Kept(Full(depth)) && |Full(depth).index| == depth
    ensures forall t: nat :: t < depth ==> t in Full(depth).tag && Full(depth).tag[t] == t
  {
    var ids := seq(depth, t requires 0 <= t => t);
    forall t: nat
      ensures t in ids <==> t < depth
    {
      if t < depth {
        assert ids[t] == t;
      }
    }
  }

  /**
   Growing a map of depth old is safe for all its contents exactly if twice nr_requests is at least old: the
   new depth is cut to that, whatever was asked for.
   */
  lemma GrowIsSafe(old': nat, depth: nat, nrRequests: nat)
    requires depth > old'
    ensures 2 * nrRequests >= old' <==>
      forall m :: Owned(m) && Kept(m) && |m.index| == old' ==>
        Kept(m.(index := Copied(m.index, T.Depth(depth, nrRequests))))
  {
    var size := T.Depth(depth, nrRequests);
    forall m | Owned(m) && Kept(m) && |m.index| == old'
      ensures Kept(m.(index := Copied(m.index, size))) <==> forall rq :: rq in m.tag ==> m.tag[rq] < size
    {
      CopyKeeps(m, size);
    }
    var m := Full(old');
    FullIsSound(old');
    if 2 * nrRequests < old' {
      assert old' - 1 in m.tag && m.tag[old' - 1] >= size;
    }
  }

  /** A device with 64 commands in flight on a queue of 8 requests is told that it can take 128. */
  lemma GrowStrandsTags()
    ensures var m := Full(64); var r := m.(index := Copied(m.index, T.Depth(128, 8)));
      Owned(m) && Kept(m) && |r.index| == 16 && 40 in r.tag && r.tag[40] == 40 && !Kept(r)
  {
    FullIsSound(64);
    var r := Full(64).(index := Copied(Full(64).index, 16));
    assert r.tag[40] >= |r.index|;
  }

  // ----- the routines -----

  /** struct blk_queue_tag and the part of struct request_queue that goes with it. */
  class Queue {
    var bits: array<bool>
    var index: array<Option<nat>>
    var maxDepth: nat
    var refcnt: nat
    /** rq->tag of the requests that have one */
    var tag: map<nat, nat>
    var busy: seq<nat>
    var queueHead: seq<nat>
    /** When each request was started. */
    ghost var stamp: map<nat, nat>
    ghost var clock: nat

    ghost function Tagged(): (m: TagMap)
      reads this, index
    {
      TagMap(index[..], tag)
    }

    /**
     Bits and entries agree, entries have owners, and the busy list holds the tagged requests once each, from
     the newest start to the oldest.
     */
    ghost predicate Sound()
      reads this, bits, index
    {
      && bits.Length == index.Length && maxDepth <= bits.Length
      && Matched(bits[..], index[..])
      && Owned(Tagged())
      && Listed(busy, tag, stamp, clock)
    }

    /** Sound, and every tagged request has its entry. */
    ghost predicate Valid()
      reads this, bits, index
    {
      Sound() && Kept(Tagged())
    }

    /** find_first_zero_bit */
    method FirstZeroBit(size: nat) returns (t: nat)
      requires size <= bits.Length
      ensures t <= size && (forall k :: 0 <= k < t ==> bits[k]) && (t < size ==> !bits[t])
    {
      t := 0;
      while t < size && bits[t]
        invariant t <= size && forall k :: 0 <= k < t ==> bits[k]
      {
        t := t + 1;
      }
    }

    /** blk_queue_start_tag, once it has found a free tag. */
    method Assign(rq: nat, t: nat)
      requires Sound() && rq !in tag && t < bits.Length && !bits[t]
      modifies this`tag, this`busy, this`stamp, this`clock, bits, index
      ensures Sound() && (old(Valid()) ==> Valid()) && bits == old(bits) && index == old(index)
      ensures tag == old(tag)[rq := t] && busy == [rq] + old(busy)
      ensures stamp == old(stamp)[rq := old(clock)] && clock == old(clock) + 1
    {
      ListedFirst(busy, tag, stamp, clock, rq, t);
      TakenOk(Tagged(), rq, t);
      ghost var (oldBits, oldIndex) := (bits[..], index[..]);
      assert Matched(oldBits[t := true], oldIndex[t := Some(rq)]);
      hide Listed, Owned, Kept, Matched;
      bits[t] := true;
      tag := tag[rq := t];
      index[t] := Some(rq);
      assert bits[..] == oldBits[t := true] && index[..] == oldIndex[t := Some(rq)];
      busy := [rq] + busy;
      stamp, clock := stamp[rq := clock], clock + 1;
    }

    /** blk_queue_start_tag; false if no tag can be had.  asyncInFlight is q->in_flight[BLK_RW_ASYNC]. */
    method StartTag(rq: nat, sync: bool, asyncInFlight: nat) returns (ok: bool)
      requires Sound() && rq !in tag
      modifies this`tag, this`busy, this`stamp, this`clock, bits, index
      ensures Sound() && (old(Valid()) ==> Valid()) && bits == old(bits) && index == old(index)
      ensures ok <==> var limit := T.Limit(maxDepth, sync);
        && (sync || maxDepth <= 1 || asyncInFlight <= limit) && (exists t :: 0 <= t < limit && !old(bits[t]))
      ensures ok ==> rq in tag && tag == old(tag)[rq := tag[rq]] && busy == [rq] + old(busy)
      ensures ok ==> stamp == old(stamp)[rq := old(clock)] && clock == old(clock) + 1
      ensures ok ==> tag[rq] < T.Limit(maxDepth, sync) && forall k :: 0 <= k < tag[rq] ==> old(bits[k])
      ensures ok && !sync && maxDepth >= 2 ==> tag[rq] < maxDepth - 1 && (maxDepth >= 3 ==> tag[rq] < maxDepth - 2)
      ensures sync ==> (ok <==> exists t :: 0 <= t < maxDepth && !old(bits[t]))
      ensures !ok ==> tag == old(tag) && busy == old(busy) && bits[..] == old(bits[..]) && index[..] == old(index[..])
    {
      var limit := maxDepth;
      if !sync && limit > 1 {
        limit := limit - 2;
        if limit == 0 {
          limit := 1;
        }
        if asyncInFlight > limit {
          return false;
        }
      }
      var t := FirstZeroBit(limit);
      if t >= limit {
        return false;
      }
      Assign(rq, t);
      return true;
    }

    /** blk_queue_end_tag, for a tag inside the map. */
    method Release(rq: nat, t: nat) returns (odd: bool)
      requires Sound() && rq in tag && tag[rq] == t < bits.Length
      modifies this`tag, this`busy, bits, index
      ensures Sound() && bits == old(bits) && index == old(index)
      ensures old(Valid()) ==> Valid() && !odd
      ensures tag == old(tag) - {rq} && busy == Without(old(busy), rq) && (odd <==> old(index[t]) == None)
    {
      ListedWithout(busy, tag, stamp, clock, rq);
      GivenBackOk(Tagged(), rq, t);
      ghost var (oldBits, oldIndex) := (bits[..], index[..]);
      assert Matched(oldBits[t := false], oldIndex[t := None]) && (bits[t] <==> index[t].Some?);
      hide Listed, Without, Owned, Kept, Matched;
      busy := Without(busy, rq);
      tag := tag - {rq};
      odd := index[t] == None || !bits[t];
      index[t] := None;
      bits[t] := false;
      assert bits[..] == oldBits[t := false] && index[..] == oldIndex[t := None];
    }

    /**
     blk_queue_end_tag; odd is any of its complaints about a tag that is missing or not busy.  A tag beyond the
     map is not given back, and its request stays on the busy list.
     */
    method EndTag(rq: nat) returns (odd: bool)
      requires Sound() && rq in tag
      modifies this`tag, this`busy, bits, index
      ensures Sound() && bits == old(bits) && index == old(index)
      ensures old(Valid()) ==> Valid() && !odd && rq !in tag
      ensures old(tag[rq]) >= bits.Length ==> tag == old(tag) && busy == old(busy) && !odd
      ensures old(tag[rq]) < bits.Length ==> tag == old(tag) - {rq} && busy == Without(old(busy), rq)
      ensures old(tag[rq]) < bits.Length ==> (odd <==> old(index[tag[rq]]) == None)
    {
      var t := tag[rq];
      if t >= bits.Length {
        return false;
      }
      odd := Release(rq, t);
    }

    /** blk_requeue_request with no ordered sequence running: the request goes to the head of the queue. */
    method Requeue(rq: nat)
      requires Valid() && rq in tag
      modifies this`tag, this`busy, this`queueHead, bits, index
      ensures Valid() && bits == old(bits) && index == old(index)
      ensures tag == old(tag) - {rq} && busy == Without(old(busy), rq) && queueHead == [rq] + old(queueHead)
    {
      var _ := EndTag(rq);
      queueHead := [rq] + queueHead;
    }

    /**
     blk_queue_invalidate_tags: no tag is left, and the busy requests stand at the head of the queue, each once,
     in the order in which they were started.
     */
    method InvalidateTags()
      requires Valid()
      modifies this`tag, this`busy, this`queueHead, bits, index
      ensures Valid() && tag == map[] && busy == []
      ensures forall t :: 0 <= t < bits.Length ==> !bits[t] && index[t] == None
      ensures |queueHead| == |old(busy)| + |old(queueHead)| && queueHead[|old(busy)|..] == old(queueHead)
      ensures forall rq :: rq in queueHead[..|old(busy)|] <==> rq in old(tag)
      ensures InStartOrder(queueHead[..|old(busy)|], stamp)
    {
      ghost var back := RequeueAll();
      assert queueHead[..|back|] == back;
      NoneBusy(bits[..], Tagged(), stamp, clock);
      hide Kept, Owned, Listed, Matched;
    }

    /** The loop of blk_queue_invalidate_tags. */
    method RequeueAll() returns (ghost back: seq<nat>)
      requires Valid()
      modifies this`tag, this`busy, this`queueHead, bits, index
      ensures Valid() && bits == old(bits) && index == old(index) && busy == []
      ensures queueHead == back + old(queueHead) && |back| == |old(busy)| && Returned([], back, old(tag), stamp)
    {
      NoneReturned(busy, tag, stamp, clock);
      hide Sound, Kept, Returned;
      back := [];
      ghost var head := queueHead;
      assert back + head == head;
      while busy != []
        invariant Valid() && bits == old(bits) && index == old(index)
        invariant queueHead == back + head && |back| + |busy| == |old(busy)|
        invariant Returned(busy, back, old(tag), stamp)
        decreases |busy|
      {
        assert [busy[0]] + (back + head) == ([busy[0]] + back) + head;
        back := RequeueFirst(back, old(tag));
      }
    }

    /** One turn of the loop of blk_queue_invalidate_tags. */
    method RequeueFirst(ghost back: seq<nat>, ghost all: map<nat, nat>) returns (ghost more: seq<nat>)
      requires Valid() && busy != [] && Returned(busy, back, all, stamp)
      modifies this`tag, this`busy, this`queueHead, bits, index
      ensures Valid() && bits == old(bits) && index == old(index)
      ensures more == [old(busy)[0]] + back && queueHead == [old(busy)[0]] + old(queueHead)
      ensures busy == old(busy)[1..] && Returned(busy, more, all, stamp)
    {
      ReturnedOne(busy, tag, back, all, stamp, clock);
      hide Sound, Owned, Kept, Returned, Listed, Without;
      more := [busy[0]] + back;
      Requeue(busy[0]);
    }

    /**
     blk_queue_resize_tags.  A map that grows is copied as far as the new one reaches; the requests whose tags
     lie beyond keep them and have no entry any more.  overrun: the copy of the index, which is as long as the
     old one, is longer than the new one.
     */
    method ResizeTags(depth: nat, nrRequests: nat) returns (r: Outcome, overrun: bool)
      requires Valid()
      modifies this`bits, this`index, this`maxDepth
      ensures Sound()
      ensures r == Busy <==> depth > old(bits.Length) && refcnt != 1
      ensures r == Busy ==> maxDepth == old(maxDepth) && bits == old(bits) && index == old(index)
      ensures depth <= old(bits.Length) ==> maxDepth == depth && bits == old(bits) && index == old(index)
      ensures var size := T.Depth(depth, nrRequests);
        depth > old(bits.Length) && r == Done ==>
          && bits.Length == maxDepth == size && index[..] == Copied(old(index[..]), size)
          && (Valid() <==> forall rq :: rq in tag ==> tag[rq] < size)
      ensures overrun <==> depth > old(bits.Length) && r == Done && 2 * nrRequests < old(bits.Length)
      ensures overrun <==> bits.Length < old(bits.Length)
      ensures !overrun ==> Valid()
    {
      overrun := false;
      if depth <= bits.Length {
        maxDepth := depth;
        return Done, false;
      }
      if refcnt != 1 {
        return Busy, false;
      }
      var size := T.Depth(depth, nrRequests);
      overrun := bits.Length > size;
      ghost var m := Tagged();
      CopyKeeps(m, size);
      hide Listed, Kept;
      var newIndex := new Option<nat>[size](i => None);
      var newBits := new bool[size](i => false);
      forall i | 0 <= i < bits.Length && i < size {
        newIndex[i] := index[i];
      }
      forall i | 0 <= i < bits.Length && i < size {
        newBits[i] := bits[i];
      }
      bits, index, maxDepth := newBits, newIndex, size;
      assert index[..] == Copied(m.index, size);
      assert Matched(bits[..], index[..]);
      hide Owned, Matched;
      r := Done;
    }
  }

  lemma NoneBusy(bits: seq<bool>, m: TagMap, stamp: map<nat, nat>, clock: nat)
    requires Matched(bits, m.index) && Owned(m) && Listed([], m.tag, stamp, clock)
    ensures m.tag == map[] && forall t :: 0 <= t < |bits| ==> !bits[t] && m.index[t] == None
  {
  }

  /** back has been put back in start order, and everything in it was started after what is still busy. */
  ghost predicate Returned(busy: seq<nat>, back: seq<nat>, all: map<nat, nat>, stamp: map<nat, nat>) {
    && InStartOrder(back, stamp)
    && (forall rq :: rq in all <==> rq in busy || rq in back)
    && (forall x, y :: x in busy && y in back && x in stamp && y in stamp ==> stamp[x] < stamp[y])
  }

  lemma NoneReturned(busy: seq<nat>, tag: map<nat, nat>, stamp: map<nat, nat>, clock: nat)
    requires Listed(busy, tag, stamp, clock)
    ensures Returned(busy, [], tag, stamp)
  {
  }

  lemma ReturnedOne(busy: seq<nat>, tag: map<nat, nat>, back: seq<nat>, all: map<nat, nat>,
                      stamp: map<nat, nat>, clock: nat)
    requires busy != [] && Listed(busy, tag, stamp, clock) && Returned(busy, back, all, stamp)
    ensures busy[0] in tag && Without(busy, busy[0]) == busy[1..]
    ensures Returned(busy[1..], [busy[0]] + back, all, stamp)
  {
    var (rq, rest, now) := (busy[0], busy[1..], [busy[0]] + back);
    assert busy == [rq] + rest && rq in busy;
    forall x | x in rest
      ensures x in stamp && stamp[x] < stamp[rq]
    {
      var i :| 0 <= i < |rest| && rest[i] == x;
      assert busy[i + 1] == x;
    }
    forall x
      ensures x in all <==> x in rest || x in now
    {
    }
    ReturnedOrder(rq, back, stamp);
    hide T.Newest, NoDup, InStartOrder;
  }

  lemma ReturnedOrder(rq: nat, back: seq<nat>, stamp: map<nat, nat>)
    requires rq in stamp && InStartOrder(back, stamp) && forall y :: y in back ==> stamp[rq] < stamp[y]
    ensures InStartOrder([rq] + back, stamp)
  {
    var now := [rq] + back;
    forall i, j | 0 <= i < j < |now|
      ensures stamp[now[i]] < stamp[now[j]]
    {
      assert now[j] == back[j - 1] && now[j] in back;
    }
  }
}
