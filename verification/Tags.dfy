/**
 Tags that several queues draw from one map.  Queues have locks of their own, so the two halves of
 taking and of giving back a tag interleave freely between queues; the bit in the map guards the entry
 in the index.
 */
module Tags {
  import opened Lists

  /** What a queue is in the middle of, under its own lock. */
  datatype Pc = Free | Got(rq: nat, tag: nat) | Dropped(tag: nat)

  /**
   bits is tag_map, index is tag_index without its empty entries, tag is rq->tag of the tagged requests,
   busy the tag_busy_list of every queue, head first, and stamp counts the starts.
   */
  datatype State = State(bits: set<nat>, index: map<nat, nat>, maxDepth: nat, realDepth: nat, pc: map<nat, Pc>,
                         tag: map<nat, nat>, busy: map<nat, seq<nat>>, stamp: map<nat, nat>, clock: nat)

  datatype Event =
    | Attach(q: nat)
    | TakeBit(q: nat, rq: nat, tag: nat, sync: bool)
    | Publish(q: nat)
    | ClearIndex(q: nat, rq: nat)
    | ClearBit(q: nat)
    | Adjust(q: nat, depth: nat)
    | Grow(q: nat, depth: nat, nrRequests: nat)

  /** The tags blk_queue_start_tag may hand out: a few are kept for sync requests. */
  function Limit(maxDepth: nat, sync: bool): (n: nat) {
    if sync || maxDepth <= 1 then maxDepth else if maxDepth == 2 then 1 else maxDepth - 2
  }

  /** Sync requests may have every tag; async ones leave the last two to them, but never go without any. */
  lemma LimitReserves(maxDepth: nat)
    ensures Limit(maxDepth, true) == maxDepth && Limit(maxDepth, false) <= maxDepth
    ensures maxDepth > 0 ==> Limit(maxDepth, false) > 0
    ensures maxDepth >= 2 ==> Limit(maxDepth, false) < maxDepth
    ensures maxDepth >= 3 ==> Limit(maxDepth, false) + 2 == maxDepth
  {
  }

  /** init_tag_map: the depth it settles for. */
  function Depth(depth: nat, nrRequests: nat): (n: nat) {
    if depth > nrRequests * 2 then nrRequests * 2 else depth
  }

  ghost predicate Waiting(s: State, q: nat) { q in s.pc && s.pc[q] == Free && q in s.busy }

  ghost predicate Enabled(s: State, e: Event) {
    match e
    case Attach(q) => q !in s.pc && q !in s.busy
    case TakeBit(q, rq, tag, sync) =>
      && Waiting(s, q) && rq !in s.tag && (forall p :: p in s.pc && s.pc[p].Got? ==> s.pc[p].rq != rq)
      && tag !in s.bits && tag < Limit(s.maxDepth, sync)
    case Publish(q) => q in s.pc && s.pc[q].Got? && q in s.busy
    case ClearIndex(q, rq) => Waiting(s, q) && rq in s.busy[q] && rq in s.tag
    case ClearBit(q) => q in s.pc && s.pc[q].Dropped?
    case Adjust(q, depth) => Waiting(s, q) && depth <= s.realDepth
    case Grow(q, depth, nr) => s.pc == map[q := Free] && q in s.busy && depth > s.realDepth && 2 * nr >= s.realDepth
  }

  function Step(s: State, e: Event): (t: State)
    requires Enabled(s, e)
  {
    match e
    case Attach(q) => s.(pc := s.pc[q := Free], busy := s.busy[q := []])
    case TakeBit(q, rq, tag, sync) => s.(bits := s.bits + {tag}, pc := s.pc[q := Got(rq, tag)])
    case Publish(q) =>
      var rq := s.pc[q].rq;
      var tag := s.pc[q].tag;
      s.(index := s.index[tag := rq], tag := s.tag[rq := tag], busy := s.busy[q := [rq] + s.busy[q]],
         stamp := s.stamp[rq := s.clock], clock := s.clock + 1, pc := s.pc[q := Free])
    case ClearIndex(q, rq) =>
      s.(index := s.index - {s.tag[rq]}, tag := s.tag - {rq}, busy := s.busy[q := Without(s.busy[q], rq)],
         pc := s.pc[q := Dropped(s.tag[rq])])
    case ClearBit(q) => s.(bits := s.bits - {s.pc[q].tag}, pc := s.pc[q := Free])
    case Adjust(q, depth) => s.(maxDepth := depth)
    case Grow(q, depth, nr) => s.(maxDepth := Depth(depth, nr), realDepth := Depth(depth, nr))
  }

  ghost predicate Init(s: State) {
    && s.bits == {} && s.index == map[] && s.maxDepth == s.realDepth
    && s.pc == map[] && s.tag == map[] && s.busy == map[]
  }

  ghost predicate Run(states: seq<State>, events: seq<Event>) {
    && |states| == |events| + 1 && Init(states[0])
    && forall i :: 0 <= i < |events| ==> Enabled(states[i], events[i]) && states[i + 1] == Step(states[i], events[i])
  }

  // ----- what holds throughout -----

  /** The tag a queue holds in the middle of an operation. */
  predicate Handles(s: State, q: nat, tag: nat) { q in s.pc && !s.pc[q].Free? && s.pc[q].tag == tag }

  /** The index and the requests agree. */
  ghost predicate IndexInv(s: State) {
    && (forall rq :: rq in s.tag ==> s.tag[rq] in s.index && s.index[s.tag[rq]] == rq)
    && (forall tag :: tag in s.index ==> s.index[tag] in s.tag && s.tag[s.index[tag]] == tag)
  }

  /** A bit is set exactly for an indexed tag or one that some queue is working on, never both, never two queues. */
  ghost predicate BitInv(s: State) {
    && (forall tag :: tag in s.bits ==> tag in s.index || exists q :: Handles(s, q, tag))
    && (forall tag :: tag in s.index ==> tag in s.bits)
    && (forall q, tag :: Handles(s, q, tag) ==> tag in s.bits && tag !in s.index)
    && (forall p, q, tag :: Handles(s, p, tag) && Handles(s, q, tag) ==> p == q)
    && (forall tag :: tag in s.bits ==> tag < s.realDepth) && s.maxDepth <= s.realDepth
    && (forall q :: q in s.pc && s.pc[q].Got? ==> s.pc[q].rq !in s.tag)
    && (forall p, q :: p in s.pc && q in s.pc && s.pc[p].Got? && s.pc[q].Got? && s.pc[p].rq == s.pc[q].rq ==> p == q)
  }

  ghost predicate Newest(l: seq<nat>, stamp: map<nat, nat>) {
    && (forall x :: x in l ==> x in stamp)
    && forall i, j :: 0 <= i < j < |l| ==> stamp[l[i]] > stamp[l[j]]
  }

  type BusyLists = map<nat, seq<nat>>

  /** Every tagged request is on the busy list of one queue, and busy lists run from the newest start to the oldest. */
  ghost predicate Busy(busy: BusyLists, tag: map<nat, nat>, stamp: map<nat, nat>, clock: nat) {
    && (forall q :: q in busy ==> Newest(busy[q], stamp))
    && (forall q, rq :: q in busy && rq in busy[q] ==> rq in tag && stamp[rq] < clock)
    && (forall rq :: rq in tag ==> Somewhere(busy, rq))
    && (forall p, q, rq :: p in busy && q in busy && rq in busy[p] && rq in busy[q] ==> p == q)
  }

  ghost predicate Somewhere(busy: BusyLists, rq: nat) { exists q :: q in busy && rq in busy[q] }

  ghost predicate BusyInv(s: State) { Busy(s.busy, s.tag, s.stamp, s.clock) }

  lemma IndexStep(s: State, e: Event)
    requires IndexInv(s) && BitInv(s) && Enabled(s, e)
    ensures IndexInv(Step(s, e))
  {
    if e.Publish? {
      assert Handles(s, e.q, s.pc[e.q].tag);
    }
  }

  /** Only the queue of the event changes what it handles. */
  lemma HandlesStep(s: State, e: Event, q: nat, tag: nat)
    requires Enabled(s, e)
    ensures q != e.q ==> (Handles(Step(s, e), q, tag) <==> Handles(s, q, tag))
    ensures match e
      case TakeBit(_, _, t, _) => Handles(Step(s, e), e.q, tag) <==> tag == t
      case ClearIndex(_, rq) => Handles(Step(s, e), e.q, tag) <==> tag == s.tag[rq]
      case _ => !Handles(Step(s, e), e.q, tag)
  {
  }

  lemma BitStep(s: State, e: Event)
    requires IndexInv(s) && BitInv(s) && Enabled(s, e)
    ensures BitInv(Step(s, e))
  {
    var t := Step(s, e);
    forall q, tag
      ensures q != e.q ==> (Handles(t, q, tag) <==> Handles(s, q, tag))
      ensures Handles(t, e.q, tag) <==>
        match e case TakeBit(_, _, x, _) => tag == x case ClearIndex(_, rq) => tag == s.tag[rq] case _ => false
    {
      HandlesStep(s, e, q, tag);
    }
    assert e.Publish? || e.ClearBit? ==> Handles(s, e.q, s.pc[e.q].tag);
    hide Handles;
    forall tag | tag in t.bits && tag !in t.index
      ensures exists q :: Handles(t, q, tag)
    {
      if tag in s.bits && tag !in s.index {
        var q :| Handles(s, q, tag);
        assert q != e.q ==> Handles(t, q, tag);
      } else {
        assert Handles(t, e.q, tag);
      }
    }
  }

  lemma {:induction false} WithoutNewest(l: seq<nat>, stamp: map<nat, nat>, x: nat)
    requires Newest(l, stamp)
    ensures Newest(Without(l, x), stamp) && forall y :: y in Without(l, x) <==> y in l && y != x
  {
    if l != [] {
      var rest := l[1..];
      assert l == [l[0]] + rest;
      NewestTail(l, stamp);
      hide Newest;
      WithoutNewest(rest, stamp, x);
      if l[0] != x { NewestOnto(l[0], Without(rest, x), stamp); }
    }
  }

  lemma NewestTail(l: seq<nat>, stamp: map<nat, nat>)
    requires Newest(l, stamp) && l != []
    ensures Newest(l[1..], stamp) && l[0] in stamp && forall y :: y in l[1..] ==> y in stamp && stamp[l[0]] > stamp[y]
  {
  }

  lemma NewestOnto(x: nat, l: seq<nat>, stamp: map<nat, nat>)
    requires Newest(l, stamp) && x in stamp && forall y :: y in l ==> y in stamp && stamp[x] > stamp[y]
    ensures Newest([x] + l, stamp)
  {
  }

  lemma NewestFirst(l: seq<nat>, stamp: map<nat, nat>, rq: nat, clock: nat)
    requires Newest(l, stamp) && rq !in l && forall x :: x in l ==> stamp[x] < clock
    ensures Newest([rq] + l, stamp[rq := clock])
  {
  }

  lemma NewestFrame(l: seq<nat>, stamp: map<nat, nat>, rq: nat, clock: nat)
    requires Newest(l, stamp) && rq !in l
    ensures Newest(l, stamp[rq := clock])
  {
  }

  lemma StaysSomewhere(busy: BusyLists, q: nat, l: seq<nat>, rq: nat)
    requires Somewhere(busy, rq) && (q in busy && rq in busy[q] ==> rq in l)
    ensures Somewhere(busy[q := l], rq)
  {
    var p :| p in busy && rq in busy[p];
    assert rq in busy[q := l][p];
  }

  lemma InFirst(busy: BusyLists, q: nat, l: seq<nat>, rq: nat)
    requires rq in l
    ensures Somewhere(busy[q := l], rq)
  {
    assert rq in busy[q := l][q];
  }

  lemma BusyFirst(busy: BusyLists, tag: map<nat, nat>, stamp: map<nat, nat>, clock: nat, q: nat, rq: nat, t: nat)
    requires Busy(busy, tag, stamp, clock) && q in busy && rq !in tag
    ensures Busy(busy[q := [rq] + busy[q]], tag[rq := t], stamp[rq := clock], clock + 1)
  {
    var l := [rq] + busy[q];
    var busy' := busy[q := l];
    assert forall p :: p in busy ==> rq !in busy[p];
    hide Newest, Somewhere;
    forall p | p in busy
      ensures Newest(busy'[p], stamp[rq := clock])
    {
      NewestFrame(busy[p], stamp, rq, clock);
      NewestFirst(busy[q], stamp, rq, clock);
    }
    InFirst(busy, q, l, rq);
    forall x | x in tag
      ensures Somewhere(busy', x)
    {
      StaysSomewhere(busy, q, l, x);
    }
  }

  lemma BusyWithout(busy: BusyLists, tag: map<nat, nat>, stamp: map<nat, nat>, clock: nat, q: nat, rq: nat)
    requires Busy(busy, tag, stamp, clock) && q in busy && rq in busy[q]
    ensures Busy(busy[q := Without(busy[q], rq)], tag - {rq}, stamp, clock)
  {
    hide Newest, Without, Somewhere;
    var l := Without(busy[q], rq);
    var busy' := busy[q := l];
    assert forall p :: p in busy && p != q ==> rq !in busy[p];
    WithoutNewest(busy[q], stamp, rq);
    forall p, x | p in busy' && x in busy'[p]
      ensures x != rq && x in busy[p]
    {
      assert p == q ==> x in l;
    }
    forall x | x in tag && x != rq
      ensures Somewhere(busy[q := l], x)
    {
      StaysSomewhere(busy, q, l, x);
    }
  }

  lemma BusyAttach(busy: BusyLists, tag: map<nat, nat>, stamp: map<nat, nat>, clock: nat, q: nat)
    requires Busy(busy, tag, stamp, clock) && q !in busy
    ensures Busy(busy[q := []], tag, stamp, clock)
  {
    assert Newest([], stamp);
    hide Newest, Somewhere;
    forall x | x in tag
      ensures Somewhere(busy[q := []], x)
    {
      StaysSomewhere(busy, q, [], x);
    }
  }

  lemma BusyStep(s: State, e: Event)
    requires BitInv(s) && BusyInv(s) && Enabled(s, e)
    ensures BusyInv(Step(s, e))
  {
    assert e.Publish? ==> s.pc[e.q].rq !in s.tag;
    hide BitInv, Busy, Without;
    match e
    case Publish(q) => BusyFirst(s.busy, s.tag, s.stamp, s.clock, q, s.pc[q].rq, s.pc[q].tag);
    case ClearIndex(q, rq) => BusyWithout(s.busy, s.tag, s.stamp, s.clock, q, rq);
    case Attach(q) => BusyAttach(s.busy, s.tag, s.stamp, s.clock, q);
    case _ =>
  }

  ghost predicate Inv(s: State) {
    IndexInv(s) && BitInv(s) && BusyInv(s)
  }

  lemma {:induction false} RunKeeps(states: seq<State>, events: seq<Event>, n: nat)
    requires Run(states, events) && n < |states|
    ensures Inv(states[n])
    decreases n
  {
    if n > 0 {
      RunKeeps(states, events, n - 1);
      hide IndexInv, BitInv, BusyInv, Step, Enabled;
      IndexStep(states[n - 1], events[n - 1]);
      BitStep(states[n - 1], events[n - 1]);
      BusyStep(states[n - 1], events[n - 1]);
    }
  }

  /** No queue is in the middle of taking or giving back a tag. */
  ghost predicate Quiet(s: State) { forall q :: q in s.pc ==> s.pc[q] == Free }

  /** Giving back finds its own entry in the index and its bit set; a bit taken is inside the map. */
  ghost predicate Orderly(s: State, e: Event) {
    match e
    case ClearIndex(q, rq) =>
      rq in s.tag ==>
        && s.tag[rq] in s.index && s.index[s.tag[rq]] == rq && s.tag[rq] in s.bits && s.tag[rq] < s.realDepth
    case ClearBit(q) => q in s.pc && s.pc[q].Dropped? ==> s.pc[q].tag in s.bits && s.pc[q].tag !in s.index
    case Publish(q) => q in s.pc && s.pc[q].Got? ==> s.pc[q].tag !in s.index && s.pc[q].tag < s.realDepth
    case _ => true
  }

  lemma StateSound(s: State)
    requires Inv(s)
    ensures forall p, q :: p in s.tag && q in s.tag && s.tag[p] == s.tag[q] ==> p == q
    ensures forall tag :: tag in s.index <==> exists rq :: rq in s.tag && s.tag[rq] == tag
    ensures s.index.Keys <= s.bits && (Quiet(s) ==> s.index.Keys == s.bits)
  {
    forall tag
      ensures tag in s.index <==> exists rq :: rq in s.tag && s.tag[rq] == tag
    {
      if tag in s.index {
        assert s.index[tag] in s.tag && s.tag[s.index[tag]] == tag;
      }
    }
    hide BusyInv;
  }

  lemma StepOrderly(s: State, e: Event)
    requires Inv(s) && Enabled(s, e)
    ensures Orderly(s, e)
  {
    assert e.ClearBit? || e.Publish? ==> Handles(s, e.q, s.pc[e.q].tag);
    hide BusyInv;
  }

  /**
   Over every run, shared maps included: a tag is indexed exactly while one request holds it, its bit is
   set then, and whenever no queue is half-way the bits and the index agree.
   */
  lemma TagsAreSound(states: seq<State>, events: seq<Event>)
    requires Run(states, events)
    ensures forall n :: 0 <= n < |states| ==> Inv(states[n])
    ensures forall n, tag :: 0 <= n < |states| ==>
      (tag in states[n].index <==> exists rq :: rq in states[n].tag && states[n].tag[rq] == tag)
    ensures forall n :: 0 <= n < |states| && Quiet(states[n]) ==> states[n].index.Keys == states[n].bits
    ensures forall n :: 0 <= n < |events| ==> Orderly(states[n], events[n])
  {
    forall n | 0 <= n < |states|
      ensures Inv(states[n])
    {
      RunKeeps(states, events, n);
    }
    hide Inv, Enabled, Step;
    forall n | 0 <= n < |states|
      ensures Quiet(states[n]) ==> states[n].index.Keys == states[n].bits
      ensures forall tag :: tag in states[n].index <==> exists rq :: rq in states[n].tag && states[n].tag[rq] == tag
    {
      StateSound(states[n]);
    }
    forall n | 0 <= n < |events|
      ensures Orderly(states[n], events[n])
    {
      StepOrderly(states[n], events[n]);
    }
  }

  // ----- which tags are handed out -----

  predicate SetsDepth(e: Event) { e.Adjust? || e.Grow? }

  lemma {:induction false} DepthStays(states: seq<State>, events: seq<Event>, n: nat, m: nat)
    requires Run(states, events) && n <= m < |states| && forall k :: n <= k < m ==> !SetsDepth(events[k])
    ensures states[m].maxDepth == states[n].maxDepth
    decreases m
  {
    hide Init, Limit;
    if n < m { DepthStays(states, events, n, m - 1); }
  }

  /** Over every run: the depth last asked for, clamped for a new map, is the one in force. */
  lemma DepthIsKept(states: seq<State>, events: seq<Event>, n: nat, m: nat)
    requires Run(states, events) && n < m < |events| && SetsDepth(events[n])
    requires forall k :: n < k < m ==> !SetsDepth(events[k])
    ensures events[n].Adjust? ==> states[m].maxDepth == events[n].depth
    ensures events[n].Grow? ==>
              states[m].maxDepth <= events[n].depth && states[m].maxDepth <= 2 * events[n].nrRequests
              && (states[m].maxDepth == events[n].depth || states[m].maxDepth == 2 * events[n].nrRequests)
    ensures events[m].TakeBit? ==> events[m].tag < states[m].maxDepth
  {
    DepthStays(states, events, n + 1, m);
    hide Init, Limit;
    assert Enabled(states[m], events[m]);
    LimitReserves(states[m].maxDepth);
  }

  /** Over every run in which only async requests take tags from a map of a fixed depth: the last tag is free. */
  lemma {:induction false} AsyncLeavesRoom(states: seq<State>, events: seq<Event>, n: nat)
    requires Run(states, events) && n < |states| && states[0].maxDepth >= 2
    requires forall k :: 0 <= k < |events| ==> !SetsDepth(events[k]) && (events[k].TakeBit? ==> !events[k].sync)
    ensures states[n].maxDepth == states[0].maxDepth
    ensures forall tag :: tag in states[n].bits ==>
              tag < states[n].maxDepth - 1 && (states[n].maxDepth >= 3 ==> tag < states[n].maxDepth - 2)
    decreases n
  {
    if n > 0 {
      AsyncLeavesRoom(states, events, n - 1);
      LimitReserves(states[n - 1].maxDepth);
      hide Limit, Init;
    }
  }
}
