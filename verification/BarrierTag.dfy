/**
 A queue that orders by tag lets requests pass an open sequence, but not the next barrier:
 what reaches the driver for a barrier are the proxies of its own sequence, never the barrier.
 */
module BarrierTag {
  import opened Lists
  import opened BarrierModel
  import opened BarrierSequence

  /** A barrier of this size is ordered by tag: the device is tagged, and there is a command to carry the tag. */
  predicate ByTag(mode: Mode, sectors: nat) { EffectiveOrdered(mode, sectors).byTag }

  /** Kinds in one of the modes by tag: with data, or with a pre-flush. */
  lemma WhatIsByTag(mode: Mode, sectors: nat)
    requires ValidMode(mode)
    ensures ByTag(mode, sectors) <==> TagMode(mode) && (mode.preflush || sectors > 0)
  {
  }

  predicate TagsBarriers(mode: Mode, e: Event) {
    e.EInsert? && IsBarrier(e.k) ==> TagMode(mode) && (mode.preflush || e.k.sectors > 0)
  }

  ghost predicate Barrier(q: Queue, r: Rq) { r.Io? && IsBarrier(K(q.kind, r)) }

  ghost predicate Tagged(q: Queue) {
    && (q.ordseq != ZERO ==> q.ordered.byTag)
    && (forall r :: r in q.head && Barrier(q, r) ==> ByTag(q.nextOrdered, K(q.kind, r).sectors))
    && (forall r :: r in q.driver || r in q.sorted ==> !Barrier(q, r))
  }

  lemma InsertFrame(s: State, id: nat, k: Kind, soft: bool, w: Where)
    ensures var q' := Insert(s, id, k, soft, w).q;
            && q'.ordseq == s.q.ordseq && q'.ordered == s.q.ordered && q'.driver == s.q.driver
            && q'.nextOrdered == s.q.nextOrdered && q'.kind == s.q.kind[Io(id) := k.(color := s.q.ordcolor)]
            && (forall r :: r in q'.head ==> r in s.q.head || r == Io(id))
            && (q'.sorted == s.q.sorted || (q'.sorted == s.q.sorted + {Io(id)} && !IsBarrier(k)))
  {
  }

  lemma InsertTagged(s: State, id: nat, k: Kind, soft: bool, w: Where)
    requires Pending(s) && Tagged(s.q) && id !in s.h.epoch && ValidMode(s.q.nextOrdered)
    requires TagsBarriers(s.q.nextOrdered, EInsert(id, k, soft, w))
    ensures Tagged(Insert(s, id, k, soft, w).q)
  {
    WhatIsByTag(s.q.nextOrdered, k.sectors);
    InsertFrame(s, id, k, soft, w);
    hide Insert, ByTag, ValidMode, TagMode;
    var q' := Insert(s, id, k, soft, w).q;
    assert Io(id) !in s.q.driver && Io(id) !in s.q.sorted && Io(id) !in s.q.head;
    hide Pending;
    assert forall r :: K(q'.kind, r) == if r == Io(id) then k.(color := s.q.ordcolor) else K(s.q.kind, r);
    hide K;
  }

  lemma QueueIfTagged(s: State, r: Rq)
    requires IsProxy(r) && Tagged(s.q)
    ensures Tagged(QueueIf(s, r).q) && QueueIf(s, r).q.ordered == s.q.ordered
  {
    hide ByTag, K;
  }

  /** The sequence a barrier opens is by tag. */
  lemma StashTagged(s: State)
    requires Tagged(s.q) && s.q.head != [] && Barrier(s.q, s.q.head[0])
    ensures Tagged(Stash(s).q) && Stash(s).q.ordered.byTag
  {
    assert s.q.head[0] in s.q.head;
    assert forall r :: r in s.q.head[1..] ==> r in s.q.head;
    hide K, EffectiveOrdered;
  }

  lemma CompleteSeqTagged(s: State, bits: Bits, error: int)
    requires Tagged(s.q) && s.q.ordered.byTag
    ensures Tagged(CompleteSeq(s, bits, error).0.q)
  {
    hide ByTag, K;
  }

  lemma StartOrderedTagged(s: State)
    requires Tagged(s.q) && s.q.head != [] && Barrier(s.q, s.q.head[0])
    ensures Tagged(StartOrdered(s).s.q)
  {
    StashTagged(s);
    hide Tagged, Stash, QueueIf, CompleteSeq;
    var a := Stash(s);
    var (b, c) := (QueueIf(a, PostFlush), QueueIf(QueueIf(a, PostFlush), Bar));
    QueueIfTagged(a, PostFlush);
    QueueIfTagged(b, Bar);
    QueueIfTagged(c, PreFlush);
    var d := QueueIf(c, PreFlush);
    CompleteSeqTagged(d, Skip(d.q), 0);
  }

  /** blk_do_ordered never lets a barrier through. */
  lemma DoOrderedTagged(s: State)
    requires Inv(s) && Tagged(s.q) && s.q.head != []
    ensures var v := DoOrdered(s); Tagged(v.s.q) && (v.rq.Some? ==> !Barrier(v.s.q, v.rq.value))
  {
    var r := s.q.head[0];
    if s.q.ordseq == ZERO && IsBarrier(K(s.q.kind, r)) {
      assert r in s.q.head && r.Io? by { assert Held(s.q, r); }
      if s.q.nextOrdered != ORDERED_NONE {
        StartOrderedKeeps(s);
        StartOrderedTagged(s);
      } else {
        DequeuedTagged(s.q);
      }
      hide Inv, Tagged, StartOrdered, K, DequeueHead;
    } else {
      hide Inv, StartOrdered, K, ByTag;
    }
  }

  lemma DequeuedTagged(q: Queue)
    requires Tagged(q) && q.head != []
    ensures Tagged(DequeueHead(q))
  {
    assert forall r :: r in q.head[1..] ==> r in q.head;
    hide K, ByTag;
  }

  lemma FetchTagged(s: State)
    requires Inv(s) && Tagged(s.q) && s.q.head != []
    ensures Tagged(Fetch(s).q) && Tagged(Peek(s).q)
  {
    DoOrderedTagged(s);
    DoOrderedKeeps(s);
    hide Inv, DoOrdered, Tagged, Barrier;
    var v := DoOrdered(s);
    if v.ret && v.rq.Some? { StartTagged(v.s.q, v.rq.value); }
  }

  lemma StartTagged(q: Queue, r: Rq)
    requires Tagged(q) && !Barrier(q, r)
    ensures Tagged(Start(q, r)) && (q.head != [] && q.head[0] == r ==> Tagged(TakeHead(Start(q, r))))
  {
    if q.head != [] { DequeuedTagged(Start(q, r)); }
    hide ByTag, K;
  }

  lemma DrainCheckTagged(s: State)
    requires Tagged(s.q)
    ensures Tagged(DrainCheck(s).q)
  {
    if s.q.ordseq != ZERO { CompleteSeqTagged(s, Bit(DRAIN), 0); }
    hide CompleteSeq, ReqSeq, K, ByTag;
  }

  lemma CompleteTagged(s: State, r: Rq, error: int)
    requires Inv(s) && Tagged(s.q) && r in s.q.driver
    ensures Tagged(Complete(s, r, error).q)
  {
    var s1 := if r.Io? then Released(s, r.id, error)
              else State(DropInFlight(s.q.(driver := s.q.driver - {r}), r), s.h.(finished := s.h.finished + {r}));
    assert Tagged(s1.q);
    DrainCheckTagged(s1);
    if IsProxy(r) {
      assert s.q.ordseq != ZERO by { assert Held(s.q, r); }
      assert DrainCheck(s1).q.ordered == s.q.ordered;
      CompleteSeqTagged(DrainCheck(s1), Bit(PhaseOf(r)), error);
    }
    hide Inv, Tagged, DrainCheck, CompleteSeq, Accounted;
  }

  lemma InsertAtTagged(q: Queue, q': Queue, at: nat, r: Rq)
    requires Tagged(q) && at <= |q.head| && q'.head == InsertAt(q.head, at, r) && !Barrier(q, r)
    requires q'.kind == q.kind && q'.nextOrdered == q.nextOrdered && q'.driver <= q.driver && q'.sorted <= q.sorted
    requires q'.ordseq == q.ordseq && q'.ordered == q.ordered
    ensures Tagged(q')
  {
    assert forall x :: x in q'.head ==> x in q.head || x == r;
    hide K, ByTag, InsertAt;
  }

  lemma StepTagged(s: State, e: Event)
    requires Inv(s) && Tagged(s.q) && Enabled(s, e, false) && TagsBarriers(s.q.nextOrdered, e)
    ensures Tagged(Step(s, e).q) && Step(s, e).q.nextOrdered == s.q.nextOrdered
  {
    assert Pending(s) && ValidMode(s.q.nextOrdered);
    ModeStays(s, e);
    hide Pending, Inv, Insert, Fetch, Peek, Complete, DrainCheck, K, Stops, ByTag, TagsBarriers, ValidMode, RequeueAt;
    match e
    case EInsert(id, k, soft, w) => InsertTagged(s, id, k, soft, w);
    case EDispatch(r, at) => InsertAtTagged(s.q, Dispatch(s, r, at).q, at, r);
    case EMerge(id) => DrainCheckTagged(Absorbed(s, id));
    case EFetch => FetchTagged(s);
    case EPeek => FetchTagged(s);
    case EComplete(r, error) => CompleteTagged(s, r, error);
    case EPartialBar(error) =>
    case ERequeue(r) => InsertAtTagged(s.q, Requeue(s, r).q, RequeueAt(Unhook(s.q, r), r), r);
    case EPut => DrainCheckTagged(s);
  }

  /** blk_queue_ordered is not called while the queue is in use. */
  lemma ModeStays(s: State, e: Event)
    requires Enabled(s, e, false)
    ensures Step(s, e).q.nextOrdered == s.q.nextOrdered
  {
    hide Stops, K, Accounted, ReqSeq, CurSeq, RequeueAt, Route, DrainCheck, CompleteSeq, DoOrdered;
    match e
    case EFetch => DoOrderedMode(s);
    case EPeek => DoOrderedMode(s);
    case EComplete(r, error) => CompleteMode(s, r, error);
    case EMerge(id) => DrainCheckMode(Absorbed(s, id));
    case EPut => DrainCheckMode(s);
    case _ =>
  }

  lemma DrainCheckMode(s: State)
    ensures DrainCheck(s).q.nextOrdered == s.q.nextOrdered
  {
  }

  lemma CompleteMode(s: State, r: Rq, error: int)
    ensures Complete(s, r, error).q.nextOrdered == s.q.nextOrdered
  {
    hide Accounted, DrainCheck;
    var s1 := if r.Io? then Released(s, r.id, error)
              else State(DropInFlight(s.q.(driver := s.q.driver - {r}), r), s.h.(finished := s.h.finished + {r}));
    DrainCheckMode(s1);
  }

  lemma DoOrderedMode(s: State)
    requires s.q.head != []
    ensures DoOrdered(s).s.q.nextOrdered == s.q.nextOrdered
  {
    QueuedFrame(Stash(s));
    hide QueueProxies, K, ReqSeq, CurSeq, Skip, FirstProxy, EffectiveOrdered, Accounted;
  }

  lemma {:induction false} RunTags(states: seq<State>, events: seq<Event>, n: nat)
    requires Run(states, events, false) && n < |states|
    requires forall i :: 0 <= i < |events| ==> TagsBarriers(states[0].q.nextOrdered, events[i])
    ensures Inv(states[n]) && Tagged(states[n].q) && states[n].q.nextOrdered == states[0].q.nextOrdered
  {
    if n > 0 {
      RunTags(states, events, n - 1);
      RunKeeps(states, events, n);
      hide Inv, Tagged, Init, TagsBarriers;
      StepTagged(states[n - 1], events[n - 1]);
    }
  }

  /**
   In every run of a queue that orders by tag, with a pre-flush or without empty barriers: every open sequence
   is ordered by tag, and no barrier is ever held by the scheduler or the driver; only its proxies are.
   */
  lemma BarriersStayHome(states: seq<State>, events: seq<Event>, n: nat, id: nat)
    requires Run(states, events, false) && n < |states|
    requires forall i :: 0 <= i < |events| ==> TagsBarriers(states[0].q.nextOrdered, events[i])
    ensures states[n].q.ordseq != ZERO ==> states[n].q.ordered.byTag
    ensures IsBarrier(K(states[n].q.kind, Io(id))) ==> Io(id) !in states[n].q.driver && Io(id) !in states[n].q.sorted
  {
    RunTags(states, events, n);
    hide Inv, Run, ByTag;
  }
}
