/**
 Ordered sequences in every mode: each sequence ends its original request exactly once,
 with the first error of any phase, and completes each phase at most once.
 */
module BarrierSequence {
  import opened Lists
  import opened BarrierModel

  ghost predicate Held(q: Queue, r: Rq) {
    r in q.head || r in q.driver
  }

  /** A request is in at most one place. */
  ghost predicate Placed(q: Queue) {
    && NoDup(q.head)
    && (forall r :: r in q.head ==> r !in q.driver && r !in q.sorted)
    && (forall r :: r in q.driver ==> r !in q.sorted)
    && (forall r :: r in q.sorted ==> r.Io?)
  }

  /** Requests in the queue were inserted and have not ended. */
  ghost predicate Pending(s: State) {
    && (forall id :: Io(id) in s.q.head || Io(id) in s.q.driver || Io(id) in s.q.sorted ==>
          id in s.h.epoch && id !in s.h.done)
    && (s.q.ordseq != ZERO ==>
          && s.q.orig in s.h.epoch && s.q.orig !in s.h.done
          && Io(s.q.orig) !in s.q.head && Io(s.q.orig) !in s.q.driver && Io(s.q.orig) !in s.q.sorted)
    && (forall id :: id in s.h.done ==> id in s.h.epoch)
  }

  /** Every request ended at most once. */
  ghost predicate EndedOnce(ended: seq<(nat, int)>, done: set<nat>) {
    && (forall i, j :: 0 <= i < j < |ended| ==> ended[i].0 != ended[j].0)
    && (forall i :: 0 <= i < |ended| ==> ended[i].0 in done)
  }

  /** The proxies a sequence has to queue. */
  predicate Wanted(mode: Mode, sectors: nat, r: Rq)
    requires IsProxy(r)
  {
    Asks(EffectiveOrdered(mode, sectors), r)
  }

  /** The bits of ordseq say exactly which phases were skipped or finished. */
  ghost predicate Phase(s: State, ordseq: Bits, r: Rq)
    requires IsProxy(r)
  {
    && (r in s.h.queued <==> Asks(s.q.ordered, r))
    && (ordseq.Has(r) <==> (r in s.h.queued ==> r in s.h.finished))
    && (Held(s.q, r) <==> r in s.h.queued && r !in s.h.finished)
  }

  ghost predicate Sequencing(s: State) {
    if s.q.ordseq == ZERO then !Held(s.q, PreFlush) && !Held(s.q, Bar) && !Held(s.q, PostFlush)
    else
      Consistent(s, s.q.ordseq) && CurSeq(s.q) != DONE
  }

  /** The sequence agrees with the phase bits `ordseq`. */
  ghost predicate Consistent(s: State, ordseq: Bits) {
    && ordseq.started
    && s.q.ordered == EffectiveOrdered(s.q.nextOrdered, K(s.q.kind, Io(s.q.orig)).sectors)
    && s.q.orderr == FirstError(s.h.errors)
    && Phase(s, ordseq, PreFlush) && Phase(s, ordseq, Bar) && Phase(s, ordseq, PostFlush)
    && s.h.finished <= s.h.queued <= {PreFlush, Bar, PostFlush}
  }

  ghost predicate Inv(s: State) {
    && !s.q.bug && ValidMode(s.q.nextOrdered)
    && Placed(s.q) && Pending(s) && EndedOnce(s.h.ended, s.h.done) && Sequencing(s)
  }

  lemma {:induction false} FirstErrorAppend(errors: seq<int>, e: int)
    ensures FirstError(errors + [e]) == if FirstError(errors) != 0 then FirstError(errors) else e
  {
    if errors == [] {
    } else {
      assert (errors + [e])[1..] == errors[1..] + [e];
      FirstErrorAppend(errors[1..], e);
    }
  }

  /** What ending a sequence reports. */
  ghost predicate Reported(s: State) {
    && s.h.ended != []
    && s.h.ended[|s.h.ended| - 1] == (s.q.orig, FirstError(s.h.errors))
    && s.q.orig in s.h.done
    && s.h.queued == s.h.finished
    && forall r :: IsProxy(r) ==>
         (r in s.h.queued <==> Wanted(s.q.nextOrdered, K(s.q.kind, Io(s.q.orig)).sectors, r))
  }

  /** blk_ordered_complete_seq: setting bits that are not yet set and make the phases agree. */
  lemma CompleteSeqKeeps(s: State, bits: Bits, error: int)
    requires !s.q.bug && ValidMode(s.q.nextOrdered) && s.q.ordseq != ZERO
    requires Placed(s.q) && Pending(s) && EndedOnce(s.h.ended, s.h.done)
    requires !s.q.ordseq.Meets(bits) && Consistent(s, s.q.ordseq.Or(bits))
    ensures var (s', complete) := CompleteSeq(s, bits, error);
            && Inv(s')
            && (complete ==> s'.h.closed == s.h.closed + 1 && Reported(s'))
            && (!complete ==> s'.h.closed == s.h.closed && s'.h.ended == s.h.ended && s'.q.ordseq != ZERO)
  {
    FirstErrorAppend(s.h.errors, error);
    var (s', complete) := CompleteSeq(s, bits, error);
    if complete {
      assert s.h.queued == s.h.finished;
    }
  }

  /** elv_completed_request's drain check sets the DRAIN bit only while it is clear. */
  lemma DrainCheckKeeps(s: State)
    requires Inv(s)
    ensures Inv(DrainCheck(s)) && Progress(s, DrainCheck(s))
  {
    if s.q.ordseq != ZERO && CurSeq(s.q) == DRAIN {
      assert Consistent(s, s.q.ordseq.Or(Bit(DRAIN)));
      CompleteSeqKeeps(s, Bit(DRAIN), 0);
    }
  }

  /** What one step does to the list of ended sequences: a running sequence stops only by being reported. */
  ghost predicate Progress(s: State, s': State) {
    && (s'.h.closed == s.h.closed || (s'.h.closed == s.h.closed + 1 && Reported(s')))
    && (s.q.ordseq != ZERO && s'.q.ordseq == ZERO ==> s'.h.closed == s.h.closed + 1)
  }

  /** Queueing one proxy in front of the list. */
  lemma QueueIfKeeps(s: State, r: Rq)
    requires IsProxy(r) && !Held(s.q, r) && Placed(s.q) && Pending(s)
    ensures var s1 := QueueIf(s, r);
            && Placed(s1.q) && Pending(s1)
            && s1.q == s.q.(head := if Asks(s.q.ordered, r) then [r] + s.q.head else s.q.head,
                            soft := s1.q.soft, started := s1.q.started)
            && s1.h == s.h.(queued := if Asks(s.q.ordered, r) then s.h.queued + {r} else s.h.queued)
            && (forall x :: Held(s1.q, x) <==> Held(s.q, x) || (x == r && Asks(s.q.ordered, r)))
  {
    var s1 := QueueIf(s, r);
    assert forall x :: x in s1.q.head <==> x in s.q.head || (x == r && Asks(s.q.ordered, r));
  }

  /** What start_ordered has done once the proxies are queued. */
  lemma QueueProxiesKeeps(s: State)
    requires Placed(s.q) && Pending(s) && s.h.queued == {}
    requires forall r :: IsProxy(r) ==> !Held(s.q, r)
    ensures var s1 := QueueProxies(s);
            && Placed(s1.q) && Pending(s1)
            && s1.q == s.q.(head := s1.q.head, soft := s1.q.soft, started := s1.q.started)
            && s1.h == s.h.(queued := s1.h.queued)
            && (forall r :: IsProxy(r) ==> (Held(s1.q, r) <==> Asks(s.q.ordered, r)))
            && (forall r :: r in s1.h.queued <==> IsProxy(r) && Asks(s.q.ordered, r))
            && (FirstProxy(s1.q).Some? ==> s1.q.head != [] && s1.q.head[0] == FirstProxy(s1.q).value)
  {
    hide Placed, Pending, Held, QueueIf;
    QueueIfKeeps(s, PostFlush);
    var a := QueueIf(s, PostFlush);
    QueueIfKeeps(a, Bar);
    var b := QueueIf(a, Bar);
    QueueIfKeeps(b, PreFlush);
  }

  /** A proxy is set up afresh: not started, and not to be passed. */
  lemma ProxiesAreFresh(s: State, r: Rq)
    requires IsProxy(r) && Asks(s.q.ordered, r)
    ensures r in QueueProxies(s).q.soft && r !in QueueProxies(s).q.started && r in QueueProxies(s).q.head
  {
  }

  /** Queueing proxies touches the list, their flags and the record of what was queued. */
  lemma QueuedFrame(s: State)
    ensures var s1 := QueueProxies(s);
            && s1.q == s.q.(head := s1.q.head, soft := s1.q.soft, started := s1.q.started)
            && s1.h == s.h.(queued := s1.h.queued)
            && ((forall r :: IsProxy(r) ==> !Asks(s.q.ordered, r)) ==> s1 == s)
  {
  }

  lemma StashKeeps(s: State)
    requires Inv(s) && s.q.ordseq == ZERO && s.q.head != [] && s.q.head[0].Io?
    ensures Placed(Stash(s).q) && Pending(Stash(s))
    ensures forall r :: IsProxy(r) ==> !Held(Stash(s).q, r)
  {
    hide EndedOnce;
  }

  /** The phases start_ordered does not queue are exactly the bits it skips. */
  lemma SkippedIsConsistent(s: State)
    requires Inv(s) && s.q.ordseq == ZERO
    requires s.q.head != [] && s.q.head[0].Io?
    ensures var s1 := QueueProxies(Stash(s));
            && Placed(s1.q) && Pending(s1) && s1.q.ordseq == Bit(STARTED) && Consistent(s1, s1.q.ordseq.Or(Skip(s1.q)))
            && (FirstProxy(s1.q).Some? ==> s1.q.head != [] && s1.q.head[0] == FirstProxy(s1.q).value)
  {
    hide NoDup, EndedOnce, QueueProxies;
    var s0 := Stash(s);
    StashKeeps(s);
    QueueProxiesKeeps(s0);
    hide Inv, Placed, Pending, FirstProxy;
  }

  /** Some phase stays open if a proxy is queued or something is to be drained. */
  lemma SkipLeaves(s: State)
    requires s.q.ordseq == Bit(STARTED)
    ensures var (s', complete) := CompleteSeq(s, Skip(s.q), 0);
            var asks := s.q.ordered.preflush || s.q.ordered.bar || s.q.ordered.postflush;
            && s'.q.ordered == s.q.ordered && s'.q.inFlight == s.q.inFlight && s'.h.queued == s.h.queued
            && (FirstProxy(s.q).Some? <==> asks && !(s.q.ordered.byDrain && s.q.inFlight != 0))
            && (!complete <==> asks || (s.q.ordered.byDrain && s.q.inFlight != 0))
  {
  }

  /** start_ordered hands back a proxy if one was queued and nothing is to be drained first. */
  lemma SequenceAnswers(s: State)
    requires Inv(s) && s.q.ordseq == ZERO && s.q.head != [] && s.q.head[0].Io?
    ensures var v := StartOrdered(s);
            && (v.rq.Some? <==> v.s.h.queued != {} && !(v.s.q.ordered.byDrain && v.s.q.inFlight != 0))
            && (v.ret <==> v.s.h.queued != {} || (v.s.q.ordered.byDrain && v.s.q.inFlight != 0))
  {
    var s0 := Stash(s);
    assert s0.q.ordseq == Bit(STARTED) && s0.h.queued == {};
    StashKeeps(s);
    QueueProxiesKeeps(s0);
    var s1 := QueueProxies(s0);
    SkipLeaves(s1);
    hide Inv, Placed, Pending, QueueProxies, Stash, CompleteSeq, FirstProxy, Skip;
    assert PreFlush in s1.h.queued <==> Asks(s0.q.ordered, PreFlush);
    assert Bar in s1.h.queued <==> Asks(s0.q.ordered, Bar);
    assert PostFlush in s1.h.queued <==> Asks(s0.q.ordered, PostFlush);
  }

  lemma StartOrderedKeeps(s: State)
    requires Inv(s) && s.q.ordseq == ZERO
    requires s.q.head != [] && s.q.head[0].Io?
    ensures var v := StartOrdered(s);
            && Inv(v.s) && Progress(s, v.s)
            && (v.rq.Some? ==> v.s.q.head != [] && v.s.q.head[0] == v.rq.value && v.s.q.ordseq != ZERO
                               && IsProxy(v.rq.value) && CurSeq(v.s.q) == PhaseOf(v.rq.value))
    ensures var v := StartOrdered(s);
            && (v.rq.Some? <==> v.s.h.queued != {} && !(v.s.q.ordered.byDrain && v.s.q.inFlight != 0))
            && (v.ret <==> v.s.h.queued != {} || (v.s.q.ordered.byDrain && v.s.q.inFlight != 0))
  {
    SkippedIsConsistent(s);
    SequenceAnswers(s);
    var s1 := QueueProxies(Stash(s));
    QueuedFrame(Stash(s));
    hide QueueProxies, Placed, Pending, Sequencing, Consistent, Reported;
    CompleteSeqKeeps(s1, Skip(s1.q), 0);
    hide Inv, DequeueHead, Opened, EndedOnce, EndIo;
  }

  lemma DoOrderedKeeps(s: State)
    requires Inv(s) && s.q.head != []
    ensures var v := DoOrdered(s);
            && Inv(v.s) && Progress(s, v.s)
            && (v.rq.Some? ==> v.s.q.head != [] && v.s.q.head[0] == v.rq.value)
            && (s.q.ordseq == ZERO && v.ret && v.rq.None? ==> v.s.q.ordered.byDrain && v.s.q.inFlight != 0)
  {
    if s.q.ordseq == ZERO && IsBarrier(K(s.q.kind, s.q.head[0])) {
      if s.q.nextOrdered != ORDERED_NONE { StartOrderedKeeps(s); }
    }
  }

  lemma StartKeeps(s: State, r: Rq)
    requires Inv(s)
    ensures Inv(s.(q := Start(s.q, r)))
  {
  }

  lemma TakeHeadKeeps(s: State)
    requires Inv(s) && s.q.head != []
    ensures Inv(s.(q := TakeHead(s.q)))
  {
  }

  lemma FetchKeeps(s: State)
    requires Inv(s) && s.q.head != []
    ensures Inv(Fetch(s)) && Progress(s, Fetch(s))
  {
    DoOrderedKeeps(s);
    var v := DoOrdered(s);
    if v.ret && v.rq.Some? && v.s.q.head != [] {
      StartKeeps(v.s, v.rq.value);
      TakeHeadKeeps(v.s.(q := Start(v.s.q, v.rq.value)));
    }
  }

  lemma PeekKeeps(s: State)
    requires Inv(s) && s.q.head != []
    ensures Inv(Peek(s)) && Progress(s, Peek(s))
  {
    DoOrderedKeeps(s);
    var v := DoOrdered(s);
    if v.ret && v.rq.Some? { StartKeeps(v.s, v.rq.value); }
  }

  /** The drain check cannot end a sequence while a proxy's own phase is still open. */
  lemma DrainCheckMidway(s: State, r: Rq)
    requires IsProxy(r) && s.q.ordseq != ZERO && !s.q.ordseq.Has(r)
    requires Consistent(s, s.q.ordseq.Or(Bit(PhaseOf(r))))
    ensures var s' := DrainCheck(s);
            && Consistent(s', s'.q.ordseq.Or(Bit(PhaseOf(r)))) && !s'.q.ordseq.Has(r)
            && s'.q == s.q.(ordseq := s'.q.ordseq) && s'.q.ordseq != ZERO
            && s'.h == s.h.(errors := s'.h.errors)
  {
    FirstErrorAppend(s.h.errors, 0);
    var s' := State(s.q.(ordseq := s.q.ordseq.(drain := true)), s.h.(errors := s.h.errors + [0]));
    if DrainCheck(s) != s {
      assert DrainCheck(s) == s';
      assert Consistent(s', s'.q.ordseq.Or(Bit(PhaseOf(r))));
    }
  }

  lemma CompleteProxyKeeps(s: State, r: Rq, error: int)
    requires Inv(s) && r in s.q.driver && IsProxy(r)
    ensures Inv(Complete(s, r, error)) && Progress(s, Complete(s, r, error))
  {
    var s1 := State(DropInFlight(s.q.(driver := s.q.driver - {r}), r), s.h.(finished := s.h.finished + {r}));
    assert Consistent(s1, s1.q.ordseq.Or(Bit(PhaseOf(r))));
    DrainCheckMidway(s1, r);
    CompleteSeqKeeps(DrainCheck(s1), Bit(PhaseOf(r)), error);
  }

  /** The driver lets a request go: it ends, and the drain check is still to come. */
  function Released(s: State, id: nat, error: int): (s': State) {
    State(DropInFlight(s.q.(driver := s.q.driver - {Io(id)}), Io(id)), EndIo(s.h, id, error))
  }

  lemma ReleasedKeeps(s: State, id: nat, error: int)
    requires Inv(s) && Io(id) in s.q.driver
    ensures Inv(Released(s, id, error))
  {
    hide NoDup, FirstError, EffectiveOrdered, K, Accounted;
  }

  lemma CompleteIoKeeps(s: State, id: nat, error: int)
    requires Inv(s) && Io(id) in s.q.driver
    ensures Inv(Complete(s, Io(id), error)) && Progress(s, Complete(s, Io(id), error))
  {
    ReleasedKeeps(s, id, error);
    DrainCheckKeeps(Released(s, id, error));
    hide Inv, Progress, DrainCheck;
  }

  lemma InsertAtContents(head: seq<Rq>, i: nat, r: Rq)
    requires i <= |head| && NoDup(head) && r !in head
    ensures NoDup(InsertAt(head, i, r))
    ensures forall x :: x in InsertAt(head, i, r) <==> x == r || x in head
  {
    var t := InsertAt(head, i, r);
    assert forall k :: 0 <= k < |t| ==> t[k] == if k < i then head[k] else if k == i then r else head[k - 1];
    assert forall x :: x in head <==> x in head[..i] || x in head[i..];
  }

  lemma RequeueKeeps(s: State, r: Rq)
    requires Inv(s) && r in s.q.driver
    ensures Inv(Requeue(s, r)) && Progress(s, Requeue(s, r))
  {
    InsertAtContents(s.q.head, RequeueAt(Unhook(s.q, r), r), r);
  }

  lemma InsertPlaced(s: State, id: nat, k: Kind, soft: bool, w: Where)
    requires Placed(s.q) && Io(id) !in s.q.head && Io(id) !in s.q.driver && Io(id) !in s.q.sorted
    ensures var q' := Insert(s, id, k, soft, w).q;
            && Placed(q') && (forall r :: IsProxy(r) ==> (Held(q', r) <==> Held(s.q, r)))
            && (forall r :: r in q'.head || r in q'.driver || r in q'.sorted <==>
                            r == Io(id) || r in s.q.head || r in s.q.driver || r in s.q.sorted)
            && (forall x :: x != id ==> K(q'.kind, Io(x)) == K(s.q.kind, Io(x)))
  {
    var q' := Insert(s, id, k, soft, w).q;
    var at := if Route(k, soft, w) == Front then 0 else |s.q.head|;
    InsertAtContents(s.q.head, at, Io(id));
    assert q'.head == if Route(k, soft, w) == Sort then s.q.head else InsertAt(s.q.head, at, Io(id));
  }

  lemma InsertPending(s: State, id: nat, k: Kind, soft: bool, w: Where)
    requires Placed(s.q) && Pending(s) && id !in s.h.epoch
    ensures Pending(Insert(s, id, k, soft, w))
  {
    InsertPlaced(s, id, k, soft, w);
    var s' := Insert(s, id, k, soft, w);
    hide NoDup, Placed, Held, K;
    assert s'.q.ordseq == s.q.ordseq && s'.q.orig == s.q.orig && s'.h.done == s.h.done;
    assert s'.h.epoch == s.h.epoch[id := |s.h.barriers|];
    hide Insert;
  }

  lemma InsertSequencing(s: State, id: nat, k: Kind, soft: bool, w: Where)
    requires Placed(s.q) && Pending(s) && Sequencing(s) && id !in s.h.epoch
    ensures Sequencing(Insert(s, id, k, soft, w))
  {
    InsertPlaced(s, id, k, soft, w);
    var s' := Insert(s, id, k, soft, w);
    hide NoDup, Placed, Held, K, FirstError, EffectiveOrdered;
    assert s'.q.ordseq == s.q.ordseq && s'.q.orig == s.q.orig && s'.q.ordered == s.q.ordered;
    assert s'.q.nextOrdered == s.q.nextOrdered && s'.q.orderr == s.q.orderr;
    assert s'.h.errors == s.h.errors && s'.h.queued == s.h.queued && s'.h.finished == s.h.finished;
    hide Insert;
  }

  lemma InsertKeeps(s: State, id: nat, k: Kind, soft: bool, w: Where)
    requires Inv(s) && Enabled(s, EInsert(id, k, soft, w), false)
    ensures Inv(Insert(s, id, k, soft, w))
  {
    hide NoDup, Sequencing, EndedOnce;
    InsertPlaced(s, id, k, soft, w);
    InsertPending(s, id, k, soft, w);
    InsertSequencing(s, id, k, soft, w);
    hide Placed, Pending;
  }

  lemma DispatchKeeps(s: State, r: Rq, at: nat)
    requires Inv(s) && r in s.q.sorted && at <= |s.q.head|
    ensures Inv(Dispatch(s, r, at))
  {
    InsertAtContents(s.q.head, at, r);
  }

  /** The request has left the scheduler; the drain check is still to come. */
  function Absorbed(s: State, id: nat): (s': State) {
    s.(q := s.q.(sorted := s.q.sorted - {Io(id)}), h := s.h.(done := s.h.done + {id}))
  }

  lemma AbsorbedKeeps(s: State, id: nat)
    requires Inv(s) && Io(id) in s.q.sorted
    ensures Inv(Absorbed(s, id))
  {
    hide NoDup, FirstError, EffectiveOrdered, K;
  }

  lemma MergeKeeps(s: State, id: nat)
    requires Inv(s) && Io(id) in s.q.sorted
    ensures Inv(MergedAway(s, id)) && Progress(s, MergedAway(s, id))
  {
    AbsorbedKeeps(s, id);
    DrainCheckKeeps(Absorbed(s, id));
    hide Inv, Progress, DrainCheck;
  }

  lemma PartialBarKeeps(s: State, error: int)
    requires Inv(s) && Bar in s.q.driver
    ensures Inv(PartialBar(s, error))
  {
    FirstErrorAppend(s.h.errors, error);
  }

  lemma StepKeeps(s: State, e: Event)
    requires Inv(s) && Enabled(s, e, false)
    ensures Inv(Step(s, e)) && Progress(s, Step(s, e))
  {
    match e
    case EInsert(id, k, soft, w) => InsertKeeps(s, id, k, soft, w);
    case EDispatch(r, at) => DispatchKeeps(s, r, at);
    case EMerge(id) => MergeKeeps(s, id);
    case EFetch => FetchKeeps(s);
    case EPeek => PeekKeeps(s);
    case EComplete(r, error) =>
      if r.Io? { CompleteIoKeeps(s, r.id, error); } else { CompleteProxyKeeps(s, r, error); }
    case EPartialBar(error) => PartialBarKeeps(s, error);
    case ERequeue(r) => RequeueKeeps(s, r);
    case EPut => DrainCheckKeeps(s);
  }

  lemma {:induction false} RunKeeps(states: seq<State>, events: seq<Event>, n: nat)
    requires Run(states, events, false) && n < |states|
    ensures Inv(states[n])
  {
    if n > 0 {
      RunKeeps(states, events, n - 1);
      StepKeeps(states[n - 1], events[n - 1]);
    }
  }

  /**
   In every mode and every run: no BUG_ON of the protocol fires, no request ends twice,
   and a step that closes an ordered sequence ends its original barrier with the first
   error any phase reported, after exactly the proxies the mode asks for were queued
   and completed.
   */
  lemma OrderedSequencesAreSound(states: seq<State>, events: seq<Event>, n: nat)
    requires Run(states, events, false) && n < |states|
    ensures !states[n].q.bug && EndedOnce(states[n].h.ended, states[n].h.done)
    ensures n > 0 ==> Progress(states[n - 1], states[n])
  {
    RunKeeps(states, events, n);
    if n > 0 {
      RunKeeps(states, events, n - 1);
      StepKeeps(states[n - 1], events[n - 1]);
    }
  }
}
