/**
 An open sequence never stalls an idle queue.  While a sequence runs and the driver holds
 nothing, the head of the dispatch list may be issued; so a driver that fetches and
 completes brings every sequence to its end.

 This is what the comment of blk_ordered_req_seq is about: requests that are not file
 system requests count as part of the drain phase, or the queue would wait for ever.  It
 needs one rule: what the I/O scheduler holds are file system requests.
 */
module BarrierProgress {
  import opened Lists
  import opened BarrierModel
  import opened BarrierSequence
  import opened BarrierOrder

  /** The rule for what is given to the I/O scheduler. */
  predicate SortsFs(e: Event) {
    e.EInsert? && Route(e.k, e.soft, e.where') == Sort ==> e.k.fs
  }

  /** Requests that are not fs requests stand still in the list: nothing is sorted in front of them. */
  ghost predicate Fixed(q: Queue) {
    && (forall r :: r in q.head && r.Io? && !K(q.kind, r).fs ==> r in q.soft)
    && (forall r :: r in q.sorted ==> K(q.kind, r).fs)
  }

  /** With the driver idle in the drain phase, the head is part of what is drained. */
  ghost predicate Moving(s: State) {
    s.q.ordseq != ZERO && !s.q.ordseq.drain && s.q.driver == {} ==>
      s.q.head != [] && ReqSeq(s.q, s.q.head[0]) == DRAIN
  }

  ghost predicate Live(s: State) { OrderInv(s) && Fixed(s.q) && Moving(s) }

  /** The head of the list may be issued, although a sequence is running. */
  ghost predicate MayIssue(s: State) {
    s.q.head != [] && DoOrdered(s) == Verdict(s, true, Some(s.q.head[0]))
  }

  ghost predicate NoStall(s: State) { s.q.ordseq != ZERO && s.q.driver == {} ==> MayIssue(s) }

  /** After the drain phase the proxy of the current phase is at the head, or something that counts for nothing. */
  lemma CurrentIsFirst(s: State)
    requires OrderInv(s) && s.q.ordseq.drain && s.q.driver == {}
    ensures MayIssue(s)
  {
    hide Colored, DriverWindow, SortedWindow, Chronological, Accounting, Tracked, Blocking, EndedOnce, NoDup;
    var p := if !s.q.ordseq.preflush then PreFlush else if !s.q.ordseq.bar then Bar else PostFlush;
    assert Held(s.q, p);
    var j :| 0 <= j < |s.q.head| && s.q.head[j] == p;
    var r := s.q.head[0];
    assert r in s.q.head;
    if j > 0 { OrderedPair(s, 0, j); }
    if IsProxy(r) { HeadProxyIsOpen(s, r); }
  }

  lemma LiveIsMoving(s: State)
    requires Live(s)
    ensures NoStall(s)
  {
    if s.q.ordseq != ZERO && s.q.driver == {} {
      if s.q.ordseq.drain { CurrentIsFirst(s); }
    }
  }

  lemma InsertFixed(s: State, id: nat, k: Kind, soft: bool, w: Where)
    requires Fixed(s.q) && Pending(s) && id !in s.h.epoch && (Route(k, soft, w) == Sort ==> k.fs)
    ensures Fixed(Insert(s, id, k, soft, w).q)
  {
    var q' := Insert(s, id, k, soft, w).q;
    assert forall r :: r in q'.head ==> r in s.q.head || (r == Io(id) && r in q'.soft);
    assert forall r :: r in s.q.head ==> K(q'.kind, r) == K(s.q.kind, r) && (r in s.q.soft ==> r in q'.soft);
  }

  /** A new head is a file system request, one just queued, or the old head. */
  lemma InsertedAtFixed(s: State, r: Rq, at: nat, soft: set<Rq>)
    requires Fixed(s.q) && at <= |s.q.head| && NoDup(s.q.head) && r !in s.q.head
    requires s.q.soft <= soft && (r in soft || K(s.q.kind, r).fs)
    ensures Fixed(s.q.(head := InsertAt(s.q.head, at, r), soft := soft))
  {
    InsertAtContents(s.q.head, at, r);
    hide InsertAt;
  }

  lemma QueueIfFixed(s: State, r: Rq)
    requires Fixed(s.q) && IsProxy(r)
    ensures Fixed(QueueIf(s, r).q)
  {
  }

  lemma StartOrderedFixed(s: State)
    requires Fixed(s.q) && s.q.head != []
    ensures Fixed(StartOrdered(s).s.q)
  {
    var s0 := Stash(s);
    assert Fixed(s0.q);
    hide Stash, QueueIf, Fixed;
    QueueIfFixed(s0, PostFlush);
    QueueIfFixed(QueueIf(s0, PostFlush), Bar);
    QueueIfFixed(QueueIf(QueueIf(s0, PostFlush), Bar), PreFlush);
    var s1 := QueueProxies(s0);
    hide QueueProxies;
    CompleteSeqFrame(s1, Skip(s1.q), 0);
    CompletedFixed(s1.q, CompleteSeq(s1, Skip(s1.q), 0).0.q);
    hide CompleteSeq, Skip;
  }

  lemma CompletedFixed(q: Queue, q': Queue)
    requires Fixed(q) && q' == q.(orderr := q'.orderr, bug := q'.bug, ordseq := q'.ordseq)
    ensures Fixed(q')
  {
  }

  lemma DoOrderedFixed(s: State)
    requires Fixed(s.q) && s.q.head != []
    ensures Fixed(DoOrdered(s).s.q)
  {
    StartOrderedFixed(s);
    hide StartOrdered, EndIo, ReqSeq, CurSeq;
  }

  lemma FetchFixed(s: State)
    requires Fixed(s.q) && s.q.head != []
    ensures Fixed(Fetch(s).q) && Fixed(Peek(s).q)
  {
    DoOrderedFixed(s);
    hide DoOrdered;
  }

  /** Completing phases touches nothing but the state of the sequence. */
  lemma CompleteSeqFrame(s: State, bits: Bits, error: int)
    ensures var q' := CompleteSeq(s, bits, error).0.q;
            q' == s.q.(orderr := q'.orderr, bug := q'.bug, ordseq := q'.ordseq)
  {
  }

  lemma DrainCheckFrame(s: State)
    ensures var q' := DrainCheck(s).q;
            q' == s.q.(orderr := q'.orderr, bug := q'.bug, ordseq := q'.ordseq)
  {
    CompleteSeqFrame(s, Bit(DRAIN), 0);
    hide CompleteSeq;
  }

  lemma CompleteFrame(s: State, r: Rq, error: int)
    ensures var q' := Complete(s, r, error).q;
            && q'.head == s.q.head && q'.sorted == s.q.sorted && q'.kind == s.q.kind && q'.soft == s.q.soft
            && q'.driver == s.q.driver - {r}
  {
    var s1 := if r.Io? then Released(s, r.id, error) else Finished(s, r);
    DrainCheckFrame(s1);
    if IsProxy(r) { CompleteSeqFrame(DrainCheck(s1), Bit(PhaseOf(r)), error); }
    hide DrainCheck, CompleteSeq;
  }

  lemma RequeueFixed(s: State, r: Rq)
    requires Placed(s.q) && Fixed(s.q) && r in s.q.driver
    ensures Fixed(Requeue(s, r).q)
  {
    hide RequeueAt;
    InsertedAtFixed(s, r, RequeueAt(Unhook(s.q, r), r), s.q.soft + {r});
  }

  lemma StepFixed(s: State, e: Event)
    requires Placed(s.q) && Pending(s) && Fixed(s.q) && Enabled(s, e, true) && SortsFs(e)
    ensures Fixed(Step(s, e).q)
  {
    hide Pending, DrainCheck, Insert, Fetch, Peek, Requeue, Complete;
    match e
    case EInsert(id, k, soft, w) => InsertFixed(s, id, k, soft, w);
    case EDispatch(r, at) => InsertedAtFixed(s, r, at, s.q.soft);
    case ERequeue(r) => RequeueFixed(s, r);
    case EFetch => FetchFixed(s);
    case EPeek => FetchFixed(s);
    case EComplete(r, error) => CompleteFrame(s, r, error);
    case EMerge(id) => DrainCheckFrame(Absorbed(s, id));
    case EPartialBar(error) =>
    case EPut => DrainCheckFrame(s);
  }

  /** The drain check leaves the drain phase unless the head still belongs to it. */
  lemma DrainCheckMoves(s: State)
    requires OrderInv(s)
    ensures Moving(DrainCheck(s))
  {
    hide Colored, HeadWindow, DriverWindow, SortedWindow, Chronological, Tracked, Blocking, InOrder, Placed, Pending,
      EndedOnce,
      Draining, Phase, EffectiveOrdered, FirstError;
    if s.q.driver == {} {
      assert Outstanding(s.q.driver, s.q.kind, s.q.started) == {};
    }
    DrainCheckFrame(s);
    assert DrainCheck(s) != s ==> DrainCheck(s).q.ordseq == ZERO || DrainCheck(s).q.ordseq.drain;
  }

  /** A sequence waits for its drain phase only if the driver still has something. */
  lemma StartOrderedMoves(s: State)
    requires OrderInv(s) && s.q.ordseq == ZERO && s.q.head != [] && IsBarrier(K(s.q.kind, s.q.head[0]))
    ensures Moving(StartOrdered(s).s)
  {
    StartOrderedOrder(s);
    var s1 := QueueProxies(Stash(s));
    CompleteSeqFrame(s1, Skip(s1.q), 0);
    var q := StartOrdered(s).s.q;
    assert q.ordseq != ZERO && !q.ordseq.drain ==> q.inFlight != 0 by { hide OrderInv, QueueProxies, Stash; }
    hide StartOrdered, Inv, Draining, InOrder, Colored, HeadWindow, DriverWindow, SortedWindow, Chronological,
      Tracked, Blocking;
    assert q.driver == {} ==> Outstanding(q.driver, q.kind, q.started) == {};
  }

  /** What is drained and stands at the head stays there. */
  lemma DrainedHeadIsSoft(s: State)
    requires OrderInv(s) && Fixed(s.q) && s.q.ordseq != ZERO && s.q.head != [] && ReqSeq(s.q, s.q.head[0]) == DRAIN
    ensures s.q.head[0] in s.q.soft
  {
    hide InOrder, DriverWindow, SortedWindow, Chronological, Accounting, Tracked, Placed, EndedOnce, Sequencing, Quiet;
    var r := s.q.head[0];
    assert r in s.q.head;
    if FsIo(s.q.kind, r) { HeadIsOldest(s, r); }
  }

  lemma RequeueMoves(s: State, r: Rq)
    requires OrderInv(s) && r in s.q.driver
    ensures Moving(Requeue(s, r))
  {
    hide InOrder, HeadWindow, SortedWindow, Chronological, Accounting, Tracked, Placed, EndedOnce, Quiet, Returned;
    if s.q.ordseq != ZERO && !s.q.ordseq.drain {
      assert r.Io?;
      assert ReqSeq(s.q, r) == DRAIN;
      var q := Unhook(s.q, r);
      assert forall x :: ReqSeq(q, x) == ReqSeq(s.q, x) >= DRAIN;
      assert RequeueAt(q, r) == 0;
      assert Requeue(s, r).q.head[0] == r;
      hide OrderInv, DropInFlight, Accounted, RequeueAt;
    }
  }

  lemma InsertMoves(s: State, id: nat, k: Kind, soft: bool, w: Where)
    requires OrderInv(s) && Moving(s) && Enabled(s, EInsert(id, k, soft, w), true)
    ensures Moving(Insert(s, id, k, soft, w))
  {
    hide Base, Draining, Placed, EndedOnce, Sequencing;
    if s.q.ordseq != ZERO && !s.q.ordseq.drain && s.q.driver == {} {
      assert s.q.head[0] in s.q.head;
    }
  }

  lemma DispatchMoves(s: State, r: Rq, at: nat)
    requires OrderInv(s) && Fixed(s.q) && Moving(s) && Enabled(s, EDispatch(r, at), true)
    ensures Moving(Dispatch(s, r, at))
  {
    hide OrderInv, Fixed;
    if s.q.ordseq != ZERO && !s.q.ordseq.drain && s.q.driver == {} {
      DrainedHeadIsSoft(s);
      assert Stops(s.q, s.q.head[0]) && at > 0;
      assert Dispatch(s, r, at).q.head[0] == s.q.head[0];
      hide InsertAt;
    }
    hide Stops;
  }

  lemma DoOrderedMoves(s: State)
    requires OrderInv(s) && Moving(s) && s.q.head != []
    ensures Moving(DoOrdered(s).s)
  {
    if s.q.ordseq == ZERO && IsBarrier(K(s.q.kind, s.q.head[0])) {
      assert s.q.nextOrdered != ORDERED_NONE by { hide Inv, Draining; }
      StartOrderedMoves(s);
      hide OrderInv, Moving, StartOrdered;
    } else {
      HeadEligible(s);
      hide OrderInv, Moving, DoOrdered, Eligible;
    }
  }

  lemma FetchMoves(s: State)
    requires OrderInv(s) && Moving(s) && s.q.head != []
    ensures Moving(Fetch(s)) && Moving(Peek(s))
  {
    DoOrderedMoves(s);
    hide OrderInv, DoOrdered, Accounted;
  }

  lemma CompleteMoves(s: State, r: Rq, error: int)
    requires OrderInv(s) && r in s.q.driver
    ensures Moving(Complete(s, r, error))
  {
    hide OrderInv, DrainCheck, Moving;
    if r.Io? {
      ReleasedOrder(s, r.id, error);
      DrainCheckMoves(Released(s, r.id, error));
    } else {
      hide Base, Draining, CompleteSeq;
      FinishedOrder(s, r);
      PastDrain(Finished(s, r), Bit(PhaseOf(r)), error);
    }
  }

  /** A sequence past its drain phase stays past it. */
  lemma PastDrain(s: State, bits: Bits, error: int)
    requires s.q.ordseq.drain
    ensures Moving(CompleteSeq(s, bits, error).0)
  {
    hide ReqSeq, EndIo;
  }

  lemma StepMoves(s: State, e: Event)
    requires Live(s) && Enabled(s, e, true) && SortsFs(e)
    ensures Moving(Step(s, e))
  {
    hide OrderInv, Moving, DrainCheck, Insert, Fetch, Peek, Requeue, Complete, Dispatch;
    match e
    case EInsert(id, k, soft, w) => InsertMoves(s, id, k, soft, w);
    case EDispatch(r, at) => DispatchMoves(s, r, at);
    case ERequeue(r) => RequeueMoves(s, r);
    case EFetch => FetchMoves(s);
    case EPeek => FetchMoves(s);
    case EComplete(r, error) => CompleteMoves(s, r, error);
    case EMerge(id) => AbsorbedOrder(s, id); DrainCheckMoves(Absorbed(s, id));
    case EPartialBar(error) => PartialBarMoves(s, error);
    case EPut => DrainCheckMoves(s);
  }

  lemma PartialBarMoves(s: State, error: int)
    requires Moving(s)
    ensures Moving(PartialBar(s, error))
  {
  }

  lemma StepLives(s: State, e: Event)
    requires Live(s) && Enabled(s, e, true) && SortsFs(e)
    ensures Live(Step(s, e))
  {
    assert Placed(s.q) && Pending(s);
    StepOrder(s, e);
    StepFixed(s, e);
    StepMoves(s, e);
    hide OrderInv, Fixed, Moving, Step;
  }

  lemma DoOrderedLives(s: State)
    requires Live(s) && s.q.head != []
    ensures Live(DoOrdered(s).s)
  {
    DoOrderedOrder(s);
    DoOrderedFixed(s);
    DoOrderedMoves(s);
    hide OrderInv, Fixed, Moving, DoOrdered;
  }

  lemma HeadBarrierIsIo(s: State)
    requires Inv(s) && s.q.head != []
    ensures s.q.ordseq == ZERO ==> s.q.head[0].Io?
  {
    assert s.q.head[0] in s.q.head;
    assert Held(s.q, s.q.head[0]);
  }

  /** A turn of the inner loop that yields nothing has removed a barrier from the list. */
  lemma TurnShrinks(s: State)
    requires Inv(s) && s.q.head != []
    ensures var v := DoOrdered(s);
            && v.s.q.driver == s.q.driver && v.s.q.sorted == s.q.sorted
            && (!v.ret ==> |v.s.q.head| < |s.q.head|)
            && (v.ret && v.rq.None? ==> v.s.q.ordseq != ZERO)
  {
    hide Inv, StartOrdered, EndIo, ReqSeq, CurSeq, Accounted;
    HeadBarrierIsIo(s);
    if s.q.ordseq == ZERO && s.q.nextOrdered != ORDERED_NONE && IsBarrier(K(s.q.kind, s.q.head[0])) {
      StartShrinks(s);
    }
  }

  /** A sequence that is over at once has queued nothing. */
  lemma StartShrinks(s: State)
    requires Inv(s) && s.q.ordseq == ZERO && s.q.head != [] && s.q.head[0].Io?
    ensures var v := StartOrdered(s);
            && v.s.q.driver == s.q.driver && v.s.q.sorted == s.q.sorted
            && (!v.ret ==> |v.s.q.head| < |s.q.head|)
            && (v.ret ==> v.s.q.ordseq != ZERO)
  {
    hide Inv, FirstProxy, MustDrain, EndIo;
    var s0 := Stash(s);
    var s1 := QueueProxies(s0);
    QueuedFrame(s0);
    assert s0.q.driver == s.q.driver && s0.q.sorted == s.q.sorted && |s0.q.head| < |s.q.head|;
    assert s0.q.ordseq.started;
    hide QueueProxies, Stash;
  }

  /** An idle driver that asks gets a request, unless the head was a barrier that is over at once. */
  lemma IdleIsAnswered(s: State)
    requires Live(s) && s.q.head != [] && s.q.driver == {}
    ensures var v := DoOrdered(s); v.ret ==> v.rq.Some?
  {
    if s.q.ordseq != ZERO {
      LiveIsMoving(s);
      hide Live, DoOrdered;
    } else if IsBarrier(K(s.q.kind, s.q.head[0])) {
      OpeningIsAnswered(s);
    }
  }

  lemma OpeningIsAnswered(s: State)
    requires OrderInv(s) && s.q.head != [] && s.q.driver == {} && s.q.ordseq == ZERO
    requires IsBarrier(K(s.q.kind, s.q.head[0]))
    ensures var v := DoOrdered(s); v.ret ==> v.rq.Some?
  {
    DoOrderedKeeps(s);
    DoOrderedOrder(s);
    var v := DoOrdered(s);
    assert v.s.q.driver == {} by {
      hide OrderInv;
      QueuedFrame(Stash(s));
      CompleteSeqFrame(QueueProxies(Stash(s)), Skip(QueueProxies(Stash(s)).q), 0);
      hide QueueProxies, CompleteSeq, Skip, FirstProxy;
    }
    assert Outstanding(v.s.q.driver, v.s.q.kind, v.s.q.started) == {};
    hide Inv, Draining, DoOrdered, InOrder, Colored, HeadWindow, DriverWindow, SortedWindow, Chronological, Tracked,
      Blocking;
  }

  lemma {:induction false} RunLives(states: seq<State>, events: seq<Event>, n: nat)
    requires Run(states, events, true) && DrainMode(states[0].q.nextOrdered) && n < |states|
    requires forall i :: 0 <= i < |events| ==> SortsFs(events[i])
    ensures Live(states[n])
  {
    if n == 0 {
      InitOrder(states[0]);
    } else {
      RunLives(states, events, n - 1);
      StepLives(states[n - 1], events[n - 1]);
    }
  }

  /** In every run under the two rules, an open sequence lets an idle driver go on. */
  lemma SequencesNeverStall(states: seq<State>, events: seq<Event>, n: nat)
    requires Run(states, events, true) && DrainMode(states[0].q.nextOrdered) && n < |states|
    requires forall i :: 0 <= i < |events| ==> SortsFs(events[i])
    ensures NoStall(states[n])
  {
    RunLives(states, events, n);
    LiveIsMoving(states[n]);
  }

  /** In every such run, an idle driver that looks at the head of the list gets a request or a shorter list. */
  lemma IdleDriverIsAnswered(states: seq<State>, events: seq<Event>, n: nat)
    requires Run(states, events, true) && DrainMode(states[0].q.nextOrdered) && n < |states|
    requires forall i :: 0 <= i < |events| ==> SortsFs(events[i])
    requires states[n].q.head != [] && states[n].q.driver == {}
    ensures var v := DoOrdered(states[n]);
            if v.ret then v.rq.Some? else Live(v.s) && |v.s.q.head| < |states[n].q.head|
  {
    RunLives(states, events, n);
    IdleIsAnswered(states[n]);
    DoOrderedLives(states[n]);
    TurnShrinks(states[n]);
  }

  lemma HeadIsNotLate(s: State)
    requires OrderInv(s) && s.q.ordseq != ZERO && s.q.head != []
    requires K(s.q.kind, s.q.head[0]).fs || IsProxy(s.q.head[0])
    ensures CurSeq(s.q) <= ReqSeq(s.q, s.q.head[0])
  {
    hide InOrder, DriverWindow, SortedWindow, Chronological, Accounting, Tracked, NoDup, EndedOnce, Returned;
    var r := s.q.head[0];
    assert r in s.q.head;
    if IsProxy(r) { HeadProxyIsOpen(s, r); } else { HeadIsOldest(s, r); }
  }

  /** In every strict drain-mode run the warning of blk_do_ordered, a request behind the current phase, never fires. */
  lemma NothingComesLate(states: seq<State>, events: seq<Event>, n: nat)
    requires Run(states, events, true) && DrainMode(states[0].q.nextOrdered) && n < |states|
    requires states[n].q.ordseq != ZERO && states[n].q.head != []
    requires K(states[n].q.kind, states[n].q.head[0]).fs || IsProxy(states[n].q.head[0])
    ensures CurSeq(states[n].q) <= ReqSeq(states[n].q, states[n].q.head[0])
  {
    RunOrder(states, events, n);
    HeadIsNotLate(states[n]);
  }

  /** How often a driver that only fetches and completes can still move. */
  function Work(q: Queue): (n: nat) { 2 * |q.head| + |q.driver| }

  /** A move of a driver: it takes what it may have, or completes what it holds with any error. */
  ghost predicate Move(s: State, e: Event, s': State) {
    && Enabled(s, e, true) && s' == Step(s, e)
    && (e.EComplete? || (e.EFetch? && MayIssue(s)))
  }

  ghost predicate AtWork(states: seq<State>, events: seq<Event>) {
    && |states| == |events| + 1
    && forall i :: 0 <= i < |events| ==> Move(states[i], events[i], states[i + 1])
  }

  lemma WorkShrinks(s: State, e: Event, s': State)
    requires Placed(s.q) && s.q.ordseq != ZERO && Move(s, e, s')
    ensures Work(s'.q) < Work(s.q)
  {
    if e.EComplete? {
      CompleteFrame(s, e.rq, e.error);
      hide Complete;
    } else {
      assert s.q.head[0] in s.q.head;
      hide DoOrdered;
    }
  }

  lemma CompleteSeqEnds(s: State, bits: Bits, error: int)
    ensures var s' := CompleteSeq(s, bits, error).0;
            && s'.q.orig == s.q.orig && s.h.done <= s'.h.done
            && (s'.q.ordseq == ZERO && s.q.ordseq != ZERO ==> s.q.orig in s'.h.done)
  {
  }

  lemma DrainCheckEnds(s: State)
    ensures var s' := DrainCheck(s);
            && s'.q.orig == s.q.orig && s.h.done <= s'.h.done
            && (s'.q.ordseq == ZERO && s.q.ordseq != ZERO ==> s.q.orig in s'.h.done)
  {
    CompleteSeqEnds(s, Bit(DRAIN), 0);
    hide CompleteSeq;
  }

  /** The sequence is that of the same barrier until the barrier ends. */
  lemma SameBarrier(s: State, e: Event, s': State)
    requires s.q.ordseq != ZERO && Move(s, e, s')
    ensures s'.q.orig == s.q.orig && (s'.q.ordseq == ZERO ==> s.q.orig in s'.h.done)
  {
    if e.EFetch? {
      hide DoOrdered, Accounted;
    } else {
      var s1 := if e.rq.Io? then Released(s, e.rq.id, e.error) else Finished(s, e.rq);
      DrainCheckEnds(s1);
      if IsProxy(e.rq) { CompleteSeqEnds(DrainCheck(s1), Bit(PhaseOf(e.rq)), e.error); }
      hide DrainCheck, CompleteSeq;
    }
  }

  lemma IdleIsNotOpen(s: State)
    requires Live(s) && s.q.ordseq != ZERO
    ensures Work(s.q) > 0
  {
    LiveIsMoving(s);
    hide Live, DoOrdered;
  }

  lemma MoveLives(s: State, e: Event, s': State)
    requires Live(s) && s.q.ordseq != ZERO && Move(s, e, s')
    ensures Live(s') && Work(s'.q) < Work(s.q)
  {
    assert Placed(s.q) by { hide Base, Draining, Placed; }
    WorkShrinks(s, e, s');
    StepLives(s, e);
    hide Live, Work, Step, Enabled;
  }

  /**
   Every driver at work closes an open sequence: after 2 * |head| + |driver| moves, at the
   latest, the original barrier has ended.
   */
  lemma {:induction false} DriverClosesSequence(states: seq<State>, events: seq<Event>) returns (i: nat)
    requires AtWork(states, events) && Live(states[0]) && |events| >= Work(states[0].q)
    requires states[0].q.ordseq != ZERO
    ensures i <= Work(states[0].q) && i < |states|
    ensures states[i].q.ordseq == ZERO && states[0].q.orig in states[i].h.done
    decreases |events|
  {
    hide Live, Move, Work;
    IdleIsNotOpen(states[0]);
    MoveLives(states[0], events[0], states[1]);
    SameBarrier(states[0], events[0], states[1]);
    i := 1;
    if states[1].q.ordseq != ZERO {
      i := DriverClosesSequence(states[1..], events[1..]);
      i := i + 1;
    }
  }

  // Without the rule for the scheduler: a run that stalls.

  /** An empty barrier, a discard that may be sorted, and one that is not an fs request but may be sorted too. */
  ghost predicate Culprits(b: Kind, x: Kind, d: Kind) {
    && IsBarrier(b) && b.sectors == 0
    && x.fs && x.discard && x.elvpriv && !x.hard
    && !d.fs && d.discard && d.elvpriv && !d.hard
  }

  /** A request is with the driver and an empty barrier waits for it. */
  ghost predicate Waiting(s: State, b: Kind) {
    && s.q.head == [] && s.q.sorted == {} && s.q.driver == {Io(0)} && s.q.inFlight == 1 && s.q.started == {Io(0)}
    && s.q.ordseq == Bits(true, false, true, true, true) && s.q.orig == 1
    && s.q.ordered == EffectiveOrdered(ORDERED_DRAIN, 0) && s.q.ordcolor
    && K(s.q.kind, Io(0)).fs && K(s.q.kind, Io(1)) == b.(color := false)
    && 2 !in s.h.epoch && 3 !in s.h.epoch
  }

  lemma Submit(b: Kind, x: Kind, d: Kind)
    requires Culprits(b, x, d)
    ensures var s1 := Insert(Idle(ORDERED_DRAIN), 0, x, false, Back);
            var s2 := Insert(s1, 1, b, false, Back);
            && s1.q.sorted == {} && 1 !in s1.h.epoch && s2.q.head == [Io(0), Io(1)] && Fetch(s2).q.head == [Io(1)]
            && Waiting(Fetch(Fetch(s2)), b)
  {
    var s1 := Insert(Idle(ORDERED_DRAIN), 0, x, false, Back);
    var s2 := Insert(s1, 1, b, false, Back);
    var s3 := Fetch(s2);
    assert s3.q == s2.q.(head := [Io(1)], driver := {Io(0)}, inFlight := 1, started := {Io(0)}) && s3.h == s2.h;
    var s4 := Stash(s3);
    assert s4.q.head == [] && s4.q.ordseq == Bit(STARTED) && s4.q.inFlight == 1;
    assert QueueProxies(s4) == s4;
  }

  /** The command is dispatched, the first request completes, and a discard is sorted before the command. */
  lemma Overtake(s: State, b: Kind, x: Kind, d: Kind)
    requires Culprits(b, x, d) && Waiting(s, b)
    ensures var s1 := Insert(Insert(s, 2, d, false, Sort), 3, x, false, Sort);
            var s2 := Dispatch(s1, Io(2), 0);
            var s3 := Complete(s2, Io(0), 0);
            && 3 !in Insert(s, 2, d, false, Sort).h.epoch
            && Io(2) in s1.q.sorted && s1.q.head == [] && Io(0) in s2.q.driver
            && Io(3) in s3.q.sorted && s3.q.head == [Io(2)] && !Stops(s3.q, Io(2))
            && !NoStall(Dispatch(s3, Io(3), 0))
  {
    var s1 := Insert(Insert(s, 2, d, false, Sort), 3, x, false, Sort);
    assert s1.q.head == [] && s1.q.sorted == {Io(2), Io(3)} && s1.q.driver == {Io(0)};
    var s2 := Dispatch(s1, Io(2), 0);
    assert s2.q.head == [Io(2)];
    var s3 := Complete(s2, Io(0), 0);
    assert s3.q == s2.q.(driver := {}, inFlight := 0);
    var s4 := Dispatch(s3, Io(3), 0);
    assert s4.q.head == [Io(3), Io(2)];
  }

  /** An idle driver, an open sequence, and a request at the head that must wait for its end. */
  lemma DiscardCommandStalls(b: Kind, x: Kind, d: Kind) returns (states: seq<State>, events: seq<Event>)
    requires Culprits(b, x, d)
    ensures Run(states, events, true) && DrainMode(states[0].q.nextOrdered) && Submits(events, iset{b, x, d})
    ensures !NoStall(states[|events|])
  {
    hide Insert, Fetch, Waiting, Run, Dispatch, Complete, NoStall, Submits;
    var all := iset{b, x, d};
    Submit(b, x, d);
    states, events := Begin(ORDERED_DRAIN, true, all);
    states, events := Extend(states, events, true, all, EInsert(0, x, false, Back));
    states, events := Extend(states, events, true, all, EInsert(1, b, false, Back));
    states, events := Extend(states, events, true, all, EFetch);
    states, events := Extend(states, events, true, all, EFetch);
    states, events := StallFrom(states, events, b, x, d);
  }

  lemma StallFrom(before: seq<State>, start: seq<Event>, b: Kind, x: Kind, d: Kind)
      returns (states: seq<State>, events: seq<Event>)
    requires Culprits(b, x, d) && Run(before, start, true) && Submits(start, iset{b, x, d})
    requires |before| == |start| + 1 && Waiting(before[|start|], b)
    ensures Run(states, events, true) && Submits(events, iset{b, x, d})
    ensures |states| == |events| + 1 && states[0] == before[0] && !NoStall(states[|events|])
  {
    hide Insert, Fetch, Run, Dispatch, Complete, NoStall, EffectiveOrdered, K, Submits;
    var all := iset{b, x, d};
    Overtake(before[|start|], b, x, d);
    assert 2 !in before[|start|].h.epoch;
    states, events := Extend(before, start, true, all, EInsert(2, d, false, Sort));
    states, events := Extend(states, events, true, all, EInsert(3, x, false, Sort));
    states, events := Extend(states, events, true, all, EDispatch(Io(2), 0));
    states, events := Extend(states, events, true, all, EComplete(Io(0), 0));
    states, events := Extend(states, events, true, all, EDispatch(Io(3), 0));
  }

  /** Every discard the scheduler may get is an fs request. */
  ghost predicate SortableIsFs(allowed: iset<Kind>) {
    forall k :: k in allowed && k.discard && k.elvpriv && !k.hard ==> k.fs
  }

  lemma SortedIsFs(states: seq<State>, events: seq<Event>, allowed: iset<Kind>, i: nat)
    requires Run(states, events, true) && Submits(events, allowed) && SortableIsFs(allowed) && i < |events|
    ensures SortsFs(events[i])
  {
    hide Init, Step, Stops;
    assert events[i] in events;
    assert Enabled(states[i], events[i], true);
  }

  /**
   For every set of request kinds that submitters may use, with an empty barrier and some fs discard
   among them: over all runs no open sequence stalls an idle queue if and only if all discards that
   can be sorted are fs requests.
   */
  lemma NoStallNeedsTheRule(allowed: iset<Kind>, b: Kind, x: Kind)
    requires b in allowed && IsBarrier(b) && b.sectors == 0
    requires x in allowed && x.fs && x.discard && x.elvpriv && !x.hard
    ensures SortableIsFs(allowed) <==>
            forall states: seq<State>, events: seq<Event>, n: nat ::
              && Run(states, events, true) && Submits(events, allowed)
              && DrainMode(states[0].q.nextOrdered) && n < |states|
              ==> NoStall(states[n])
  {
    if SortableIsFs(allowed) {
      forall states: seq<State>, events: seq<Event>, n: nat
        | && Run(states, events, true) && Submits(events, allowed)
          && DrainMode(states[0].q.nextOrdered) && n < |states|
        ensures NoStall(states[n])
      {
        forall i | 0 <= i < |events| ensures SortsFs(events[i]) {
          SortedIsFs(states, events, allowed, i);
        }
        SequencesNeverStall(states, events, n);
      }
    } else {
      var d :| d in allowed && d.discard && d.elvpriv && !d.hard && !d.fs;
      var states, events := DiscardCommandStalls(b, x, d);
      assert Submits(events, allowed);
      var n := |events|;
      assert !NoStall(states[n]);
    }
  }
}
