/**
 What the I/O scheduler hands over never gets in front of a request that the driver has
 looked at, nor of one that was inserted with a barrier flag or without a scheduler's data.
 */
module BarrierFirm {
  import opened Lists
  import opened BarrierModel
  import opened BarrierSequence

  /** What nothing may pass stays so. */
  ghost predicate Firm(q: Queue, q': Queue) {
    forall r :: K(q'.kind, r) == K(q.kind, r) && (Stops(q, r) ==> Stops(q', r))
  }

  lemma QueueIfFirm(s: State, r: Rq)
    requires IsProxy(r)
    ensures Firm(s.q, QueueIf(s, r).q)
  {
  }

  lemma CompleteSeqFirm(s: State, bits: Bits, error: int)
    ensures Firm(s.q, CompleteSeq(s, bits, error).0.q)
  {
  }

  lemma DrainCheckFirm(s: State)
    ensures Firm(s.q, DrainCheck(s).q)
  {
    CompleteSeqFirm(s, Bit(DRAIN), 0);
    hide CompleteSeq, ReqSeq;
  }

  lemma FirmTrans(a: Queue, b: Queue, c: Queue)
    requires Firm(a, b) && Firm(b, c)
    ensures Firm(a, c)
  {
    hide Stops, K;
  }

  lemma StartOrderedFirm(s: State)
    requires s.q.head != []
    ensures Firm(s.q, StartOrdered(s).s.q)
  {
    var a := Stash(s);
    assert Firm(s.q, a.q);
    hide Firm, Stash, QueueIf, CompleteSeq;
    var (b, c) := (QueueIf(a, PostFlush), QueueIf(QueueIf(a, PostFlush), Bar));
    QueueIfFirm(a, PostFlush);
    QueueIfFirm(b, Bar);
    QueueIfFirm(c, PreFlush);
    var d := QueueIf(c, PreFlush);
    CompleteSeqFirm(d, Skip(d.q), 0);
    FirmTrans(s.q, a.q, b.q);
    FirmTrans(s.q, b.q, c.q);
    FirmTrans(s.q, c.q, d.q);
    FirmTrans(s.q, d.q, CompleteSeq(d, Skip(d.q), 0).0.q);
  }

  lemma DoOrderedFirm(s: State)
    requires s.q.head != []
    ensures Firm(s.q, DoOrdered(s).s.q)
  {
    StartOrderedFirm(s);
    var q := s.q;
    assert Firm(q, q) && Firm(q, DequeueHead(q));
    hide Firm, StartOrdered, ReqSeq, CurSeq, EndIo, K, DequeueHead;
  }

  /** The driver has looked at the request: it is marked as started. */
  lemma PeekFirm(s: State)
    requires s.q.head != []
    ensures Firm(s.q, Peek(s).q) && Firm(s.q, Fetch(s).q)
    ensures var v := DoOrdered(s); v.ret && v.rq.Some? ==> Stops(Peek(s).q, v.rq.value)
  {
    DoOrderedFirm(s);
    hide DoOrdered, Accounted;
  }

  lemma CompleteFirm(s: State, r: Rq, error: int)
    ensures Firm(s.q, Complete(s, r, error).q)
  {
    var s1 := if r.Io? then Released(s, r.id, error)
              else State(DropInFlight(s.q.(driver := s.q.driver - {r}), r), s.h.(finished := s.h.finished + {r}));
    assert Firm(s.q, s1.q);
    DrainCheckFirm(s1);
    FirmTrans(s.q, s1.q, DrainCheck(s1).q);
    if IsProxy(r) {
      CompleteSeqFirm(DrainCheck(s1), Bit(PhaseOf(r)), error);
      FirmTrans(s.q, DrainCheck(s1).q, CompleteSeq(DrainCheck(s1), Bit(PhaseOf(r)), error).0.q);
    }
    hide Firm, DrainCheck, CompleteSeq, Accounted;
  }

  lemma InsertFirm(s: State, id: nat, k: Kind, soft: bool, w: Where)
    ensures var q' := Insert(s, id, k, soft, w).q;
            && (forall r :: r != Io(id) && Stops(s.q, r) ==> Stops(q', r))
            && (soft || k.hard || !k.elvpriv || w != Sort ==> Stops(q', Io(id)) && Io(id) in q'.head)
            && (w != Front && (soft || k.hard || !k.elvpriv || w != Sort) ==> q'.head == s.q.head + [Io(id)])
  {
  }

  lemma StepFirm(s: State, e: Event, r: Rq)
    requires Enabled(s, e, false) && Stops(s.q, r) && (e.EInsert? ==> r != Io(e.id))
    ensures Stops(Step(s, e).q, r)
  {
    hide Stops, Insert, Dispatch, Fetch, Peek, Complete, Requeue, DrainCheck, K;
    match e
    case EInsert(id, k, soft, w) => InsertFirm(s, id, k, soft, w);
    case EDispatch(x, at) => DispatchFirm(s, x, at);
    case EMerge(id) => DrainCheckFirm(Absorbed(s, id)); assert Firm(s.q, Absorbed(s, id).q) by { AbsorbedFirm(s, id); }
    case EFetch => PeekFirm(s);
    case EPeek => PeekFirm(s);
    case EComplete(x, error) => CompleteFirm(s, x, error);
    case EPartialBar(error) => PartialBarFirm(s, error);
    case ERequeue(x) => RequeueFirm(s, x);
    case EPut => DrainCheckFirm(s);
  }

  lemma DispatchFirm(s: State, x: Rq, at: nat)
    requires at <= |s.q.head|
    ensures Firm(s.q, Dispatch(s, x, at).q)
  {
  }

  lemma AbsorbedFirm(s: State, id: nat)
    ensures Firm(s.q, Absorbed(s, id).q)
  {
  }

  lemma PartialBarFirm(s: State, error: int)
    ensures Firm(s.q, PartialBar(s, error).q)
  {
  }

  lemma RequeueFirm(s: State, x: Rq)
    ensures Firm(s.q, Requeue(s, x).q)
  {
    hide RequeueAt, Accounted;
  }

  /** The request is a proxy or was inserted. */
  ghost predicate Known(s: State, r: Rq) { r.Io? ==> r.id in s.h.epoch }

  lemma KnownStays(s: State, e: Event, r: Rq)
    requires Enabled(s, e, false) && Known(s, r)
    ensures Known(Step(s, e), r) && (e.EInsert? ==> r != Io(e.id))
  {
    EpochStays(s, e);
    hide Step;
  }

  /** No request is forgotten. */
  lemma EpochStays(s: State, e: Event)
    requires Enabled(s, e, false)
    ensures s.h.epoch.Keys <= Step(s, e).h.epoch.Keys
  {
    hide Stops, K, Accounted, ReqSeq, CurSeq, RequeueAt, Route, EffectiveOrdered, Skip, FirstProxy;
    if e.EFetch? || e.EPeek? { DoOrderedEpoch(s); }
    hide DoOrdered;
  }

  lemma DoOrderedEpoch(s: State)
    requires s.q.head != []
    ensures DoOrdered(s).s.h.epoch == s.h.epoch
  {
    QueuedFrame(Stash(s));
    hide QueueProxies, K, ReqSeq, CurSeq, Skip, FirstProxy, DequeueHead, Opened;
  }

  lemma {:induction false} StaysFirm(states: seq<State>, events: seq<Event>, n: nat, m: nat, r: Rq)
    requires Run(states, events, false) && n <= m < |states| && Known(states[n], r) && Stops(states[n].q, r)
    ensures Known(states[m], r) && Stops(states[m].q, r)
    decreases m
  {
    if n < m {
      StaysFirm(states, events, n, m - 1, r);
      hide Known, Stops, Init, Step, Enabled;
      KnownStays(states[m - 1], events[m - 1], r);
      StepFirm(states[m - 1], events[m - 1], r);
    }
  }

  /** Over every run: what the driver was shown is not passed by anything sorted afterwards. */
  lemma SeenIsNotPassed(states: seq<State>, events: seq<Event>, n: nat, m: nat, i: nat)
    requires Run(states, events, false) && n < m < |events| && events[n].EPeek? && events[m].EDispatch?
    requires var v := DoOrdered(states[n]); v.ret && v.rq.Some?
    requires i < |states[m].q.head| && states[m].q.head[i] == DoOrdered(states[n]).rq.value
    ensures i < events[m].at
  {
    var r := DoOrdered(states[n]).rq.value;
    RunKeeps(states, events, n);
    RunKeeps(states, events, n + 1);
    DoOrderedKeeps(states[n]);
    PeekFirm(states[n]);
    assert r in DoOrdered(states[n]).s.q.head;
    assert Known(states[n + 1], r) by {
      assert Pending(states[n + 1]) && states[n + 1].q.head == DoOrdered(states[n]).s.q.head;
    }
    hide DoOrdered, Inv, Step, Init;
    StaysFirm(states, events, n + 1, m, r);
    assert Enabled(states[m], events[m], false);
  }

  /**
   Over every run: a request inserted with a barrier flag, or without the scheduler's data, or not to be
   sorted, is on the list at once, behind all others unless it goes to the front, and is not passed by
   anything sorted afterwards.
   */
  lemma SoftIsNotPassed(states: seq<State>, events: seq<Event>, n: nat, m: nat, i: nat)
    requires Run(states, events, false) && n < m < |events| && events[n].EInsert? && events[m].EDispatch?
    requires var e := events[n]; e.soft || e.k.hard || !e.k.elvpriv || e.where' != Sort
    requires i < |states[m].q.head| && states[m].q.head[i] == Io(events[n].id)
    ensures i < events[m].at
    ensures events[n].where' != Front ==>
              states[n + 1].q.head == states[n].q.head + [Io(events[n].id)] && states[n + 1].q.sorted == {}
  {
    var e := events[n];
    assert Enabled(states[n], e, false) && states[n + 1] == Insert(states[n], e.id, e.k, e.soft, e.where');
    InsertFirm(states[n], e.id, e.k, e.soft, e.where');
    assert Known(states[n + 1], Io(e.id));
    StaysFirm(states, events, n + 1, m, Io(e.id));
    assert Enabled(states[m], events[m], false);
    hide Run, K;
  }
}
