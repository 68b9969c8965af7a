/**
 The order elv_dispatch_sort gives the dispatch list: a one-way elevator that starts at the
 boundary q->end_sector, runs up to the end of the disk and goes on from its beginning.
 Requests that nothing may pass (Stops), and a change of direction or of the discard flag,
 cut the list into runs; every run is in elevator order.
 */
module BarrierSort {
  import opened Lists
  import opened BarrierModel
  import opened BarrierSequence

  /** The elevator at `end` reaches sector x no later than sector y. */
  predicate Reaches(end: nat, x: nat, y: nat) {
    || (x >= end && y < end)
    || ((x >= end <==> y >= end) && x <= y)
  }

  predicate SameRun(a: Kind, b: Kind) { a.discard == b.discard && a.write == b.write }

  predicate Movable(q: Queue, r: Rq) { !Stops(q, r) }

  /** Neighbours of one run are in elevator order. */
  ghost predicate InElevatorOrder(q: Queue, end: nat, x: Rq, y: Rq) {
    Movable(q, x) && Movable(q, y) && SameRun(K(q.kind, x), K(q.kind, y)) ==>
      Reaches(end, K(q.kind, x).pos, K(q.kind, y).pos)
  }

  ghost predicate Elevated(q: Queue, end: nat) {
    forall i :: 0 < i < |q.head| ==> InElevatorOrder(q, end, q.head[i - 1], q.head[i])
  }

  /** `rq` goes in front of `pos`: the two are of one run and the elevator reaches `rq` first. */
  predicate Passes(q: Queue, end: nat, rq: Rq, pos: Rq) {
    && SameRun(K(q.kind, rq), K(q.kind, pos)) && Movable(q, pos)
    && !Reaches(end, K(q.kind, pos).pos, K(q.kind, rq).pos)
  }

  /** Where the walk from the end of the list stops. */
  ghost predicate Place(q: Queue, end: nat, rq: Rq, at: nat) {
    && at <= |q.head|
    && (forall i :: at <= i < |q.head| ==> Passes(q, end, rq, q.head[i]))
    && (at > 0 ==> !Passes(q, end, rq, q.head[at - 1]))
  }

  lemma NothingIsPassed(q: Queue, end: nat, rq: Rq, at: nat)
    requires Place(q, end, rq, at)
    ensures forall i :: at <= i < |q.head| ==> !Stops(q, q.head[i])
  {
    hide Stops, Reaches, SameRun;
  }

  lemma DispatchElevated(s: State, end: nat, r: Rq, at: nat)
    requires Elevated(s.q, end) && Place(s.q, end, r, at)
    ensures Elevated(Dispatch(s, r, at).q, end)
  {
    var q, q' := s.q, Dispatch(s, r, at).q;
    assert at > 0 ==> InElevatorOrder(q, end, q.head[at - 1], r);
    assert at < |q.head| ==> InElevatorOrder(q, end, r, q.head[at]);
    hide Passes, Reaches, K;
    forall i | 0 < i < |q'.head| ensures InElevatorOrder(q', end, q'.head[i - 1], q'.head[i]) {
      assert q'.head[i] == if i < at then q.head[i] else if i == at then r else q.head[i - 1];
      assert q'.head[i - 1] == if i <= at then q.head[i - 1] else if i == at + 1 then r else q.head[i - 2];
    }
  }

  /** Flags may be added, and requests nothing may pass may come between. */
  ghost predicate Tighter(q: Queue, q': Queue) {
    forall r :: r in q.head ==> K(q'.kind, r) == K(q.kind, r) && (Stops(q, r) ==> Stops(q', r))
  }

  lemma PushElevated(q: Queue, q': Queue, end: nat, at: nat, r: Rq)
    requires Elevated(q, end) && at <= |q.head| && q'.head == InsertAt(q.head, at, r) && Stops(q', r) && Tighter(q, q')
    ensures Elevated(q', end)
  {
    hide Reaches, K, Stops;
    forall i | 0 < i < |q'.head| ensures InElevatorOrder(q', end, q'.head[i - 1], q'.head[i]) {
      if i < at {
        assert q'.head[i] == q.head[i] && q'.head[i - 1] == q.head[i - 1];
      } else if i > at + 1 {
        assert q'.head[i] == q.head[i - 1] && q'.head[i - 1] == q.head[i - 2];
      }
    }
  }

  lemma KeepElevated(q: Queue, q': Queue, end: nat)
    requires Elevated(q, end) && q'.head == q.head && Tighter(q, q')
    ensures Elevated(q', end)
  {
    hide Reaches, K, Stops;
    forall i | 0 < i < |q'.head| ensures InElevatorOrder(q', end, q'.head[i - 1], q'.head[i]) {
      assert q.head[i] in q.head && q.head[i - 1] in q.head;
    }
  }

  lemma PopElevated(q: Queue, q': Queue, end: nat)
    requires Elevated(q, end) && q.head != [] && q'.head == q.head[1..] && Tighter(q, q')
    ensures Elevated(q', end)
  {
    hide Reaches, K, Stops;
    forall i | 0 < i < |q'.head| ensures InElevatorOrder(q', end, q'.head[i - 1], q'.head[i]) {
      assert q'.head[i] == q.head[i + 1] && q'.head[i - 1] == q.head[i];
    }
  }

  lemma QueueIfElevated(s: State, end: nat, r: Rq)
    requires Elevated(s.q, end) && IsProxy(r)
    ensures Elevated(QueueIf(s, r).q, end)
  {
    if Asks(s.q.ordered, r) {
      var q' := QueueIf(s, r).q;
      assert q'.head == InsertAt(s.q.head, 0, r);
      PushElevated(s.q, q', end, 0, r);
    }
  }

  lemma DoOrderedElevated(s: State, end: nat)
    requires Elevated(s.q, end) && s.q.head != []
    ensures Elevated(DoOrdered(s).s.q, end)
  {
    hide Elevated, CompleteSeq, ReqSeq, CurSeq, QueueIf;
    if s.q.ordseq == ZERO && IsBarrier(K(s.q.kind, s.q.head[0])) {
      PopElevated(s.q, DequeueHead(s.q), end);
      var s0 := Stash(s);
      PopElevated(s.q, s0.q, end);
      hide Stash;
      QueueIfElevated(s0, end, PostFlush);
      QueueIfElevated(QueueIf(s0, PostFlush), end, Bar);
      QueueIfElevated(QueueIf(QueueIf(s0, PostFlush), Bar), end, PreFlush);
      CompleteSeqElevated(QueueProxies(s0), end, Skip(QueueProxies(s0).q), 0);
      hide Skip, FirstProxy;
    }
  }

  lemma CompleteSeqElevated(s: State, end: nat, bits: Bits, error: int)
    requires Elevated(s.q, end)
    ensures Elevated(CompleteSeq(s, bits, error).0.q, end)
  {
    KeepElevated(s.q, CompleteSeq(s, bits, error).0.q, end);
    hide Elevated;
  }

  lemma FetchElevated(s: State, end: nat)
    requires Elevated(s.q, end) && s.q.head != []
    ensures Elevated(Fetch(s).q, end) && Elevated(Peek(s).q, end)
  {
    DoOrderedElevated(s, end);
    hide Elevated, DoOrdered;
    var v := DoOrdered(s);
    if v.ret && v.rq.Some? {
      var q := Start(v.s.q, v.rq.value);
      KeepElevated(v.s.q, q, end);
      if q.head != [] { PopElevated(q, TakeHead(q), end); }
    }
  }

  lemma DrainCheckElevated(s: State, end: nat)
    requires Elevated(s.q, end)
    ensures Elevated(DrainCheck(s).q, end)
  {
    CompleteSeqElevated(s, end, Bit(DRAIN), 0);
    hide Elevated, CompleteSeq, ReqSeq;
  }

  lemma CompleteElevated(s: State, end: nat, r: Rq, error: int)
    requires Elevated(s.q, end)
    ensures Elevated(Complete(s, r, error).q, end)
  {
    var s1 := if r.Io? then Released(s, r.id, error)
              else State(DropInFlight(s.q.(driver := s.q.driver - {r}), r), s.h.(finished := s.h.finished + {r}));
    KeepElevated(s.q, s1.q, end);
    DrainCheckElevated(s1, end);
    if IsProxy(r) { CompleteSeqElevated(DrainCheck(s1), end, Bit(PhaseOf(r)), error); }
    hide Elevated, DrainCheck, CompleteSeq, Accounted;
  }

  lemma RequeueElevated(s: State, end: nat, r: Rq)
    requires Elevated(s.q, end) && r !in s.q.head
    ensures Elevated(Requeue(s, r).q, end)
  {
    hide RequeueAt, Accounted, Elevated;
    PushElevated(s.q, Requeue(s, r).q, end, RequeueAt(Unhook(s.q, r), r), r);
  }

  lemma InsertElevated(s: State, end: nat, id: nat, k: Kind, soft: bool, w: Where)
    requires Elevated(s.q, end) && Io(id) !in s.q.head
    ensures Elevated(Insert(s, id, k, soft, w).q, end)
  {
    hide Elevated;
    var q' := Insert(s, id, k, soft, w).q;
    match Route(k, soft, w)
    case Front =>
      assert q'.head == InsertAt(s.q.head, 0, Io(id));
      PushElevated(s.q, q', end, 0, Io(id));
    case Back =>
      assert q'.head == InsertAt(s.q.head, |s.q.head|, Io(id));
      PushElevated(s.q, q', end, |s.q.head|, Io(id));
    case Sort => KeepElevated(s.q, q', end);
  }

  /** The scheduler hands its requests over with elv_dispatch_sort. */
  ghost predicate SortsBy(q: Queue, end: nat, e: Event) { e.EDispatch? ==> Place(q, end, e.rq, e.at) }

  lemma StepElevated(s: State, end: nat, e: Event)
    requires Inv(s) && Elevated(s.q, end) && Enabled(s, e, false) && SortsBy(s.q, end, e)
    ensures Elevated(Step(s, e).q, end)
  {
    assert Placed(s.q) && Pending(s);
    hide Inv, Elevated, Insert, Dispatch, Fetch, Peek, Complete, Requeue, DrainCheck, K, Stops;
    match e
    case EInsert(id, k, soft, w) => InsertElevated(s, end, id, k, soft, w);
    case EDispatch(r, at) => DispatchElevated(s, end, r, at);
    case EMerge(id) => KeepElevated(s.q, Absorbed(s, id).q, end); DrainCheckElevated(Absorbed(s, id), end);
    case EFetch => FetchElevated(s, end);
    case EPeek => FetchElevated(s, end);
    case EComplete(r, error) => CompleteElevated(s, end, r, error);
    case EPartialBar(error) => KeepElevated(s.q, PartialBar(s, error).q, end);
    case ERequeue(r) => RequeueElevated(s, end, r);
    case EPut => DrainCheckElevated(s, end);
  }

  lemma {:induction false} RunElevated(states: seq<State>, events: seq<Event>, end: nat, n: nat)
    requires Run(states, events, false) && n < |states|
    requires forall i :: 0 <= i < |events| ==> SortsBy(states[i].q, end, events[i])
    ensures Elevated(states[n].q, end)
  {
    if n > 0 {
      RunElevated(states, events, end, n - 1);
      RunKeeps(states, events, n - 1);
      hide Inv, Elevated, Init, SortsBy;
      StepElevated(states[n - 1], end, events[n - 1]);
    }
  }

  /** From position i to position j the list is one run of requests that may be passed. */
  ghost predicate OneRun(q: Queue, i: nat, j: nat)
    requires j < |q.head|
  {
    forall k :: i <= k <= j ==> Movable(q, q.head[k]) && SameRun(K(q.kind, q.head[i]), K(q.kind, q.head[k]))
  }

  lemma {:induction false} RunIsSorted(q: Queue, end: nat, i: nat, j: nat)
    requires Elevated(q, end) && i < j < |q.head| && OneRun(q, i, j)
    ensures Reaches(end, K(q.kind, q.head[i]).pos, K(q.kind, q.head[j]).pos)
    decreases j
  {
    hide K, Stops;
    assert InElevatorOrder(q, end, q.head[j - 1], q.head[j]);
    if j - 1 > i { RunIsSorted(q, end, i, j - 1); }
  }

  /**
   While the boundary stays and requests are handed over with elv_dispatch_sort: in every run of the queue,
   whatever else is inserted, requeued, taken or completed, each stretch of requests that may be passed and
   go the same way is served in elevator order.
   */
  lemma StretchesAreSorted(states: seq<State>, events: seq<Event>, end: nat, n: nat, i: nat, j: nat)
    requires Run(states, events, false) && n < |states|
    requires forall k :: 0 <= k < |events| ==> SortsBy(states[k].q, end, events[k])
    requires i < j < |states[n].q.head| && OneRun(states[n].q, i, j)
    ensures var q := states[n].q; Reaches(end, K(q.kind, q.head[i]).pos, K(q.kind, q.head[j]).pos)
  {
    RunElevated(states, events, end, n);
    hide Run, SortsBy, Elevated, OneRun;
    RunIsSorted(states[n].q, end, i, j);
  }

  /**
   blk_peek_request moves the boundary to the end of the request it hands out.  If the list is one run and no
   request in it starts inside the first one, what is left is in elevator order from the new boundary too.
   */
  lemma BoundaryAdvances(q: Queue, end: nat)
    requires Elevated(q, end) && q.head != [] && OneRun(q, 0, |q.head| - 1)
    requires var x := K(q.kind, q.head[0]);
      forall k :: 0 < k < |q.head| ==> !(x.pos <= K(q.kind, q.head[k]).pos < x.pos + x.sectors)
    ensures var x := K(q.kind, q.head[0]); Elevated(q.(head := q.head[1..]), x.pos + x.sectors)
  {
    var x, q' := K(q.kind, q.head[0]), q.(head := q.head[1..]);
    hide K, Stops;
    forall i | 0 < i < |q'.head| ensures InElevatorOrder(q', x.pos + x.sectors, q'.head[i - 1], q'.head[i]) {
      assert q'.head[i] == q.head[i + 1] && q'.head[i - 1] == q.head[i];
      RunIsSorted(q, end, 0, i);
      RunIsSorted(q, end, 0, i + 1);
      RunIsSorted(q, end, i, i + 1);
    }
  }
}
