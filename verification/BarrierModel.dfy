/**
 The ordered-write (barrier) protocol of the block layer: blk-barrier.c, the insertion,
 requeue and completion paths of elevator.c and the dispatch loop of blk.h.

 The queue lock makes every operation one atomic step.  The device driver, the I/O
 scheduler and the submitters are the environment: they choose the next `Event`.
 `Hist` records what happened; no operation ever reads it.
 */
module BarrierModel {
  import opened Lists

  /** The three proxies embedded in the queue, or a request of the pool. */
  datatype Rq = PreFlush | Bar | PostFlush | Io(id: nat)

  /** The command type and the flags of a request that stay as they are once it is queued. */
  datatype Kind = Kind(fs: bool, discard: bool, hard: bool, color: bool, elvpriv: bool,
                       write: bool, pos: nat, sectors: nat)

  datatype Queue = Queue(
    head: seq<Rq>,        // queue_head, the dispatch list
    sorted: set<Rq>,      // requests held by the I/O scheduler
    driver: set<Rq>,      // requests dequeued and owned by the driver
    kind: map<Rq, Kind>,
    soft: set<Rq>,        // requests with REQ_SOFTBARRIER
    started: set<Rq>,     // requests with REQ_STARTED
    inFlight: int,        // in_flight[0] + in_flight[1]
    nextOrdered: Mode, ordered: Mode, ordseq: Bits,
    orderr: int, ordcolor: bool,
    orig: nat,            // orig_bar_rq
    bug: bool)            // a BUG_ON of the protocol has fired

  datatype Hist = Hist(
    inserted: seq<nat>,      // requests in order of insertion
    epoch: map<nat, nat>,    // number of barriers inserted before each request
    barriers: seq<nat>,      // fs barriers in order of insertion
    closed: nat,             // number of barriers ended so far
    done: set<nat>,          // requests ended so far
    ended: seq<(nat, int)>,  // request and error, in order of ending
    queued: set<Rq>,         // proxies queued by the current sequence
    finished: set<Rq>,       // proxies completed in the current sequence
    errors: seq<int>)        // errors reported by the phases of the current sequence

  datatype State = State(q: Queue, h: Hist)

  /** The bits of q->ordered and q->next_ordered. */
  datatype Mode = Mode(byDrain: bool, byTag: bool, preflush: bool, bar: bool, postflush: bool, fua: bool)

  const ORDERED_NONE := Mode(false, false, false, false, false, false)
  const ORDERED_DRAIN := Mode(true, false, false, true, false, false)
  const ORDERED_DRAIN_FLUSH := Mode(true, false, true, true, true, false)
  const ORDERED_DRAIN_FUA := Mode(true, false, true, true, false, true)
  const ORDERED_TAG := Mode(false, true, false, true, false, false)
  const ORDERED_TAG_FLUSH := Mode(false, true, true, true, true, false)
  const ORDERED_TAG_FUA := Mode(false, true, true, true, false, true)

  // The phases of an ordered sequence; each is one bit of q->ordseq.
  const STARTED := 0x01
  const DRAIN := 0x02
  const PREFLUSH := 0x04
  const BAR := 0x08
  const POSTFLUSH := 0x10
  const DONE := 0x20

  /** The bits of q->ordseq below DONE, which is never set. */
  datatype Bits = Bits(started: bool, drain: bool, preflush: bool, bar: bool, postflush: bool) {
    function Or(b: Bits): (r: Bits) {
      Bits(started || b.started, drain || b.drain, preflush || b.preflush, bar || b.bar,
           postflush || b.postflush)
    }

    predicate Meets(b: Bits) {
      || (started && b.started) || (drain && b.drain) || (preflush && b.preflush)
      || (bar && b.bar) || (postflush && b.postflush)
    }

    /** The bit of a proxy's phase. */
    predicate Has(r: Rq)
      requires IsProxy(r)
    {
      match r case PreFlush => preflush case Bar => bar case PostFlush => postflush
    }
  }

  const ZERO := Bits(false, false, false, false, false)

  const EOPNOTSUPP: int := -95

  predicate DrainMode(m: Mode) {
    m == ORDERED_DRAIN || m == ORDERED_DRAIN_FLUSH || m == ORDERED_DRAIN_FUA
  }

  predicate TagMode(m: Mode) {
    m == ORDERED_TAG || m == ORDERED_TAG_FLUSH || m == ORDERED_TAG_FUA
  }

  /** The values blk_queue_ordered accepts. */
  predicate ValidMode(m: Mode) {
    m == ORDERED_NONE || DrainMode(m) || TagMode(m)
  }

  const PLAIN: Kind := Kind(false, false, false, false, false, false, 0, 0)

  function K(kind: map<Rq, Kind>, r: Rq): (k: Kind) {
    if r in kind then kind[r] else PLAIN
  }

  /** blk_account_rq */
  predicate Accounted(kind: map<Rq, Kind>, started: set<Rq>, r: Rq) {
    r in started && (K(kind, r).fs || K(kind, r).discard)
  }

  predicate IsBarrier(k: Kind) { k.fs && k.hard }

  predicate IsProxy(r: Rq) { !r.Io? }

  /** blk_ordered_cur_seq: the lowest clear bit of ordseq */
  function CurSeq(q: Queue): (b: nat) {
    if q.ordseq == ZERO then 0
    else if !q.ordseq.started then STARTED
    else if !q.ordseq.drain then DRAIN
    else if !q.ordseq.preflush then PREFLUSH
    else if !q.ordseq.bar then BAR
    else if !q.ordseq.postflush then POSTFLUSH
    else DONE
  }

  /** blk_ordered_req_seq */
  function ReqSeq(q: Queue, r: Rq): (b: nat) {
    match r
    case PreFlush => PREFLUSH
    case Bar => BAR
    case PostFlush => POSTFLUSH
    case Io(_) =>
      if !K(q.kind, r).fs then DRAIN
      else if K(q.kind, r).color == K(q.kind, Io(q.orig)).color then DRAIN
      else DONE
  }

  function PhaseOf(r: Rq): (b: nat)
    requires IsProxy(r)
  {
    match r case PreFlush => PREFLUSH case Bar => BAR case PostFlush => POSTFLUSH
  }

  function Bit(phase: nat): (b: Bits) {
    Bits(phase == STARTED, phase == DRAIN, phase == PREFLUSH, phase == BAR, phase == POSTFLUSH)
  }

  /** Whether a mode asks for a proxy. */
  predicate Asks(m: Mode, r: Rq)
    requires IsProxy(r)
  {
    match r case PreFlush => m.preflush case Bar => m.bar case PostFlush => m.postflush
  }

  function FirstError(errors: seq<int>): (e: int) {
    if errors == [] then 0
    else if errors[0] != 0 then errors[0]
    else FirstError(errors[1..])
  }

  function InsertAt(s: seq<Rq>, i: nat, r: Rq): (t: seq<Rq>)
    requires i <= |s|
  {
    s[..i] + [r] + s[i..]
  }

  /** A request ends: the original barrier, a terminated barrier or a completed request. */
  function EndIo(h: Hist, id: nat, error: int): (h': Hist) {
    h.(done := h.done + {id}, ended := h.ended + [(id, error)])
  }

  /** blk_ordered_complete_seq; the second result is its return value. */
  function CompleteSeq(s: State, bits: Bits, error: int): (r: (State, bool)) {
    var orderr := if error != 0 && s.q.orderr == 0 then error else s.q.orderr;
    var q := s.q.(orderr := orderr, bug := s.q.bug || s.q.ordseq.Meets(bits),
                  ordseq := s.q.ordseq.Or(bits));
    var h := s.h.(errors := s.h.errors + [error]);
    if CurSeq(q) != DONE then
      (State(q, h), false)
    else
      (State(q.(ordseq := ZERO), EndIo(h, q.orig, orderr).(closed := h.closed + 1)), true)
  }

  /** elv_insert(ELEVATOR_INSERT_FRONT) */
  function InsertFront(q: Queue, r: Rq): (q': Queue) {
    q.(head := [r] + q.head, soft := q.soft + {r}, started := q.started - {r})
  }

  /** blk_dequeue_request, for the first request of the list */
  function DequeueHead(q: Queue): (q': Queue)
    requires q.head != []
  {
    q.(head := q.head[1..],
       inFlight := if Accounted(q.kind, q.started, q.head[0]) then q.inFlight + 1 else q.inFlight)
  }

  /** How start_ordered reduces the mode for an empty barrier. */
  function EffectiveOrdered(mode: Mode, sectors: nat): (m: Mode) {
    if sectors != 0 then mode
    else
      var m := mode.(bar := false, postflush := false);
      if m.byTag && !m.preflush then m.(byTag := false, byDrain := true) else m
  }

  /** queue_flush, or the initialisation of the proxy for the barrier's own data */
  function QueueIf(s: State, r: Rq): (s': State)
    requires IsProxy(r)
  {
    if !Asks(s.q.ordered, r) then s
    else State(InsertFront(s.q, r), s.h.(queued := s.h.queued + {r}))
  }

  /** A sequence for a barrier of `sectors` sectors begins: no error so far, the mode chosen, STARTED set. */
  function Opened(q: Queue, sectors: nat): (q': Queue) {
    q.(orderr := 0, ordered := EffectiveOrdered(q.nextOrdered, sectors), ordseq := q.ordseq.Or(Bit(STARTED)))
  }

  /** The queue once the barrier at its head is stashed away. */
  function Stash(s: State): (s': State)
    requires s.q.head != []
  {
    var r := s.q.head[0];
    var q := DequeueHead(Opened(s.q, K(s.q.kind, r).sectors));
    State(q.(orig := if r.Io? then r.id else q.orig), s.h.(queued := {}, finished := {}, errors := []))
  }

  /** The proxies are stacked at the head in reverse order. */
  function QueueProxies(s: State): (s': State) {
    QueueIf(QueueIf(QueueIf(s, PostFlush), Bar), PreFlush)
  }

  predicate MustDrain(q: Queue) { q.ordered.byDrain && q.inFlight != 0 }

  /** The phases start_ordered completes at once. */
  function Skip(q: Queue): (b: Bits) {
    Bits(false, !MustDrain(q), !q.ordered.preflush, !q.ordered.bar, !q.ordered.postflush)
  }

  /** The proxy start_ordered hands back through rqp. */
  function FirstProxy(q: Queue): (r: Option<Rq>) {
    if MustDrain(q) then None
    else if q.ordered.preflush then Some(PreFlush)
    else if q.ordered.bar then Some(Bar)
    else if q.ordered.postflush then Some(PostFlush)
    else None
  }

  /** The new state, the return value and the request left in *rqp. */
  datatype Verdict = Verdict(s: State, ret: bool, rq: Option<Rq>)

  /** start_ordered */
  function StartOrdered(s: State): (v: Verdict)
    requires s.q.head != []
  {
    var s1 := QueueProxies(Stash(s));
    var (s2, complete) := CompleteSeq(s1, Skip(s1.q), 0);
    Verdict(s2, !complete, FirstProxy(s1.q))
  }

  /** blk_do_ordered, applied to the first request of the dispatch list */
  function DoOrdered(s: State): (v: Verdict)
    requires s.q.head != []
  {
    var q, r := s.q, s.q.head[0];
    if q.ordseq == ZERO then
      if !IsBarrier(K(q.kind, r)) then Verdict(s, true, Some(r))
      else if q.nextOrdered != ORDERED_NONE then StartOrdered(s)
      else
        Verdict(State(DequeueHead(q), if r.Io? then EndIo(s.h, r.id, EOPNOTSUPP) else s.h), false, None)
    else if !K(q.kind, r).fs && r != PreFlush && r != PostFlush then Verdict(s, true, Some(r))
    else if q.ordered.byTag then
      Verdict(s, true, if IsBarrier(K(q.kind, r)) && r != Bar then None else Some(r))
    else
      Verdict(s, true, if ReqSeq(q, r) > CurSeq(q) then None else Some(r))
  }

  /** blk_peek_request marks the request it returns as started. */
  function Start(q: Queue, r: Rq): (q': Queue) {
    q.(started := q.started + {r})
  }

  /** blk_fetch_request: one turn of the dispatch loop, then hand the request to the driver. */
  function Fetch(s: State): (s': State)
    requires s.q.head != []
  {
    var v := DoOrdered(s);
    if v.ret && v.rq.Some? && v.s.q.head != [] then
      v.s.(q := TakeHead(Start(v.s.q, v.rq.value)))
    else v.s
  }

  function TakeHead(q: Queue): (q': Queue)
    requires q.head != []
  {
    DequeueHead(q).(driver := q.driver + {q.head[0]})
  }

  /** The driver looks at the next request but does not take it yet. */
  function Peek(s: State): (s': State)
    requires s.q.head != []
  {
    var v := DoOrdered(s);
    if v.ret && v.rq.Some? then v.s.(q := Start(v.s.q, v.rq.value)) else v.s
  }

  /** The drain check at the end of elv_completed_request. */
  function DrainCheck(s: State): (s': State) {
    var q := s.q;
    if q.ordseq != ZERO && q.inFlight == 0 && CurSeq(q) == DRAIN
       && (q.head == [] || ReqSeq(q, q.head[0]) > DRAIN)
    then CompleteSeq(s, Bit(DRAIN), 0).0
    else s
  }

  function DropInFlight(q: Queue, r: Rq): (q': Queue) {
    q.(inFlight := if Accounted(q.kind, q.started, r) then q.inFlight - 1 else q.inFlight)
  }

  /** elv_completed_request, for a request leaving the driver */
  function Completed(s: State, r: Rq): (s': State) {
    DrainCheck(s.(q := DropInFlight(s.q, r)))
  }

  /** The driver ends a request: its own end_io for a proxy, __blk_put_request otherwise. */
  function Complete(s: State, r: Rq, error: int): (s': State) {
    var s1 := s.(q := s.q.(driver := s.q.driver - {r}));
    match r
    case Io(id) => Completed(s1.(h := EndIo(s1.h, id, error)), r)
    case _ =>
      CompleteSeq(Completed(s1.(h := s1.h.(finished := s1.h.finished + {r})), r), Bit(PhaseOf(r)), error).0
  }

  /** req_bio_endio on the barrier proxy: only the error is recorded. */
  function PartialBar(s: State, error: int): (s': State) {
    State(s.q.(orderr := if error != 0 && s.q.orderr == 0 then error else s.q.orderr),
          s.h.(errors := s.h.errors + [error]))
  }

  /** First position whose phase is not before `phase`. */
  function RequeueIndex(q: Queue, phase: nat, from: nat): (i: nat)
    requires from <= |q.head|
    ensures from <= i <= |q.head|
    ensures i < |q.head| ==> phase <= ReqSeq(q, q.head[i])
    ensures forall k :: from <= k < i ==> !(phase <= ReqSeq(q, q.head[k]))
    decreases |q.head| - from
  {
    if from == |q.head| || phase <= ReqSeq(q, q.head[from]) then from
    else RequeueIndex(q, phase, from + 1)
  }

  /** elv_requeue_request with elv_insert(ELEVATOR_INSERT_REQUEUE) */
  function Requeue(s: State, r: Rq): (s': State) {
    var q := Unhook(s.q, r);
    s.(q := q.(head := InsertAt(q.head, RequeueAt(q, r), r)))
  }

  /** The driver gives a request back. */
  function Unhook(q: Queue, r: Rq): (q': Queue) {
    DropInFlight(q, r).(driver := q.driver - {r}, started := q.started - {r}, soft := q.soft + {r})
  }

  function RequeueAt(q: Queue, r: Rq): (i: nat)
    ensures i <= |q.head|
  {
    if q.ordseq == ZERO then 0 else RequeueIndex(q, ReqSeq(q, r), 0)
  }

  datatype Where = Front | Back | Sort

  /** Where __elv_add_request really puts a request. */
  function Route(k: Kind, soft: bool, where': Where): (w: Where) {
    if where' == Sort && (soft || k.hard || !k.elvpriv) then Back else where'
  }

  /** __elv_add_request; `soft` says whether the submitter set REQ_SOFTBARRIER. */
  function Insert(s: State, id: nat, k: Kind, soft: bool, where': Where): (s': State) {
    var r := Io(id);
    var q := s.q.(ordcolor := if k.hard then !s.q.ordcolor else s.q.ordcolor,
                  kind := s.q.kind[r := k.(color := s.q.ordcolor)], started := s.q.started - {r});
    var h := s.h.(inserted := s.h.inserted + [id], epoch := s.h.epoch[id := |s.h.barriers|],
                  barriers := if IsBarrier(k) then s.h.barriers + [id] else s.h.barriers);
    match Route(k, soft, where')
    case Front => State(q.(head := [r] + q.head, soft := q.soft + {r}), h)
    case Back => State(q.(head := q.head + [r], soft := q.soft + {r}), h)
    case Sort => State(q.(sorted := q.sorted + {r}, soft := q.soft - {r}), h)
  }

  /** REQ_SOFTBARRIER | REQ_HARDBARRIER | REQ_STARTED: nothing is sorted in front of it. */
  predicate Stops(q: Queue, r: Rq) { r in q.soft || K(q.kind, r).hard || r in q.started }

  /** elv_dispatch_sort or elv_dispatch_add_tail: the scheduler hands a request over. */
  function Dispatch(s: State, r: Rq, at: nat): (s': State)
    requires at <= |s.q.head|
  {
    s.(q := s.q.(sorted := s.q.sorted - {r}, head := InsertAt(s.q.head, at, r)))
  }

  /** A sorted request disappears into its neighbour (attempt_merge). */
  function MergedAway(s: State, id: nat): (s': State) {
    DrainCheck(s.(q := s.q.(sorted := s.q.sorted - {Io(id)}), h := s.h.(done := s.h.done + {id})))
  }

  datatype Event =
    | EInsert(id: nat, k: Kind, soft: bool, where': Where)
    | EDispatch(rq: Rq, at: nat)
    | EMerge(id: nat)
    | EFetch
    | EPeek
    | EComplete(rq: Rq, error: int)
    | EPartialBar(error: int)
    | ERequeue(rq: Rq)
    | EPut  // a request that never reached the queue is freed

  /**
   What the environment may do.  `strict` forbids a request that is not a file system
   request to carry the hard barrier flag; the block layer itself does not check this.
   */
  predicate Enabled(s: State, e: Event, strict: bool) {
    match e
    case EInsert(id, k, soft, w) =>
      && id !in s.h.epoch
      && (strict ==> k.hard ==> k.fs)
      && (Route(k, soft, w) == Front ==> !k.fs)              // no fs request uses INSERT_FRONT
      && (Route(k, soft, w) == Sort ==> k.fs || k.discard)   // BUG_ON of elv_insert
      && (Route(k, soft, w) == Back ==> s.q.sorted == {})    // elv_drain_elevator ran before
    case EDispatch(r, at) =>
      && r in s.q.sorted && at <= |s.q.head|
      && (forall i :: at <= i < |s.q.head| ==> !Stops(s.q, s.q.head[i]))
    case EMerge(id) => Io(id) in s.q.sorted
    case EFetch => s.q.head != []
    case EPeek => s.q.head != []
    case EComplete(r, _) => r in s.q.driver
    case EPartialBar(_) => Bar in s.q.driver
    case ERequeue(r) => r in s.q.driver
    case EPut => true
  }

  function Step(s: State, e: Event): (s': State)
    requires Enabled(s, e, false)
  {
    match e
    case EInsert(id, k, soft, w) => Insert(s, id, k, soft, w)
    case EDispatch(r, at) => Dispatch(s, r, at)
    case EMerge(id) => MergedAway(s, id)
    case EFetch => Fetch(s)
    case EPeek => Peek(s)
    case EComplete(r, error) => Complete(s, r, error)
    case EPartialBar(error) => PartialBar(s, error)
    case ERequeue(r) => Requeue(s, r)
    case EPut => DrainCheck(s)
  }

  /**
   The proxies are set up afresh for each sequence, always alike: prepare_flush_fn turns
   the flushes into driver commands (or leaves them fs requests), the data proxy is an fs
   barrier.
   */
  function ProxyKinds(flushFs: bool): (kind: map<Rq, Kind>) {
    map[PreFlush := PLAIN.(fs := flushFs, hard := true),
        Bar := PLAIN.(fs := true, hard := true),
        PostFlush := PLAIN.(fs := flushFs, hard := true)]
  }

  ghost predicate Init(s: State) {
    && ValidMode(s.q.nextOrdered)
    && s.q.head == [] && s.q.sorted == {} && s.q.driver == {}
    && (exists flushFs :: s.q.kind == ProxyKinds(flushFs))
    && s.q.soft == {} && s.q.started == {}
    && s.q.inFlight == 0 && s.q.ordseq == ZERO && !s.q.ordcolor && !s.q.bug
    && s.h == Hist([], map[], [], 0, {}, [], {}, {}, [])
  }

  /** A run: each state follows from the one before it by an enabled event. */
  ghost predicate Run(states: seq<State>, events: seq<Event>, strict: bool) {
    && |states| == |events| + 1
    && Init(states[0])
    && forall i :: 0 <= i < |events| ==>
         Enabled(states[i], events[i], strict)
         && states[i + 1] == Step(states[i], events[i])
  }

  /** Everything submitted is of an allowed kind. */
  ghost predicate Submits(events: seq<Event>, allowed: iset<Kind>) {
    forall e :: e in events && e.EInsert? ==> e.k in allowed
  }

  /** A queue in the given mode before anything has happened. */
  function Idle(mode: Mode): (s: State) {
    State(Queue([], {}, {}, ProxyKinds(false), {}, {}, 0, mode, mode, ZERO, 0, false, 0, false),
          Hist([], map[], [], 0, {}, [], {}, {}, []))
  }

  lemma Begin(mode: Mode, strict: bool, allowed: iset<Kind>) returns (states: seq<State>, events: seq<Event>)
    requires ValidMode(mode)
    ensures Run(states, events, strict) && Submits(events, allowed) && |states| == |events| + 1
    ensures states[0] == Idle(mode) && states[|events|] == Idle(mode)
  {
    states, events := [Idle(mode)], [];
  }

  /** One more step of a run. */
  lemma Extend(states: seq<State>, events: seq<Event>, strict: bool, allowed: iset<Kind>, e: Event)
      returns (states': seq<State>, events': seq<Event>)
    requires Run(states, events, strict) && Enabled(states[|events|], e, strict)
    requires Submits(events, allowed) && (e.EInsert? ==> e.k in allowed)
    ensures Run(states', events', strict) && Submits(events', allowed) && |states'| == |events'| + 1
    ensures states'[0] == states[0] && states'[|events'|] == Step(states[|events|], e)
  {
    hide Step, Init, Route, Stops;
    states', events' := states + [Step(states[|events|], e)], events + [e];
    forall i | 0 <= i < |events'|
      ensures Enabled(states'[i], events'[i], strict) && states'[i + 1] == Step(states'[i], events'[i])
    {
      assert i < |events| ==> states'[i + 1] == states[i + 1];
    }
  }
}
