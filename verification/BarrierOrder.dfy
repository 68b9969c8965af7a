/**
 Ordering by draining.  In every run on a queue in a drain mode, with any number of queued
 barriers and requeued requests, the driver sees a barrier's data only after every request
 inserted before the barrier and its pre-flush, and sees no request inserted after a
 barrier before that barrier has ended.
 */
module BarrierOrder {
  import opened Lists
  import opened BarrierModel
  import opened BarrierSequence

  type Kinds = map<Rq, Kind>
  type Epochs = map<nat, nat>

  /** Requests that take part in the ordering; the others may overtake anything. */
  predicate Counts(kind: Kinds, r: Rq) { IsProxy(r) || K(kind, r).fs }

  predicate FsIo(kind: Kinds, r: Rq) { r.Io? && K(kind, r).fs }

  function Epoch(epoch: Epochs, id: nat): (e: nat) { if id in epoch then epoch[id] else 0 }

  /**
   The place of a request in the total order the protocol realises: the requests of an
   epoch, then the phases of the barrier that closes it, then the next epoch.
   */
  function Key(kind: Kinds, epoch: Epochs, closed: nat, r: Rq): (k: nat) {
    match r
    case PreFlush => 8 * closed + 3
    case Bar => 8 * closed + 4
    case PostFlush => 8 * closed + 5
    case Io(id) => 8 * Epoch(epoch, id) + if K(kind, r).hard then 7 else 2
  }

  predicate Before(kind: Kinds, epoch: Epochs, closed: nat, r: Rq, t: Rq) {
    Counts(kind, r) && Counts(kind, t) ==> Key(kind, epoch, closed, r) <= Key(kind, epoch, closed, t)
  }

  /** The dispatch list follows the order. */
  ghost predicate InOrder(head: seq<Rq>, kind: Kinds, epoch: Epochs, closed: nat) {
    forall i, j :: 0 <= i < j < |head| ==> Before(kind, epoch, closed, head[i], head[j])
  }

  /** The one-bit colour is the parity of the epoch. */
  ghost predicate Colored(kind: Kinds, ordcolor: bool, epoch: Epochs, barriers: seq<nat>) {
    && (forall id :: id in epoch ==>
          && (K(kind, Io(id)).color <==> epoch[id] % 2 == 1)
          && (K(kind, Io(id)).hard ==> K(kind, Io(id)).fs)
          && epoch[id] <= |barriers|
          && (K(kind, Io(id)).hard <==> epoch[id] < |barriers| && barriers[epoch[id]] == id))
    && (ordcolor <==> |barriers| % 2 == 1)
    && (forall e :: 0 <= e < |barriers| ==> barriers[e] in epoch && epoch[barriers[e]] == e)
  }

  /** File system requests in the list belong to epochs that are still open. */
  ghost predicate HeadWindow(head: seq<Rq>, kind: Kinds, started: set<Rq>, epoch: Epochs, closed: nat) {
    forall r :: r in head && FsIo(kind, r) ==>
      Epoch(epoch, r.id) >= closed && (K(kind, r).hard ==> r !in started)
  }

  /** File system requests with the driver belong to the oldest open epoch. */
  ghost predicate DriverWindow(driver: set<Rq>, kind: Kinds, epoch: Epochs, closed: nat) {
    forall r :: r in driver && FsIo(kind, r) ==> Epoch(epoch, r.id) == closed && !K(kind, r).hard
  }

  /** Requests in the scheduler belong to the newest epoch. */
  ghost predicate SortedWindow(sorted: set<Rq>, kind: Kinds, epoch: Epochs, last: nat) {
    forall r :: r in sorted ==> r.Io? && Epoch(epoch, r.id) == last && !K(kind, r).hard
  }

  /** Barriers end in order, and every open one still blocks the list. */
  ghost predicate Blocking(head: seq<Rq>, barriers: seq<nat>, closed: nat, running: bool, orig: nat, done: set<nat>) {
    && closed <= |barriers|
    && (forall e :: closed <= e < |barriers| ==> Io(barriers[e]) in head || (e == closed && running))
    && (running ==> closed < |barriers| && orig == barriers[closed])
    && (forall e :: 0 <= e < closed ==> barriers[e] in done)
  }

  /** No inserted request is lost. */
  ghost predicate Tracked(s: State) {
    forall id :: id in s.h.epoch ==>
      || id in s.h.done || Io(id) in s.q.head || Io(id) in s.q.driver || Io(id) in s.q.sorted
      || (s.q.ordseq != ZERO && id == s.q.orig)
  }

  /** Epochs follow the order of insertion. */
  ghost predicate Chronological(inserted: seq<nat>, kind: Kinds, epoch: Epochs) {
    && (forall i :: 0 <= i < |inserted| ==> inserted[i] in epoch)
    && (forall i, j :: 0 <= i < j < |inserted| ==>
          && Epoch(epoch, inserted[i]) <= Epoch(epoch, inserted[j])
          && (K(kind, Io(inserted[i])).hard ==> Epoch(epoch, inserted[i]) < Epoch(epoch, inserted[j])))
  }

  function Outstanding(driver: set<Rq>, kind: Kinds, started: set<Rq>): (rs: set<Rq>) {
    set r | r in driver && Accounted(kind, started, r)
  }

  ghost predicate Accounting(driver: set<Rq>, kind: Kinds, started: set<Rq>, inFlight: int) {
    inFlight == |Outstanding(driver, kind, started)| && driver <= started
  }

  /** No file system request of the oldest open epoch is left. */
  ghost predicate Quiet(head: seq<Rq>, driver: set<Rq>, kind: Kinds, epoch: Epochs, closed: nat) {
    && (forall r :: r in head && FsIo(kind, r) ==> Epoch(epoch, r.id) != closed)
    && (forall r :: r in driver ==> !FsIo(kind, r))
  }

  /** While a sequence runs, the old requests in the list are requeued ones. */
  ghost predicate Returned(head: seq<Rq>, kind: Kinds, soft: set<Rq>, epoch: Epochs, closed: nat) {
    forall r :: r in head && FsIo(kind, r) && Epoch(epoch, r.id) == closed ==> r in soft
  }

  ghost predicate ProxyFlags(kind: Kinds) {
    K(kind, Bar).fs && K(kind, Bar).hard && K(kind, PreFlush).hard && K(kind, PostFlush).hard
  }

  ghost predicate QuietNow(s: State) {
    Quiet(s.q.head, s.q.driver, s.q.kind, s.h.epoch, s.h.closed)
  }

  ghost predicate NoProxyOut(q: Queue) { forall r :: r in q.driver ==> r.Io? }

  ghost predicate Draining(s: State) {
    s.q.ordseq != ZERO ==>
      && !s.q.ordered.byTag && s.q.ordered.byDrain
      && Returned(s.q.head, s.q.kind, s.q.soft, s.h.epoch, s.h.closed)
      && (s.q.ordseq.drain ==> QuietNow(s))
      && (forall r :: r in s.q.driver && IsProxy(r) ==> CurSeq(s.q) == PhaseOf(r))
  }

  /** Everything but the phase of the running sequence. */
  ghost predicate Base(s: State) {
    && DrainMode(s.q.nextOrdered) && ProxyFlags(s.q.kind)
    && InOrder(s.q.head, s.q.kind, s.h.epoch, s.h.closed)
    && Colored(s.q.kind, s.q.ordcolor, s.h.epoch, s.h.barriers)
    && HeadWindow(s.q.head, s.q.kind, s.q.started, s.h.epoch, s.h.closed)
    && DriverWindow(s.q.driver, s.q.kind, s.h.epoch, s.h.closed)
    && SortedWindow(s.q.sorted, s.q.kind, s.h.epoch, |s.h.barriers|)
    && Blocking(s.q.head, s.h.barriers, s.h.closed, s.q.ordseq != ZERO, s.q.orig, s.h.done)
    && Tracked(s)
    && Chronological(s.h.inserted, s.q.kind, s.h.epoch)
    && Accounting(s.q.driver, s.q.kind, s.q.started, s.q.inFlight)
  }

  ghost predicate OrderInv(s: State) { Inv(s) && Base(s) && Draining(s) }

  /** Completing phases; the sequence may end and open the next epoch. */
  lemma CompleteSeqOrder(s: State, bits: Bits, error: int)
    requires Base(s) && s.q.ordseq != ZERO && NoProxyOut(s.q)
    requires s.q.ordered.byDrain && !s.q.ordered.byTag
    requires s.q.ordseq.Or(bits).drain ==> QuietNow(s)
    requires Returned(s.q.head, s.q.kind, s.q.soft, s.h.epoch, s.h.closed)
    requires CompleteSeq(s, bits, error).1 ==> forall r :: r in s.q.head ==> r.Io?
    ensures var s' := CompleteSeq(s, bits, error).0; Base(s') && Draining(s')
  {
    var (s', complete) := CompleteSeq(s, bits, error);
    if complete {
      assert forall i, j :: 0 <= i < j < |s.q.head| ==>
        Before(s.q.kind, s.h.epoch, s.h.closed, s.q.head[i], s.q.head[j]);
    }
  }

  lemma DrainCheckOrder(s: State)
    requires OrderInv(s)
    ensures OrderInv(DrainCheck(s))
  {
    hide InOrder, Colored, HeadWindow, DriverWindow, SortedWindow, Chronological, Accounting, Tracked, Blocking,
      NoDup, EndedOnce;
    DrainCheckKeeps(s);
    if DrainCheck(s) != s {
      DrainedIsQuiet(s);
      assert CompleteSeq(s, Bit(DRAIN), 0).1 ==> Inv(DrainCheck(s));
      CompleteSeqOrder(s, Bit(DRAIN), 0);
    }
  }

  /** No old request at the head, so none behind it either. */
  lemma HeadTellsDrained(s: State, k: nat)
    requires OrderInv(s) && s.q.ordseq != ZERO && k < |s.q.head| && FsIo(s.q.kind, s.q.head[k])
    requires ReqSeq(s.q, s.q.head[0]) > DRAIN
    ensures Epoch(s.h.epoch, s.q.head[k].id) != s.h.closed
  {
    hide DriverWindow, SortedWindow, Chronological, Tracked, NoDup, EndedOnce, Accounting, Draining, Sequencing,
      InOrder;
    assert s.q.head[0] in s.q.head && s.q.head[k] in s.q.head;
    if k > 0 { OrderedPair(s, 0, k); }
  }

  /** With nothing in flight and no old request at the head, the open epoch is finished. */
  lemma DrainedIsQuiet(s: State)
    requires OrderInv(s) && s.q.ordseq != ZERO && s.q.inFlight == 0
    requires s.q.head == [] || ReqSeq(s.q, s.q.head[0]) > DRAIN
    ensures QuietNow(s)
  {
    hide Inv, InOrder, Colored, HeadWindow, DriverWindow, SortedWindow, Chronological, Tracked, Blocking, Draining;
    NothingOut(s.q);
    forall k | 0 <= k < |s.q.head| && FsIo(s.q.kind, s.q.head[k])
      ensures Epoch(s.h.epoch, s.q.head[k].id) != s.h.closed
    {
      HeadTellsDrained(s, k);
    }
    hide ReqSeq, Base;
  }

  lemma InOrderInsert(head: seq<Rq>, i: nat, r: Rq, kind: Kinds, epoch: Epochs, closed: nat)
    requires i <= |head| && InOrder(head, kind, epoch, closed)
    requires forall k :: 0 <= k < i ==> Before(kind, epoch, closed, head[k], r)
    requires forall k :: i <= k < |head| ==> Before(kind, epoch, closed, r, head[k])
    ensures InOrder(InsertAt(head, i, r), kind, epoch, closed)
  {
    var t := InsertAt(head, i, r);
    forall a, b | 0 <= a < b < |t| ensures Before(kind, epoch, closed, t[a], t[b]) {
      var x := if a < i then a else a - 1;
      var y := if b < i then b else b - 1;
      assert a != i ==> t[a] == head[x];
      assert b != i ==> t[b] == head[y];
    }
  }

  lemma Tail(head: seq<Rq>, kind: Kinds, epoch: Epochs, closed: nat)
    requires head != [] && InOrder(head, kind, epoch, closed) && NoDup(head)
    ensures InOrder(head[1..], kind, epoch, closed) && NoDup(head[1..])
    ensures forall x :: x in head[1..] <==> x in head && x != head[0]
  {
    assert forall k :: 0 <= k < |head| - 1 ==> head[1..][k] == head[k + 1];
    assert head == [head[0]] + head[1..];
  }

  /** Behind the barrier at the head there are only requests of later epochs. */
  lemma RestIsLater(s: State)
    requires OrderInv(s) && s.q.ordseq == ZERO && s.q.head != [] && IsBarrier(K(s.q.kind, s.q.head[0]))
    ensures forall r :: r in s.q.head[1..] && FsIo(s.q.kind, r) ==> Epoch(s.h.epoch, r.id) > s.h.closed
  {
    hide DriverWindow, SortedWindow, Chronological, Accounting, Tracked, EndedOnce, Sequencing;
    HeadBarrierIsOldest(s);
    forall k | 0 < k < |s.q.head| && FsIo(s.q.kind, s.q.head[k])
      ensures Epoch(s.h.epoch, s.q.head[k].id) > s.h.closed
    {
      assert Before(s.q.kind, s.h.epoch, s.h.closed, s.q.head[0], s.q.head[k]);
    }
  }

  /** A barrier is not started, so taking it off the list leaves the count of requests in flight alone. */
  lemma StashIs(s: State)
    requires OrderInv(s) && s.q.ordseq == ZERO && s.q.head != [] && IsBarrier(K(s.q.kind, s.q.head[0]))
    ensures s.q.head[0].Io?
    ensures Stash(s).q == s.q.(head := s.q.head[1..], orderr := 0, ordseq := Bit(STARTED), orig := s.q.head[0].id,
                               ordered := EffectiveOrdered(s.q.nextOrdered, K(s.q.kind, s.q.head[0]).sectors))
    ensures Stash(s).h == s.h.(queued := {}, finished := {}, errors := [])
  {
    hide InOrder, Colored, DriverWindow, SortedWindow, Chronological, Accounting, Tracked, Blocking, Inv, Draining;
    HeadBarrierIsOldest(s);
    assert s.q.head[0] in s.q.head && s.q.head[0] !in s.q.started;
    hide Base;
  }

  lemma StashBlocking(s: State)
    requires OrderInv(s) && s.q.ordseq == ZERO && s.q.head != [] && IsBarrier(K(s.q.kind, s.q.head[0]))
    ensures s.q.head[0].Io?
    ensures Blocking(s.q.head[1..], s.h.barriers, s.h.closed, true, s.q.head[0].id, s.h.done)
    ensures Tracked(Stash(s))
  {
    hide InOrder, HeadWindow, DriverWindow, SortedWindow, Chronological, Accounting, NoDup, Draining;
    HeadBarrierIsOldest(s);
    assert forall e :: 0 <= e < |s.h.barriers| && e != s.h.closed ==> s.h.barriers[e] != s.q.head[0].id;
    hide Colored;
    Tail(s.q.head, s.q.kind, s.h.epoch, s.h.closed);
    StashIs(s);
    hide Stash, Inv;
  }

  /** Stashing the barrier at the head leaves only later requests in the list. */
  lemma StashOrder(s: State)
    requires OrderInv(s) && s.q.ordseq == ZERO && s.q.head != [] && IsBarrier(K(s.q.kind, s.q.head[0]))
    ensures Base(Stash(s)) && NoProxyOut(Stash(s).q)
    ensures var s0 := Stash(s);
            && s0.q.ordered.byDrain && !s0.q.ordered.byTag
            && (forall r :: r in s0.q.head && FsIo(s0.q.kind, r) ==> Epoch(s0.h.epoch, r.id) > s0.h.closed)
            && (s0.q.inFlight == 0 ==> QuietNow(s0))
  {
    hide InOrder, SortedWindow, Chronological, NoDup, Colored, Accounting, Blocking, Tracked, Draining, Stash,
      Pending, EndedOnce;
    RestIsLater(s);
    StashIs(s);
    StashBlocking(s);
    Tail(s.q.head, s.q.kind, s.h.epoch, s.h.closed);
    assert NoProxyOut(s.q);
    if s.q.inFlight == 0 { NothingOut(s.q); }
    hide Inv, Sequencing;
  }

  lemma NothingOut(q: Queue)
    requires Accounting(q.driver, q.kind, q.started, q.inFlight) && q.inFlight == 0
    ensures forall r :: r in q.driver ==> !K(q.kind, r).fs
  {
    assert Outstanding(q.driver, q.kind, q.started) == {};
    assert forall r :: r in q.driver ==> r !in Outstanding(q.driver, q.kind, q.started);
  }

  /** Between sequences, the barrier at the head closes the oldest open epoch. */
  lemma HeadBarrierIsOldest(s: State)
    requires OrderInv(s) && s.q.ordseq == ZERO && s.q.head != [] && IsBarrier(K(s.q.kind, s.q.head[0]))
    ensures s.q.head[0].Io? && Epoch(s.h.epoch, s.q.head[0].id) == s.h.closed < |s.h.barriers|
    ensures s.h.barriers[s.h.closed] == s.q.head[0].id
  {
    HeadIsOldest(s, s.q.head[0]);
  }

  /** No file system request overtakes an open barrier to the head of the list. */
  lemma HeadIsOldest(s: State, r: Rq)
    requires OrderInv(s) && s.q.head != [] && r == s.q.head[0] && FsIo(s.q.kind, r)
    ensures s.q.ordseq == ZERO ==> Epoch(s.h.epoch, r.id) == s.h.closed
    ensures s.q.ordseq != ZERO ==> s.h.closed <= Epoch(s.h.epoch, r.id) <= s.h.closed + 1
  {
    var e := if s.q.ordseq == ZERO then s.h.closed else s.h.closed + 1;
    if e < |s.h.barriers| {
      assert Io(s.h.barriers[e]) in s.q.head;
      var k :| 0 <= k < |s.q.head| && s.q.head[k] == Io(s.h.barriers[e]);
      assert k > 0 ==> Before(s.q.kind, s.h.epoch, s.h.closed, r, s.q.head[k]);
    }
  }

  /** Everything in the list comes after r. */
  ghost predicate AllAfter(s: State, r: Rq) {
    forall x :: x in s.q.head ==> Before(s.q.kind, s.h.epoch, s.h.closed, r, x)
  }

  lemma QueueIfOrder(s: State, r: Rq)
    requires IsProxy(r) && !Held(s.q, r) && Placed(s.q) && Pending(s)
    requires Base(s) && NoProxyOut(s.q) && AllAfter(s, r)
    ensures Base(QueueIf(s, r)) && NoProxyOut(QueueIf(s, r).q)
    ensures QuietNow(s) ==> QuietNow(QueueIf(s, r))
  {
    hide Colored, SortedWindow, Chronological, NoDup, InOrder;
    QueueIfKeeps(s, r);
    var s1 := QueueIf(s, r);
    if Asks(s.q.ordered, r) {
      InOrderInsert(s.q.head, 0, r, s.q.kind, s.h.epoch, s.h.closed);
      assert s1.q.head == InsertAt(s.q.head, 0, r);
      assert Outstanding(s1.q.driver, s1.q.kind, s1.q.started) == Outstanding(s.q.driver, s.q.kind, s.q.started);
    }
  }

  /** The list holds no proxy and only later epochs. */
  lemma LaterThanProxies(s: State)
    requires forall r :: IsProxy(r) ==> !Held(s.q, r)
    requires forall r :: r in s.q.head && FsIo(s.q.kind, r) ==> Epoch(s.h.epoch, r.id) > s.h.closed
    ensures AllAfter(s, PostFlush)
  {
    forall x | x in s.q.head
      ensures Before(s.q.kind, s.h.epoch, s.h.closed, PostFlush, x)
    {
      assert Held(s.q, x);
    }
  }

  /** The post-flush and the barrier proxy go to the head. */
  lemma QueueTwoOrder(s: State)
    requires Placed(s.q) && Pending(s) && (forall r :: IsProxy(r) ==> !Held(s.q, r))
    requires Base(s) && NoProxyOut(s.q)
    requires forall r :: r in s.q.head && FsIo(s.q.kind, r) ==> Epoch(s.h.epoch, r.id) > s.h.closed
    ensures var a := QueueIf(QueueIf(s, PostFlush), Bar);
            && Placed(a.q) && Pending(a) && !Held(a.q, PreFlush) && Base(a) && NoProxyOut(a.q) && AllAfter(a, PreFlush)
            && (QuietNow(s) ==> QuietNow(a))
            && a.q.ordered == s.q.ordered && a.q.ordseq == s.q.ordseq && a.q.inFlight == s.q.inFlight
            && Returned(a.q.head, a.q.kind, a.q.soft, a.h.epoch, a.h.closed)
  {
    hide InOrder, Colored, HeadWindow, DriverWindow, SortedWindow, Chronological, Accounting, Tracked, Blocking,
      NoDup, Quiet;
    LaterThanProxies(s);
    QueueIfOrder(s, PostFlush);
    QueueIfKeeps(s, PostFlush);
    var a := QueueIf(s, PostFlush);
    QueueIfOrder(a, Bar);
    QueueIfKeeps(a, Bar);
  }

  lemma QueueProxiesOrder(s: State)
    requires Placed(s.q) && Pending(s) && (forall r :: IsProxy(r) ==> !Held(s.q, r))
    requires Base(s) && NoProxyOut(s.q)
    requires forall r :: r in s.q.head && FsIo(s.q.kind, r) ==> Epoch(s.h.epoch, r.id) > s.h.closed
    ensures var s1 := QueueProxies(s);
            && Base(s1) && NoProxyOut(s1.q) && (QuietNow(s) ==> QuietNow(s1))
            && s1.q.ordered == s.q.ordered && s1.q.ordseq == s.q.ordseq && s1.q.inFlight == s.q.inFlight
            && Returned(s1.q.head, s1.q.kind, s1.q.soft, s1.h.epoch, s1.h.closed)
  {
    hide Base, Placed, Pending, AllAfter, Quiet, NoProxyOut;
    QueueTwoOrder(s);
    QueueIfOrder(QueueIf(QueueIf(s, PostFlush), Bar), PreFlush);
  }

  lemma StashedOrder(s: State)
    requires OrderInv(s) && s.q.ordseq == ZERO && s.q.head != [] && IsBarrier(K(s.q.kind, s.q.head[0]))
    ensures var s1 := QueueProxies(Stash(s));
            && Base(s1) && NoProxyOut(s1.q)
            && s1.q.ordered.byDrain && !s1.q.ordered.byTag && s1.q.ordseq == Bit(STARTED)
            && (s1.q.inFlight == 0 ==> QuietNow(s1))
            && Returned(s1.q.head, s1.q.kind, s1.q.soft, s1.h.epoch, s1.h.closed)
  {
    hide InOrder, Colored, HeadWindow, DriverWindow, SortedWindow, Chronological, Accounting, Tracked, Blocking,
      NoDup, EndedOnce, Quiet;
    HeadBarrierIsOldest(s);
    StashOrder(s);
    StashKeeps(s);
    QueueProxiesOrder(Stash(s));
  }

  lemma StartOrderedOrder(s: State)
    requires OrderInv(s) && s.q.ordseq == ZERO && s.q.head != [] && IsBarrier(K(s.q.kind, s.q.head[0]))
    ensures var v := StartOrdered(s);
            && OrderInv(v.s)
            && (v.rq.Some? ==> v.s.q.head != [] && v.s.q.head[0] == v.rq.value
                               && v.s.q.ordseq != ZERO && IsProxy(v.rq.value) && CurSeq(v.s.q) == PhaseOf(v.rq.value))
  {
    hide InOrder, Colored, HeadWindow, DriverWindow, SortedWindow, Chronological, Accounting, Tracked, Blocking,
      Quiet, Returned,
      Placed, Pending, EndedOnce, Consistent, QueueProxies, Stash;
    HeadBarrierIsOldest(s);
    StartOrderedKeeps(s);
    StashedOrder(s);
    var s1 := QueueProxies(Stash(s));
    CompleteSeqOrder(s1, Skip(s1.q), 0);
  }

  /** What may be handed to the driver. */
  ghost predicate Eligible(s: State, r: Rq) {
    && (FsIo(s.q.kind, r) ==> Epoch(s.h.epoch, r.id) == s.h.closed && !K(s.q.kind, r).hard)
    && (IsProxy(r) ==> s.q.ordseq != ZERO && CurSeq(s.q) == PhaseOf(r))
  }

  /** No sequence is started: the head may go if it is of the oldest open epoch or of the current phase. */
  lemma HeadEligible(s: State)
    requires OrderInv(s) && s.q.head != [] && !(s.q.ordseq == ZERO && IsBarrier(K(s.q.kind, s.q.head[0])))
    ensures var v := DoOrdered(s);
            v.s == s && (v.rq.Some? ==> v.rq.value == s.q.head[0] && Eligible(s, v.rq.value))
  {
    hide InOrder, HeadWindow, DriverWindow, SortedWindow, Chronological, Accounting, Tracked, NoDup, EndedOnce,
      Returned, Quiet;
    var r := s.q.head[0];
    if FsIo(s.q.kind, r) { HeadIsOldest(s, r); }
    if IsProxy(r) { HeadProxyIsOpen(s, r); }
  }

  /** blk_do_ordered lets only the oldest open epoch and the current phase through. */
  lemma DoOrderedOrder(s: State)
    requires OrderInv(s) && s.q.head != []
    ensures var v := DoOrdered(s);
            && OrderInv(v.s)
            && (v.rq.Some? ==> v.s.q.head != [] && v.s.q.head[0] == v.rq.value && Eligible(v.s, v.rq.value))
  {
    if s.q.ordseq == ZERO && IsBarrier(K(s.q.kind, s.q.head[0])) {
      assert s.q.nextOrdered != ORDERED_NONE;
      StartOrderedOrder(s);
      hide OrderInv, StartOrdered;
    } else {
      HeadEligible(s);
      hide OrderInv, DoOrdered, Eligible;
    }
  }

  lemma HeadProxyIsOpen(s: State, r: Rq)
    requires Sequencing(s) && IsProxy(r) && r in s.q.head
    ensures s.q.ordseq != ZERO && CurSeq(s.q) <= PhaseOf(r)
  {
    assert Held(s.q, r);
  }

  lemma StartOrder(s: State, r: Rq)
    requires OrderInv(s) && s.q.head != [] && s.q.head[0] == r && Eligible(s, r)
    ensures OrderInv(s.(q := Start(s.q, r)))
  {
    StartKeeps(s, r);
    assert Outstanding(s.q.driver, s.q.kind, s.q.started + {r}) == Outstanding(s.q.driver, s.q.kind, s.q.started);
  }

  lemma AccountingAdd(driver: set<Rq>, kind: Kinds, started: set<Rq>, inFlight: int, r: Rq)
    requires Accounting(driver, kind, started, inFlight) && r !in driver && r in started
    ensures Accounting(driver + {r}, kind, started, if Accounted(kind, started, r) then inFlight + 1 else inFlight)
  {
    var out := Outstanding(driver, kind, started);
    assert Outstanding(driver + {r}, kind, started) == if Accounted(kind, started, r) then out + {r} else out;
  }

  lemma BlockingTail(s: State)
    requires Base(s) && NoDup(s.q.head) && s.q.head != []
    requires s.q.head[0].Io? ==> s.q.head[0].id in s.h.epoch && !K(s.q.kind, s.q.head[0]).hard
    ensures Blocking(s.q.head[1..], s.h.barriers, s.h.closed, s.q.ordseq != ZERO, s.q.orig, s.h.done)
  {
    hide InOrder, HeadWindow, DriverWindow, SortedWindow, Chronological, Accounting, Tracked;
    Tail(s.q.head, s.q.kind, s.h.epoch, s.h.closed);
    assert forall e :: 0 <= e < |s.h.barriers| ==> s.q.head[0] != Io(s.h.barriers[e]);
  }

  lemma TakeHeadOrder(s: State)
    requires OrderInv(s) && s.q.head != [] && s.q.head[0] in s.q.started && Eligible(s, s.q.head[0])
    ensures OrderInv(s.(q := TakeHead(s.q)))
  {
    hide InOrder, Colored, SortedWindow, Chronological, NoDup, EndedOnce, Accounting, Blocking;
    TakeHeadKeeps(s);
    Tail(s.q.head, s.q.kind, s.h.epoch, s.h.closed);
    assert s.q.head[0].Io? ==> s.q.head[0].id in s.h.epoch && !K(s.q.kind, s.q.head[0]).hard by {
      BarrierIsFs(s, s.q.head[0]);
    }
    BlockingTail(s);
    AccountingAdd(s.q.driver, s.q.kind, s.q.started, s.q.inFlight, s.q.head[0]);
    hide Inv;
  }

  lemma BarrierIsFs(s: State, r: Rq)
    requires Base(s) && Pending(s) && r in s.q.head
    ensures r.Io? ==> r.id in s.h.epoch && (K(s.q.kind, r).hard ==> K(s.q.kind, r).fs)
  {
    hide InOrder, HeadWindow, DriverWindow, SortedWindow, Chronological, Accounting, Tracked, Blocking;
  }

  lemma FetchOrder(s: State)
    requires OrderInv(s) && s.q.head != []
    ensures OrderInv(Fetch(s))
  {
    DoOrderedOrder(s);
    var v := DoOrdered(s);
    if v.ret && v.rq.Some? && v.s.q.head != [] {
      StartOrder(v.s, v.rq.value);
      TakeHeadOrder(v.s.(q := Start(v.s.q, v.rq.value)));
    }
  }

  lemma PeekOrder(s: State)
    requires OrderInv(s) && s.q.head != []
    ensures OrderInv(Peek(s))
  {
    DoOrderedOrder(s);
    var v := DoOrdered(s);
    if v.ret && v.rq.Some? { StartOrder(v.s, v.rq.value); }
  }

  /** The driver lets go of a request. */
  lemma DropOrder(q: Queue, r: Rq)
    requires r in q.driver && Accounting(q.driver, q.kind, q.started, q.inFlight)
    ensures Accounting(q.driver - {r}, q.kind, q.started, DropInFlight(q, r).inFlight)
    ensures Accounting(q.driver - {r}, q.kind, q.started - {r}, DropInFlight(q, r).inFlight)
  {
    var out := Outstanding(q.driver, q.kind, q.started);
    assert Outstanding(q.driver - {r}, q.kind, q.started) == out - {r};
    assert Outstanding(q.driver - {r}, q.kind, q.started - {r}) == out - {r};
  }

  lemma ReleasedOrder(s: State, id: nat, error: int)
    requires OrderInv(s) && Io(id) in s.q.driver
    ensures OrderInv(Released(s, id, error))
  {
    hide InOrder, Colored, HeadWindow, SortedWindow, Chronological, Accounting, NoDup, Inv, Returned;
    ReleasedKeeps(s, id, error);
    DropOrder(s.q, Io(id));
    hide Accounted;
  }

  lemma CompleteIoOrder(s: State, id: nat, error: int)
    requires OrderInv(s) && Io(id) in s.q.driver
    ensures OrderInv(Complete(s, Io(id), error))
  {
    ReleasedOrder(s, id, error);
    DrainCheckOrder(Released(s, id, error));
    hide OrderInv, DrainCheck;
  }

  /** The driver lets a proxy go; its phase is still to be completed. */
  function Finished(s: State, r: Rq): (s': State) {
    State(DropInFlight(s.q.(driver := s.q.driver - {r}), r), s.h.(finished := s.h.finished + {r}))
  }

  lemma FinishedOrder(s: State, r: Rq)
    requires OrderInv(s) && r in s.q.driver && IsProxy(r)
    ensures var s1 := Finished(s, r);
            && Base(s1) && Draining(s1) && NoProxyOut(s1.q)
            && s1.q.ordseq == s.q.ordseq != ZERO && s1.q.ordseq.drain && DrainCheck(s1) == s1
  {
    hide InOrder, Colored, HeadWindow, SortedWindow, Chronological, Accounting, Placed, Pending, EndedOnce, Blocking,
      Returned,
      Consistent;
    assert Held(s.q, r);
    DropOrder(s.q, r);
    hide Accounted;
  }

  lemma CompleteProxyOrder(s: State, r: Rq, error: int)
    requires OrderInv(s) && r in s.q.driver && IsProxy(r)
    ensures OrderInv(Complete(s, r, error))
  {
    hide Base, Placed, Pending, EndedOnce, Consistent, Returned, Quiet, DropInFlight;
    var s1 := Finished(s, r);
    FinishedOrder(s, r);
    CompleteProxyKeeps(s, r, error);
    assert Complete(s, r, error) == CompleteSeq(s1, Bit(PhaseOf(r)), error).0;
    CompleteSeqOrder(s1, Bit(PhaseOf(r)), error);
  }

  /** elv_insert(REQUEUE) finds the place the order asks for. */
  lemma RequeueOrder(s: State, r: Rq)
    requires OrderInv(s) && r in s.q.driver
    ensures OrderInv(Requeue(s, r))
  {
    hide Colored, SortedWindow, Chronological, NoDup, InOrder, EndedOnce, Accounting, Sequencing, HeadWindow,
      Blocking, Draining;
    RequeueKeeps(s, r);
    DropOrder(s.q, r);
    var i := RequeueAt(Unhook(s.q, r), r);
    RequeuePlace(s, r);
    InsertAtContents(s.q.head, i, r);
    InOrderInsert(s.q.head, i, r, s.q.kind, s.h.epoch, s.h.closed);
    RequeueWindow(s, r, InsertAt(s.q.head, i, r));
    assert Draining(Requeue(s, r)) by { RequeueDraining(s, r, i); }
    hide Inv;
  }

  lemma RequeueDraining(s: State, r: Rq, i: nat)
    requires OrderInv(s) && r in s.q.driver && i == RequeueAt(Unhook(s.q, r), r)
    ensures Draining(Requeue(s, r))
  {
    hide Colored, SortedWindow, Chronological, NoDup, InOrder, EndedOnce, Accounting, Sequencing, HeadWindow,
      Blocking, Quiet, Returned;
    InsertAtContents(s.q.head, i, r);
    RequeueWindow(s, r, InsertAt(s.q.head, i, r));
  }

  lemma RequeueWindow(s: State, r: Rq, head: seq<Rq>)
    requires OrderInv(s) && r in s.q.driver && forall x :: x in head <==> x in s.q.head || x == r
    ensures HeadWindow(head, s.q.kind, s.q.started - {r}, s.h.epoch, s.h.closed)
    ensures Blocking(head, s.h.barriers, s.h.closed, s.q.ordseq != ZERO, s.q.orig, s.h.done)
    ensures s.q.ordseq != ZERO ==> Returned(head, s.q.kind, s.q.soft + {r}, s.h.epoch, s.h.closed)
    ensures s.q.ordseq != ZERO && s.q.ordseq.drain ==>
              Quiet(head, s.q.driver - {r}, s.q.kind, s.h.epoch, s.h.closed)
  {
    hide Inv, Colored, SortedWindow, Chronological, InOrder, Accounting;
  }

  lemma RequeuePlace(s: State, r: Rq)
    requires OrderInv(s) && r in s.q.driver
    ensures var i := RequeueAt(Unhook(s.q, r), r);
            && (forall k :: 0 <= k < i ==> Before(s.q.kind, s.h.epoch, s.h.closed, s.q.head[k], r))
            && (forall k :: i <= k < |s.q.head| ==> Before(s.q.kind, s.h.epoch, s.h.closed, r, s.q.head[k]))
  {
    hide InOrder, Colored, HeadWindow, DriverWindow, SortedWindow, Chronological, Tracked, NoDup, EndedOnce,
      Accounting, Blocking, Sequencing;
    var i := RequeueAt(Unhook(s.q, r), r);
    if s.q.ordseq != ZERO {
      assert forall x :: ReqSeq(Unhook(s.q, r), x) == ReqSeq(s.q, x);
    }
    forall k | i <= k < |s.q.head| ensures Before(s.q.kind, s.h.epoch, s.h.closed, r, s.q.head[k]) {
      RequeueBefore(s, r, i, k);
    }
    forall k | 0 <= k < i ensures Before(s.q.kind, s.h.epoch, s.h.closed, s.q.head[k], r) {
      RequeueAfter(s, r, i, k);
    }
  }

  /** Everything from the chosen place on comes after the requeued request. */
  lemma RequeueBefore(s: State, r: Rq, i: nat, k: nat)
    requires OrderInv(s) && r in s.q.driver && i <= k < |s.q.head|
    requires s.q.ordseq != ZERO ==> ReqSeq(s.q, r) <= ReqSeq(s.q, s.q.head[i])
    ensures Before(s.q.kind, s.h.epoch, s.h.closed, r, s.q.head[k])
  {
    hide SortedWindow, Chronological, Tracked, NoDup, EndedOnce, Accounting, InOrder;
    assert s.q.head[k] in s.q.head && s.q.head[i] in s.q.head;
    if i < k { OrderedPair(s, i, k); }
  }

  /** Everything passed over comes before the requeued request. */
  lemma RequeueAfter(s: State, r: Rq, i: nat, k: nat)
    requires OrderInv(s) && r in s.q.driver && k < i <= |s.q.head| && s.q.ordseq != ZERO
    requires forall j :: 0 <= j < i ==> ReqSeq(s.q, s.q.head[j]) < ReqSeq(s.q, r)
    ensures Before(s.q.kind, s.h.epoch, s.h.closed, s.q.head[k], r)
  {
    hide SortedWindow, Chronological, Tracked, NoDup, EndedOnce, Accounting, InOrder;
    assert s.q.head[k] in s.q.head;
    if FsIo(s.q.kind, s.q.head[k]) { SecondBarrierBlocks(s, k); }
  }

  lemma OrderedPair(s: State, i: nat, j: nat)
    requires InOrder(s.q.head, s.q.kind, s.h.epoch, s.h.closed) && i < j < |s.q.head|
    ensures Before(s.q.kind, s.h.epoch, s.h.closed, s.q.head[i], s.q.head[j])
  {
  }

  /**
   A request with the colour of the running barrier is an old one, unless the next
   barrier, which has the other colour, stands before it.
   */
  lemma SecondBarrierBlocks(s: State, k: nat)
    requires OrderInv(s) && s.q.ordseq != ZERO && k < |s.q.head| && FsIo(s.q.kind, s.q.head[k])
    requires ReqSeq(s.q, s.q.head[k]) == DRAIN
    ensures Epoch(s.h.epoch, s.q.head[k].id) == s.h.closed
            || exists j :: 0 <= j < k && ReqSeq(s.q, s.q.head[j]) == DONE
  {
    hide InOrder, DriverWindow, SortedWindow, Chronological, Accounting, Tracked, NoDup, EndedOnce, Sequencing,
      Draining, Quiet,
      Returned;
    assert s.q.head[k] in s.q.head;
    if Epoch(s.h.epoch, s.q.head[k].id) != s.h.closed {
      SameColorIsLater(s, k);
      var j := NextBarrierAt(s);
      if k < j { OrderedPair(s, k, j); }
    }
  }

  /** With the colour of the running barrier but not of its epoch: two epochs on, at least. */
  lemma SameColorIsLater(s: State, k: nat)
    requires OrderInv(s) && s.q.ordseq != ZERO && k < |s.q.head| && FsIo(s.q.kind, s.q.head[k])
    requires ReqSeq(s.q, s.q.head[k]) == DRAIN && Epoch(s.h.epoch, s.q.head[k].id) != s.h.closed
    ensures Epoch(s.h.epoch, s.q.head[k].id) >= s.h.closed + 2 && s.h.closed + 1 < |s.h.barriers|
  {
    hide InOrder, DriverWindow, SortedWindow, Chronological, Accounting, Tracked, NoDup, EndedOnce, Sequencing,
      Draining;
    assert s.q.head[k] in s.q.head;
  }

  /** The barrier after the running one is in the list, and has the other colour. */
  lemma NextBarrierAt(s: State) returns (j: nat)
    requires OrderInv(s) && s.q.ordseq != ZERO && s.h.closed + 1 < |s.h.barriers|
    ensures j < |s.q.head| && s.q.head[j] == Io(s.h.barriers[s.h.closed + 1]) && FsIo(s.q.kind, s.q.head[j])
    ensures s.q.head[j].id in s.h.epoch && s.h.epoch[s.q.head[j].id] == s.h.closed + 1
    ensures ReqSeq(s.q, s.q.head[j]) == DONE
  {
    hide InOrder, DriverWindow, SortedWindow, Chronological, Accounting, Tracked, NoDup, EndedOnce, Sequencing,
      Draining;
    var b := s.h.barriers[s.h.closed + 1];
    assert Io(b) in s.q.head && s.h.epoch[b] == s.h.closed + 1;
    j :| 0 <= j < |s.q.head| && s.q.head[j] == Io(b);
  }

  lemma InOrderAppend(head: seq<Rq>, r: Rq, kind: Kinds, epoch: Epochs, closed: nat)
    requires InOrder(head, kind, epoch, closed)
    requires forall x :: x in head ==> Before(kind, epoch, closed, x, r)
    ensures InOrder(head + [r], kind, epoch, closed)
  {
    assert head + [r] == InsertAt(head, |head|, r);
    InOrderInsert(head, |head|, r, kind, epoch, closed);
  }

  /** Naming a new request leaves the order of the list alone. */
  lemma InOrderFrame(head: seq<Rq>, kind: Kinds, epoch: Epochs, closed: nat, id: nat, k: Kind, e: nat)
    requires InOrder(head, kind, epoch, closed) && Io(id) !in head
    ensures InOrder(head, kind[Io(id) := k], epoch[id := e], closed)
  {
    var kind', epoch' := kind[Io(id) := k], epoch[id := e];
    forall i, j | 0 <= i < j < |head| ensures Before(kind', epoch', closed, head[i], head[j]) {
      assert Before(kind, epoch, closed, head[i], head[j]);
      assert head[i] != Io(id) && head[j] != Io(id);
    }
  }

  lemma ColoredInsert(kind: Kinds, ordcolor: bool, epoch: Epochs, barriers: seq<nat>, id: nat, k: Kind)
    requires Colored(kind, ordcolor, epoch, barriers) && id !in epoch && (k.hard ==> k.fs)
    ensures Colored(kind[Io(id) := k.(color := ordcolor)], if k.hard then !ordcolor else ordcolor,
                    epoch[id := |barriers|], if IsBarrier(k) then barriers + [id] else barriers)
  {
    var kind', epoch' := kind[Io(id) := k.(color := ordcolor)], epoch[id := |barriers|];
    var barriers' := if IsBarrier(k) then barriers + [id] else barriers;
    assert forall x :: x in epoch ==> K(kind', Io(x)) == K(kind, Io(x)) && epoch'[x] == epoch[x];
    assert forall e :: 0 <= e < |barriers| ==> barriers'[e] == barriers[e];
  }

  lemma ChronologicalInsert(inserted: seq<nat>, kind: Kinds, ordcolor: bool, epoch: Epochs, barriers: seq<nat>,
                            id: nat, k: Kind)
    requires Chronological(inserted, kind, epoch) && Colored(kind, ordcolor, epoch, barriers) && id !in epoch
    ensures Chronological(inserted + [id], kind[Io(id) := k], epoch[id := |barriers|])
  {
    var kind', epoch' := kind[Io(id) := k], epoch[id := |barriers|];
    assert forall x :: x in epoch ==> K(kind', Io(x)) == K(kind, Io(x)) && Epoch(epoch', x) == Epoch(epoch, x);
  }

  /** A request inserted at the back comes after everything in the list. */
  lemma BackIsLast(s: State, id: nat, k: Kind, x: Rq)
    requires Base(s) && Pending(s) && id !in s.h.epoch && x in s.q.head
    requires IsProxy(x) ==> s.q.ordseq != ZERO
    ensures Before(s.q.kind[Io(id) := k], s.h.epoch[id := |s.h.barriers|], s.h.closed, x, Io(id))
  {
    hide InOrder, HeadWindow, DriverWindow, SortedWindow, Chronological, Accounting, Tracked;
  }

  /** The list after an insertion. */
  lemma InsertInOrder(s: State, id: nat, k: Kind, soft: bool, w: Where)
    requires Pending(s) && Sequencing(s) && Base(s) && Enabled(s, EInsert(id, k, soft, w), true)
    ensures var s' := Insert(s, id, k, soft, w); InOrder(s'.q.head, s'.q.kind, s'.h.epoch, s'.h.closed)
  {
    hide Colored, HeadWindow, DriverWindow, SortedWindow, Chronological, Accounting, Tracked, Blocking;
    var s' := Insert(s, id, k, soft, w);
    var k' := k.(color := s.q.ordcolor);
    InOrderFrame(s.q.head, s.q.kind, s.h.epoch, s.h.closed, id, k', |s.h.barriers|);
    match Route(k, soft, w)
    case Sort =>
    case Front =>
      InOrderInsert(s.q.head, 0, Io(id), s'.q.kind, s'.h.epoch, s.h.closed);
      assert s'.q.head == InsertAt(s.q.head, 0, Io(id));
    case Back =>
      forall x | x in s.q.head ensures Before(s'.q.kind, s'.h.epoch, s.h.closed, x, Io(id)) {
        if IsProxy(x) { HeadProxyIsOpen(s, x); }
        BackIsLast(s, id, k', x);
      }
      InOrderAppend(s.q.head, Io(id), s'.q.kind, s'.h.epoch, s.h.closed);
  }

  lemma AccountingFrame(driver: set<Rq>, kind: Kinds, started: set<Rq>, inFlight: int, r: Rq, k: Kind)
    requires Accounting(driver, kind, started, inFlight) && r !in driver
    ensures Accounting(driver, kind[r := k], started - {r}, inFlight)
  {
    assert Outstanding(driver, kind[r := k], started - {r}) == Outstanding(driver, kind, started);
  }

  lemma HeadWindowInsert(head: seq<Rq>, head': seq<Rq>, kind: Kinds, started: set<Rq>, epoch: Epochs,
                         closed: nat, id: nat, k: Kind, e: nat)
    requires HeadWindow(head, kind, started, epoch, closed) && closed <= e
    requires forall x :: x in head' ==> x in head || x == Io(id)
    ensures HeadWindow(head', kind[Io(id) := k], started - {Io(id)}, epoch[id := e], closed)
  {
  }

  lemma DriverWindowInsert(driver: set<Rq>, kind: Kinds, epoch: Epochs, closed: nat, id: nat, k: Kind, e: nat)
    requires DriverWindow(driver, kind, epoch, closed) && Io(id) !in driver
    ensures DriverWindow(driver, kind[Io(id) := k], epoch[id := e], closed)
  {
  }

  lemma SortedWindowInsert(sorted: set<Rq>, kind: Kinds, epoch: Epochs, last: nat, id: nat, k: Kind)
    requires SortedWindow(sorted, kind, epoch, last) && Io(id) !in sorted
    ensures SortedWindow(sorted, kind[Io(id) := k], epoch[id := last], last)
    ensures !k.hard ==> SortedWindow(sorted + {Io(id)}, kind[Io(id) := k], epoch[id := last], last)
  {
  }

  lemma InsertWindows(s: State, id: nat, k: Kind, soft: bool, w: Where)
    requires Pending(s) && Base(s) && Enabled(s, EInsert(id, k, soft, w), true)
    ensures var s' := Insert(s, id, k, soft, w);
            && HeadWindow(s'.q.head, s'.q.kind, s'.q.started, s'.h.epoch, s'.h.closed)
            && DriverWindow(s'.q.driver, s'.q.kind, s'.h.epoch, s'.h.closed)
            && SortedWindow(s'.q.sorted, s'.q.kind, s'.h.epoch, |s'.h.barriers|)
            && Accounting(s'.q.driver, s'.q.kind, s'.q.started, s'.q.inFlight)
  {
    hide InOrder, Colored, Chronological, Tracked, NoDup, Accounting, HeadWindow, DriverWindow;
    var s' := Insert(s, id, k, soft, w);
    var k' := k.(color := s.q.ordcolor);
    var n := |s.h.barriers|;
    AccountingFrame(s.q.driver, s.q.kind, s.q.started, s.q.inFlight, Io(id), k');
    HeadWindowInsert(s.q.head, s'.q.head, s.q.kind, s.q.started, s.h.epoch, s.h.closed, id, k', n);
    DriverWindowInsert(s.q.driver, s.q.kind, s.h.epoch, s.h.closed, id, k', n);
    SortedWindowInsert(s.q.sorted, s.q.kind, s.h.epoch, n, id, k');
  }

  lemma InsertBlocking(s: State, id: nat, k: Kind, soft: bool, w: Where)
    requires Base(s) && Enabled(s, EInsert(id, k, soft, w), true)
    ensures var s' := Insert(s, id, k, soft, w);
            Blocking(s'.q.head, s'.h.barriers, s'.h.closed, s'.q.ordseq != ZERO, s'.q.orig, s'.h.done)
  {
    hide InOrder, Colored, Chronological, HeadWindow, DriverWindow, SortedWindow, Accounting, Tracked;
    assert forall x :: x in s.q.head ==> x in Insert(s, id, k, soft, w).q.head;
  }

  /** The new request is in no open barrier's way: its epoch is the newest. */
  lemma InsertReturned(head: seq<Rq>, head': seq<Rq>, kind: Kinds, soft: set<Rq>, soft': set<Rq>,
                       epoch: Epochs, closed: nat,
                       id: nat, k: Kind, e: nat)
    requires e > closed && (forall x :: x in head' ==> x in head || x == Io(id))
    requires Io(id) !in head && forall x :: x in soft && x != Io(id) ==> x in soft'
    ensures Returned(head, kind, soft, epoch, closed) ==>
        Returned(head', kind[Io(id) := k], soft', epoch[id := e], closed)
  {
  }

  lemma InsertQuiet(head: seq<Rq>, head': seq<Rq>, driver: set<Rq>, kind: Kinds, epoch: Epochs, closed: nat,
                    id: nat, k: Kind, e: nat)
    requires e > closed && (forall x :: x in head' ==> x in head || x == Io(id))
    requires Io(id) !in head && Io(id) !in driver
    ensures Quiet(head, driver, kind, epoch, closed) ==> Quiet(head', driver, kind[Io(id) := k], epoch[id := e], closed)
  {
  }

  lemma InsertDraining(s: State, id: nat, k: Kind, soft: bool, w: Where)
    requires Pending(s) && Base(s) && Draining(s) && Enabled(s, EInsert(id, k, soft, w), true)
    ensures Draining(Insert(s, id, k, soft, w))
  {
    hide InOrder, Colored, Chronological, HeadWindow, DriverWindow, SortedWindow, Accounting, Tracked, Returned, Quiet;
    var s' := Insert(s, id, k, soft, w);
    if s.q.ordseq != ZERO {
      assert forall x :: x in s'.q.head ==> x in s.q.head || x == Io(id);
      assert Io(id) !in s.q.head && Io(id) !in s.q.driver;
      InsertReturned(s.q.head, s'.q.head, s.q.kind, s.q.soft, s'.q.soft, s.h.epoch, s.h.closed, id,
                     k.(color := s.q.ordcolor), |s.h.barriers|);
      InsertQuiet(s.q.head, s'.q.head, s.q.driver, s.q.kind, s.h.epoch, s.h.closed,
                  id, k.(color := s.q.ordcolor), |s.h.barriers|);
    }
  }

  lemma InsertTracked(s: State, id: nat, k: Kind, soft: bool, w: Where)
    requires Tracked(s)
    ensures Tracked(Insert(s, id, k, soft, w))
  {
    var s' := Insert(s, id, k, soft, w);
    assert forall x :: x in s.q.head ==> x in s'.q.head;
  }

  lemma InsertBase(s: State, id: nat, k: Kind, soft: bool, w: Where)
    requires Placed(s.q) && Pending(s) && Sequencing(s) && Base(s) && Draining(s)
    requires Enabled(s, EInsert(id, k, soft, w), true)
    ensures Base(Insert(s, id, k, soft, w))
  {
    hide InOrder, Colored, HeadWindow, DriverWindow, SortedWindow, Chronological, Accounting, Tracked, Blocking,
      Draining,
      Placed, Pending, Sequencing;
    InsertInOrder(s, id, k, soft, w);
    ColoredInsert(s.q.kind, s.q.ordcolor, s.h.epoch, s.h.barriers, id, k);
    ChronologicalInsert(s.h.inserted, s.q.kind, s.q.ordcolor, s.h.epoch, s.h.barriers, id, k.(color := s.q.ordcolor));
    InsertWindows(s, id, k, soft, w);
    InsertBlocking(s, id, k, soft, w);
    InsertTracked(s, id, k, soft, w);
  }

  lemma InsertOrder(s: State, id: nat, k: Kind, soft: bool, w: Where)
    requires OrderInv(s) && Enabled(s, EInsert(id, k, soft, w), true)
    ensures OrderInv(Insert(s, id, k, soft, w))
  {
    hide InOrder, Colored, HeadWindow, DriverWindow, SortedWindow, Chronological, Accounting, Tracked, Blocking;
    assert Placed(s.q) && Pending(s) && Sequencing(s);
    InsertKeeps(s, id, k, soft, w);
    InsertBase(s, id, k, soft, w);
    InsertDraining(s, id, k, soft, w);
    hide Inv, Base, Draining, Insert;
  }

  /** elv_dispatch_sort never passes a barrier or a started request. */
  lemma DispatchOrder(s: State, r: Rq, at: nat)
    requires OrderInv(s) && Enabled(s, EDispatch(r, at), true)
    ensures OrderInv(Dispatch(s, r, at))
  {
    DispatchKeeps(s, r, at);
    DispatchPlace(s, r, at);
    DispatchBase(s, r, at);
    DispatchDraining(s, r, at);
    hide Inv, Base, Draining, Before;
  }

  lemma DispatchBase(s: State, r: Rq, at: nat)
    requires Placed(s.q) && Base(s) && Enabled(s, EDispatch(r, at), true)
    requires forall k :: 0 <= k < at ==> Before(s.q.kind, s.h.epoch, s.h.closed, s.q.head[k], r)
    requires forall k :: at <= k < |s.q.head| ==> Before(s.q.kind, s.h.epoch, s.h.closed, r, s.q.head[k])
    ensures Base(Dispatch(s, r, at))
  {
    hide Before, Colored, Chronological, Accounting, DriverWindow;
    InsertAtContents(s.q.head, at, r);
    InOrderInsert(s.q.head, at, r, s.q.kind, s.h.epoch, s.h.closed);
    hide InOrder, InsertAt;
  }

  lemma DispatchDraining(s: State, r: Rq, at: nat)
    requires Placed(s.q) && Base(s) && Draining(s) && Enabled(s, EDispatch(r, at), true)
    ensures Draining(Dispatch(s, r, at))
  {
    hide InOrder, Colored, Chronological, Accounting, HeadWindow, DriverWindow, Tracked;
    InsertAtContents(s.q.head, at, r);
    hide InsertAt;
  }

  lemma DispatchPlace(s: State, r: Rq, at: nat)
    requires Placed(s.q) && Pending(s) && Sequencing(s) && Base(s) && Draining(s) && Enabled(s, EDispatch(r, at), true)
    ensures forall k :: 0 <= k < at ==> Before(s.q.kind, s.h.epoch, s.h.closed, s.q.head[k], r)
    ensures forall k :: at <= k < |s.q.head| ==> Before(s.q.kind, s.h.epoch, s.h.closed, r, s.q.head[k])
  {
    forall k | 0 <= k < at ensures Before(s.q.kind, s.h.epoch, s.h.closed, s.q.head[k], r) {
      if IsProxy(s.q.head[k]) { HeadProxyIsOpen(s, s.q.head[k]); }
    }
    forall k | at <= k < |s.q.head| ensures Before(s.q.kind, s.h.epoch, s.h.closed, r, s.q.head[k]) {
      var x := s.q.head[k];
      assert x in s.q.head && !Stops(s.q, x);
      if FsIo(s.q.kind, x) {
        NothingOldAfter(s, at, k);
      }
    }
  }

  /** What elv_dispatch_sort may pass belongs to the newest epoch. */
  lemma NothingOldAfter(s: State, at: nat, k: nat)
    requires Pending(s) && Base(s) && Draining(s) && at <= k < |s.q.head| && FsIo(s.q.kind, s.q.head[k])
    requires forall i :: at <= i < |s.q.head| ==> !Stops(s.q, s.q.head[i])
    ensures Epoch(s.h.epoch, s.q.head[k].id) == |s.h.barriers|
  {
    hide InOrder, DriverWindow, SortedWindow, Chronological, Accounting, Tracked, Quiet;
    var x := s.q.head[k];
    assert x in s.q.head && x !in s.q.soft;
    forall j | 0 <= j < |s.q.head| && FsIo(s.q.kind, s.q.head[j]) && K(s.q.kind, s.q.head[j]).hard
      ensures Epoch(s.h.epoch, s.q.head[j].id) < Epoch(s.h.epoch, x.id)
    {
      assert !(at <= j);
      OrderedPair(s, j, k);
    }
  }

  lemma AbsorbedOrder(s: State, id: nat)
    requires OrderInv(s) && Io(id) in s.q.sorted
    ensures OrderInv(Absorbed(s, id))
  {
    hide InOrder, Colored, HeadWindow, DriverWindow, Chronological, Accounting, NoDup, Inv, Returned;
    AbsorbedKeeps(s, id);
  }

  lemma MergeOrder(s: State, id: nat)
    requires OrderInv(s) && Io(id) in s.q.sorted
    ensures OrderInv(MergedAway(s, id))
  {
    AbsorbedOrder(s, id);
    DrainCheckOrder(Absorbed(s, id));
    hide OrderInv, DrainCheck;
  }

  lemma PartialBarOrder(s: State, error: int)
    requires OrderInv(s) && Bar in s.q.driver
    ensures OrderInv(PartialBar(s, error))
  {
    hide InOrder, Colored, HeadWindow, DriverWindow, SortedWindow, Chronological, Accounting, NoDup;
    PartialBarKeeps(s, error);
    hide Inv;
  }

  lemma StepOrder(s: State, e: Event)
    requires OrderInv(s) && Enabled(s, e, true)
    ensures OrderInv(Step(s, e))
  {
    hide OrderInv;
    match e
    case EInsert(id, k, soft, w) => InsertOrder(s, id, k, soft, w);
    case EDispatch(r, at) => DispatchOrder(s, r, at);
    case EMerge(id) => MergeOrder(s, id);
    case EFetch => FetchOrder(s);
    case EPeek => PeekOrder(s);
    case EComplete(r, error) =>
      if r.Io? { CompleteIoOrder(s, r.id, error); } else { CompleteProxyOrder(s, r, error); }
    case EPartialBar(error) => PartialBarOrder(s, error);
    case ERequeue(r) => RequeueOrder(s, r);
    case EPut => DrainCheckOrder(s);
  }

  lemma InitOrder(s: State)
    requires Init(s) && DrainMode(s.q.nextOrdered)
    ensures OrderInv(s)
  {
    assert Outstanding(s.q.driver, s.q.kind, s.q.started) == {};
  }

  lemma {:induction false} RunOrder(states: seq<State>, events: seq<Event>, n: nat)
    requires Run(states, events, true) && DrainMode(states[0].q.nextOrdered) && n < |states|
    ensures OrderInv(states[n])
  {
    if n == 0 {
      InitOrder(states[0]);
    } else {
      RunOrder(states, events, n - 1);
      StepOrder(states[n - 1], events[n - 1]);
    }
  }

  ghost predicate InsertedBefore(h: Hist, x: nat, y: nat) {
    exists i, j :: 0 <= i < j < |h.inserted| && h.inserted[i] == x && h.inserted[j] == y
  }

  /**
   What the driver may see: while it holds a phase of a barrier, every file system request
   inserted before that barrier has ended, and so have the earlier phases; while it holds a
   file system request, every barrier inserted before that request has ended.
   */
  ghost predicate Ordered(s: State) {
    && (forall r, x :: r in s.q.driver && IsProxy(r) && InsertedBefore(s.h, x, s.q.orig) && K(s.q.kind, Io(x)).fs ==>
          x in s.h.done)
    && (forall r, p | r in s.q.driver && IsProxy(r) && IsProxy(p) && PhaseOf(p) < PhaseOf(r) ::
          Wanted(s.q.nextOrdered, K(s.q.kind, Io(s.q.orig)).sectors, p) ==> p in s.h.finished)
    && (forall x, b | Io(x) in s.q.driver && K(s.q.kind, Io(x)).fs && InsertedBefore(s.h, b, x) ::
          IsBarrier(K(s.q.kind, Io(b))) ==> b in s.h.done)
  }

  lemma InvIsOrdered(s: State)
    requires OrderInv(s)
    ensures Ordered(s)
  {
    forall r, x | r in s.q.driver && IsProxy(r) && InsertedBefore(s.h, x, s.q.orig) && K(s.q.kind, Io(x)).fs
      ensures x in s.h.done
    {
      EarlierIsDone(s, r, x);
    }
    forall x, b | Io(x) in s.q.driver && K(s.q.kind, Io(x)).fs && InsertedBefore(s.h, b, x)
                  && IsBarrier(K(s.q.kind, Io(b)))
      ensures b in s.h.done
    {
      EarlierBarrierIsDone(s, x, b);
    }
    forall r, p | r in s.q.driver && IsProxy(r) && IsProxy(p) && PhaseOf(p) < PhaseOf(r)
                  && Wanted(s.q.nextOrdered, K(s.q.kind, Io(s.q.orig)).sectors, p)
      ensures p in s.h.finished
    {
      EarlierPhaseIsFinished(s, r, p);
    }
  }

  lemma EarlierIsDone(s: State, r: Rq, x: nat)
    requires OrderInv(s) && r in s.q.driver && IsProxy(r) && InsertedBefore(s.h, x, s.q.orig) && K(s.q.kind, Io(x)).fs
    ensures x in s.h.done
  {
    hide InOrder, Accounting, NoDup, EndedOnce;
    assert Held(s.q, r);
    var i, j :| 0 <= i < j < |s.h.inserted| && s.h.inserted[i] == x && s.h.inserted[j] == s.q.orig;
    assert Epoch(s.h.epoch, x) <= Epoch(s.h.epoch, s.q.orig);
  }

  lemma EarlierBarrierIsDone(s: State, x: nat, b: nat)
    requires OrderInv(s) && Io(x) in s.q.driver && K(s.q.kind, Io(x)).fs && InsertedBefore(s.h, b, x)
    requires IsBarrier(K(s.q.kind, Io(b)))
    ensures b in s.h.done
  {
    hide InOrder, Accounting, NoDup, EndedOnce;
    var i, j :| 0 <= i < j < |s.h.inserted| && s.h.inserted[i] == b && s.h.inserted[j] == x;
    assert Epoch(s.h.epoch, b) < Epoch(s.h.epoch, x);
  }

  lemma EarlierPhaseIsFinished(s: State, r: Rq, p: Rq)
    requires OrderInv(s) && r in s.q.driver && IsProxy(r) && IsProxy(p) && PhaseOf(p) < PhaseOf(r)
    requires Wanted(s.q.nextOrdered, K(s.q.kind, Io(s.q.orig)).sectors, p)
    ensures p in s.h.finished
  {
    hide InOrder, Accounting, NoDup, EndedOnce, Colored, HeadWindow, DriverWindow, SortedWindow, Chronological,
      Tracked, Blocking;
    assert Held(s.q, r);
  }

  /** The ordering guarantee of the drain modes, over every run. */
  lemma DrainOrdersEveryRun(states: seq<State>, events: seq<Event>, n: nat)
    requires Run(states, events, true) && DrainMode(states[0].q.nextOrdered) && n < |states|
    ensures Ordered(states[n])
  {
    RunOrder(states, events, n);
    InvIsOrdered(states[n]);
  }
}
