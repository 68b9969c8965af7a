/**
 The request queue as the block layer keeps it: fields updated in place under the queue
 lock, and the loops that walk the dispatch list.  Every method is proved against the
 operations of BarrierModel.
 */
module BarrierQueue {
  import opened Lists
  import opened BarrierModel
  import opened BarrierSequence
  import opened BarrierOrder
  import opened BarrierProgress
  import opened BarrierSort

  class RequestQueue {
    var head: seq<Rq>
    var sorted: set<Rq>
    var driver: set<Rq>
    var kind: map<Rq, Kind>
    var soft: set<Rq>
    var started: set<Rq>
    var inFlight: int
    var nextOrdered: Mode
    var ordered: Mode
    var ordseq: Bits
    var orderr: int
    var ordcolor: bool
    var orig: nat
    var endSector: nat
    var bug: bool
    ghost var h: Hist

    ghost function View(): (s: State)
      reads this
    {
      State(Queue(head, sorted, driver, kind, soft, started, inFlight, nextOrdered, ordered, ordseq,
                  orderr, ordcolor, orig, bug), h)
    }

    function Seq(r: Rq): (b: nat)
      reads this
      ensures b == ReqSeq(View().q, r)
    {
      match r
      case PreFlush => PREFLUSH
      case Bar => BAR
      case PostFlush => POSTFLUSH
      case Io(_) =>
        if !K(kind, r).fs || K(kind, r).color == K(kind, Io(orig)).color then DRAIN else DONE
    }

    function Current(): (b: nat)
      reads this
      ensures b == CurSeq(View().q)
    {
      if ordseq == ZERO then 0 else if !ordseq.started then STARTED else if !ordseq.drain then DRAIN
      else if !ordseq.preflush then PREFLUSH else if !ordseq.bar then BAR
      else if !ordseq.postflush then POSTFLUSH else DONE
    }

    /** blk_ordered_complete_seq */
    method OrderedCompleteSeq(bits: Bits, error: int) returns (complete: bool)
      modifies this
      ensures (View(), complete) == CompleteSeq(old(View()), bits, error)
      ensures endSector == old(endSector)
    {
      hide EndIo, CurSeq;
      if error != 0 && orderr == 0 { orderr := error; }
      if ordseq.Meets(bits) { bug := true; }
      ordseq := ordseq.Or(bits);
      h := h.(errors := h.errors + [error]);
      if Current() != DONE { return false; }
      ordseq := ZERO;
      h := EndIo(h, orig, orderr).(closed := h.closed + 1);
      return true;
    }

    method DequeueFirst() returns (r: Rq)
      requires head != []
      modifies `head, `inFlight
      ensures r == old(head[0]) && View() == old(View()).(q := DequeueHead(old(View()).q))
    {
      r := head[0];
      head := head[1..];
      if Accounted(kind, started, r) { inFlight := inFlight + 1; }
    }

    method QueueProxy(r: Rq)
      requires IsProxy(r)
      modifies `head, `soft, `started, `h
      ensures View() == QueueIf(old(View()), r)
      ensures head == (if Asks(ordered, r) then [r] else []) + old(head)
    {
      if Asks(ordered, r) {
        head := [r] + head;
        soft := soft + {r};
        started := started - {r};
        h := h.(queued := h.queued + {r});
      }
    }

    /**
     An empty barrier has no data to write and no data to flush afterwards.  It is ordered by
     tag only if it has a pre-flush to carry the tag; without one the queue is drained.
     */
    method ReducedMode(sectors: nat) returns (mode: Mode)
      ensures mode == EffectiveOrdered(nextOrdered, sectors)
      ensures sectors != 0 ==> mode == nextOrdered
      ensures sectors == 0 ==>
                forall r :: IsProxy(r) ==> (Asks(mode, r) <==> r == PreFlush && Asks(nextOrdered, PreFlush))
      ensures sectors == 0 && mode.byTag ==> Asks(mode, PreFlush)
      ensures ValidMode(nextOrdered) && nextOrdered != ORDERED_NONE ==> mode.byTag != mode.byDrain
      ensures ValidMode(nextOrdered) && nextOrdered.byDrain ==> mode.byDrain
    {
      mode := nextOrdered;
      if sectors == 0 {
        mode := mode.(bar := false, postflush := false);
        if mode.byTag && !mode.preflush { mode := mode.(byTag := false, byDrain := true); }
      }
    }

    /** start_ordered: no error so far, the mode for this barrier, and the first phase bit */
    method OpenSequence(sectors: nat)
      modifies `orderr, `ordered, `ordseq
      ensures View() == old(View()).(q := Opened(old(View()).q, sectors))
    {
      hide EffectiveOrdered, Bit;
      orderr := 0;
      ordered := ReducedMode(sectors);
      ordseq := ordseq.Or(Bit(STARTED));
    }

    /** start_ordered up to the point where the original request is stashed away */
    method StashHead()
      requires head != [] && head[0].Io?
      modifies this
      ensures View() == Stash(old(View())) && endSector == old(endSector)
    {
      hide Opened, DequeueHead, K;
      OpenSequence(K(kind, head[0]).sectors);
      var r := DequeueFirst();
      orig := r.id;
      h := h.(queued := {}, finished := {}, errors := []);
    }

    method QueueSequence()
      modifies `head, `soft, `started, `h
      ensures View() == QueueProxies(old(View()))
      ensures head == (if ordered.preflush then [PreFlush] else []) +
                      ((if ordered.bar then [Bar] else []) +
                       ((if ordered.postflush then [PostFlush] else []) + old(head)))
    {
      hide QueueIf;
      QueueProxy(PostFlush);
      QueueProxy(Bar);
      QueueProxy(PreFlush);
    }

    /** start_ordered */
    method StartSequence() returns (ret: bool, rq: Option<Rq>)
      requires head != [] && head[0].Io?
      modifies this
      ensures Verdict(View(), ret, rq) == StartOrdered(old(View())) && endSector == old(endSector)
      ensures rq.Some? <==>
                (ordered.preflush || ordered.bar || ordered.postflush) && !(ordered.byDrain && inFlight != 0)
      ensures rq.Some? ==> head != [] && head[0] == rq.value
    {
      hide Stash, QueueProxies, CompleteSeq;
      StashHead();
      QueueSequence();
      rq := None;
      if ordered.postflush { rq := Some(PostFlush); }
      if ordered.bar { rq := Some(Bar); }
      if ordered.preflush { rq := Some(PreFlush); }
      var skip := Bits(false, false, !ordered.preflush, !ordered.bar, !ordered.postflush);
      if ordered.byDrain && inFlight != 0 { rq := None; } else { skip := skip.(drain := true); }
      CompleteSeqFrame(View(), skip, 0);
      var complete := OrderedCompleteSeq(skip, 0);
      ret := !complete;
    }

    /** blk_do_ordered */
    method DoOrderedHead() returns (ret: bool, rq: Option<Rq>)
      requires head != [] && (ordseq == ZERO && IsBarrier(K(kind, head[0])) ==> head[0].Io?)
      modifies this
      ensures Verdict(View(), ret, rq) == DoOrdered(old(View())) && endSector == old(endSector)
    {
      var r := head[0];
      if ordseq == ZERO {
        if !IsBarrier(K(kind, r)) { return true, Some(r); }
        if nextOrdered != ORDERED_NONE {
          ret, rq := StartSequence();
        } else {
          var _ := DequeueFirst();
          h := EndIo(h, r.id, EOPNOTSUPP);
          ret, rq := false, None;
        }
      } else if !K(kind, r).fs && r != PreFlush && r != PostFlush {
        ret, rq := true, Some(r);
      } else if ordered.byTag {
        ret, rq := true, if IsBarrier(K(kind, r)) && r != Bar then None else Some(r);
      } else {
        ret, rq := true, if Seq(r) > Current() then None else Some(r);
      }
    }

    /** The walk of elv_insert for a requeued request. */
    method RequeuePlace(rq: Rq) returns (i: nat)
      ensures i == RequeueAt(View().q, rq)
    {
      i := 0;
      if ordseq != ZERO {
        ghost var q := View().q;
        var phase := Seq(rq);
        while i < |head| && Seq(head[i]) < phase
          invariant i <= |head| && View().q == q && head == q.head && phase == ReqSeq(q, rq)
          invariant RequeueIndex(q, phase, 0) == RequeueIndex(q, phase, i)
        {
          i := i + 1;
        }
      }
    }

    /** elv_requeue_request: put a request back where the phases ask for it. */
    method RequeueRequest(rq: Rq)
      modifies this
      ensures View() == Requeue(old(View()), rq) && endSector == old(endSector)
    {
      hide RequeueAt, K;
      if Accounted(kind, started, rq) { inFlight := inFlight - 1; }
      started := started - {rq};
      soft := soft + {rq};
      driver := driver - {rq};
      assert View() == old(View()).(q := Unhook(old(View()).q, rq));
      hide Accounted, Unhook;
      var i := RequeuePlace(rq);
      head := head[..i] + [rq] + head[i..];
    }

    /** elv_completed_request */
    method CompletedRequest(rq: Rq)
      modifies this
      ensures View() == Completed(old(View()), rq) && endSector == old(endSector)
    {
      if Accounted(kind, started, rq) { inFlight := inFlight - 1; }
      if ordseq != ZERO && inFlight == 0 && Current() == DRAIN && (head == [] || Seq(head[0]) > DRAIN) {
        var _ := OrderedCompleteSeq(Bit(DRAIN), 0);
      }
    }

    /** elv_dispatch_sort's test for stopping in front of `pos`. */
    predicate StopsBefore(rq: Rq, pos: Rq)
      reads this
      ensures StopsBefore(rq, pos) <==> !Passes(View().q, endSector, rq, pos)
    {
      var a, b := K(kind, rq), K(kind, pos);
      || a.discard != b.discard || a.write != b.write
      || pos in soft || b.hard || pos in started
      || (if a.pos >= endSector then b.pos >= endSector && a.pos >= b.pos
          else b.pos >= endSector || a.pos >= b.pos)
    }

    /** elv_dispatch_sort: walk the list from its end and insert behind the first stop. */
    method DispatchSorted(rq: Rq) returns (ghost at: nat)
      requires rq in sorted
      modifies this
      ensures at <= |old(head)| && View() == Dispatch(old(View()), rq, at) && endSector == old(endSector)
      ensures Enabled(old(View()), EDispatch(rq, at), true)
      ensures Place(old(View()).q, endSector, rq, at)
      ensures old(Elevated(View().q, endSector)) ==> Elevated(View().q, endSector)
    {
      hide StopsBefore, Passes, Elevated;
      ghost var s := View();
      var i := |head|;
      while i > 0 && !StopsBefore(rq, head[i - 1])
        invariant 0 <= i <= |head|
        invariant forall k :: i <= k < |head| ==> !StopsBefore(rq, head[k])
      {
        i := i - 1;
      }
      at := i;
      NothingIsPassed(s.q, endSector, rq, at);
      if Elevated(s.q, endSector) { DispatchElevated(s, endSector, rq, at); }
      head := head[..i] + [rq] + head[i..];
      sorted := sorted - {rq};
    }

    /** elv_dispatch_add_tail */
    method DispatchTail(rq: Rq)
      requires rq in sorted
      modifies this
      ensures View() == Dispatch(old(View()), rq, |old(head)|)
      ensures endSector == K(kind, rq).pos + K(kind, rq).sectors
    {
      endSector := K(kind, rq).pos + K(kind, rq).sectors;
      sorted := sorted - {rq};
      head := head + [rq];
    }

    /** The scheduler hands over one request, sorted by sector or at the tail. */
    method HandOver(rq: Rq, bySector: bool)
      requires Inv(View()) && rq in sorted
      modifies this
      ensures Inv(View()) && (old(OrderInv(View())) ==> OrderInv(View()))
      ensures old(Live(View())) ==> Live(View())
      ensures sorted == old(sorted) - {rq} && |head| == |old(head)| + 1
      ensures forall r :: r in head <==> r in old(head) || r == rq
      ensures h == old(h) && driver == old(driver) && ordseq == old(ordseq)
      ensures bySector ==> endSector == old(endSector)
      ensures bySector && old(Elevated(View().q, endSector)) ==> Elevated(View().q, endSector)
    {
      ghost var s := View();
      ghost var at := |head|;
      hide Inv, Base, Draining;
      SortedIsNotListed(s, rq);
      if bySector {
        at := DispatchSorted(rq);
      } else {
        DispatchTail(rq);
      }
      InsertAtContents(s.q.head, at, rq);
      DispatchKeeps(s, rq, at);
      if OrderInv(s) { DispatchOrder(s, rq, at); }
      if Live(s) { StepLives(s, EDispatch(rq, at)); }
      hide OrderInv, Live, NoDup, Elevated;
    }

    /** elv_drain_elevator: the scheduler is made to hand over everything it holds. */
    method DrainElevator(bySector: bool)
      requires Inv(View())
      modifies this
      ensures Inv(View()) && (old(OrderInv(View())) ==> OrderInv(View()))
      ensures old(Live(View())) ==> Live(View())
      ensures sorted == {} && |head| == |old(head)| + |old(sorted)|
      ensures forall r :: r in head <==> r in old(head) || r in old(sorted)
      ensures h == old(h) && driver == old(driver) && ordseq == old(ordseq)
      ensures bySector ==> endSector == old(endSector)
      ensures bySector && old(Elevated(View().q, endSector)) ==> Elevated(View().q, endSector)
    {
      hide Inv, OrderInv, Live, Elevated;
      while sorted != {}
        invariant Inv(View()) && (old(OrderInv(View())) ==> OrderInv(View()))
        invariant old(Live(View())) ==> Live(View())
        invariant |head| + |sorted| == |old(head)| + |old(sorted)|
        invariant forall r :: r in head || r in sorted <==> r in old(head) || r in old(sorted)
        invariant h == old(h) && driver == old(driver) && ordseq == old(ordseq)
        invariant bySector ==> endSector == old(endSector)
        invariant bySector && old(Elevated(View().q, endSector)) ==> Elevated(View().q, endSector)
        decreases |sorted|
      {
        var rq :| rq in sorted;
        HandOver(rq, bySector);
      }
    }

    /** The inner loop of __elv_next_request: look at the list until the head has a verdict. */
    method LookAtHead() returns (ret: bool, rq: Option<Rq>)
      requires Inv(View())
      modifies this
      ensures Inv(View()) && (old(OrderInv(View())) ==> OrderInv(View()))
      ensures old(Live(View())) ==> Live(View())
      ensures driver == old(driver) && sorted == old(sorted) && endSector == old(endSector)
      ensures old(Elevated(View().q, endSector)) ==> Elevated(View().q, endSector)
      ensures !ret ==> head == []
      ensures ret && rq.Some? ==> head != [] && head[0] == rq.value
      ensures ret && rq.Some? && old(OrderInv(View())) ==> Eligible(View(), rq.value)
      ensures ret && rq.None? ==> ordseq != ZERO
      ensures old(Live(View())) && ret && rq.None? ==> driver != {}
    {
      hide Inv, OrderInv, Live, Elevated, DoOrdered, Eligible;
      ret, rq := false, None;
      while head != []
        invariant Inv(View()) && (old(OrderInv(View())) ==> OrderInv(View()))
        invariant old(Live(View())) ==> Live(View())
        invariant driver == old(driver) && sorted == old(sorted) && endSector == old(endSector)
        invariant old(Elevated(View().q, endSector)) ==> Elevated(View().q, endSector)
        decreases |head|
      {
        ghost var s := View();
        HeadBarrierIsIo(s);
        DoOrderedKeeps(s);
        if OrderInv(s) { DoOrderedOrder(s); }
        if Elevated(s.q, endSector) { DoOrderedElevated(s, endSector); }
        if Live(s) {
          DoOrderedLives(s);
          if driver == {} { IdleIsAnswered(s); }
        }
        TurnShrinks(s);
        ret, rq := DoOrderedHead();
        if ret { return; }
      }
      ret := false;
    }

    /**
     __elv_next_request, in every mode: with nothing to hand out the queue is either blocked
     or empty; in a drain mode only the current phase or the oldest open epoch is handed out.
     */
    method NextRequest(bySector: bool) returns (rq: Option<Rq>)
      requires Inv(View())
      modifies this
      ensures Inv(View()) && (old(OrderInv(View())) ==> OrderInv(View()))
      ensures old(Live(View())) ==> Live(View())
      ensures driver == old(driver) && (bySector ==> endSector == old(endSector))
      ensures bySector && old(Elevated(View().q, endSector)) ==> Elevated(View().q, endSector)
      ensures rq.Some? ==> head != [] && head[0] == rq.value
      ensures rq.Some? && old(OrderInv(View())) ==> Eligible(View(), rq.value)
      ensures rq.None? ==> (head == [] && sorted == {}) || ordseq != ZERO
      ensures old(Live(View())) && rq.None? ==> (head == [] && sorted == {}) || driver != {}
    {
      hide Inv, OrderInv, Live, Elevated, Eligible;
      while true
        invariant Inv(View()) && (old(OrderInv(View())) ==> OrderInv(View()))
        invariant old(Live(View())) ==> Live(View())
        invariant driver == old(driver) && (bySector ==> endSector == old(endSector))
        invariant bySector && old(Elevated(View().q, endSector)) ==> Elevated(View().q, endSector)
        decreases |sorted|
      {
        var ret;
        ret, rq := LookAtHead();
        if ret { return; }
        if sorted == {} { return None; }
        var r :| r in sorted;
        HandOver(r, bySector);
      }
    }
  }

  lemma SortedIsNotListed(s: State, r: Rq)
    requires Inv(s) && r in s.q.sorted
    ensures NoDup(s.q.head) && r !in s.q.head
  {
    hide Sequencing, Pending;
  }
}
