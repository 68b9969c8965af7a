/**
 A queue without barrier support (ORDERED_NONE): no sequence ever opens, no barrier ever
 reaches the driver, and every barrier ends once, with -EOPNOTSUPP.
 */
module BarrierNone {
  import opened Lists
  import opened BarrierModel
  import opened BarrierSequence

  /** A barrier is in the dispatch list or has been turned down. */
  ghost predicate TurnedDown(s: State, id: nat) { Io(id) in s.q.head || (id, EOPNOTSUPP) in s.h.ended }

  ghost predicate Refusing(s: State) {
    && s.q.nextOrdered == ORDERED_NONE && s.q.ordseq == ZERO && s.h.closed == 0
    && (forall id :: id in s.h.barriers <==> id in s.h.epoch && IsBarrier(K(s.q.kind, Io(id))))
    && (forall id :: id in s.h.barriers ==> Io(id) !in s.q.driver && Io(id) !in s.q.sorted && TurnedDown(s, id))
  }

  /** A barrier is queued at the tail. */
  lemma InsertFrame(s: State, id: nat, k: Kind, soft: bool, w: Where)
    requires Enabled(s, EInsert(id, k, soft, w), false)
    ensures var s' := Insert(s, id, k, soft, w);
            && s'.q.nextOrdered == s.q.nextOrdered && s'.q.ordseq == s.q.ordseq && s'.q.driver == s.q.driver
            && s'.h.ended == s.h.ended && s'.h.closed == s.h.closed && s'.h.epoch == s.h.epoch[id := |s.h.barriers|]
            && s'.h.barriers == (if IsBarrier(k) then s.h.barriers + [id] else s.h.barriers)
            && s'.q.kind == s.q.kind[Io(id) := k.(color := s.q.ordcolor)]
            && s'.q.sorted <= s.q.sorted + {Io(id)}
            && (forall r :: r in s.q.head ==> r in s'.q.head)
            && (IsBarrier(k) ==> Io(id) in s'.q.head && s'.q.sorted == s.q.sorted)
  {
    hide Stops;
  }

  lemma InsertRefuses(s: State, id: nat, k: Kind, soft: bool, w: Where)
    requires Pending(s) && Refusing(s) && Enabled(s, EInsert(id, k, soft, w), false)
    ensures Refusing(Insert(s, id, k, soft, w))
  {
    InsertFrame(s, id, k, soft, w);
    hide Insert, Enabled;
    assert id !in s.h.epoch && id !in s.h.barriers;
    var s' := Insert(s, id, k, soft, w);
    assert Pending(s) ==> Io(id) !in s.q.driver && Io(id) !in s.q.sorted;
    hide Pending;
    assert forall x :: x in s'.h.barriers <==> x in s.h.barriers || (x == id && IsBarrier(k));
    assert forall x :: K(s'.q.kind, Io(x)) == if x == id then k.(color := s.q.ordcolor) else K(s.q.kind, Io(x));
    hide K;
  }

  lemma DispatchRefuses(s: State, r: Rq, at: nat)
    requires Inv(s) && Refusing(s) && r in s.q.sorted && at <= |s.q.head|
    ensures Refusing(Dispatch(s, r, at))
  {
    InsertAtContents(s.q.head, at, r);
    hide InsertAt, Pending, Sequencing, EndedOnce, K, NoDup;
  }

  lemma HeadIsIo(s: State)
    requires Inv(s) && s.q.ordseq == ZERO && s.q.head != []
    ensures s.q.head[0].Io? && s.q.head[0].id in s.h.epoch
  {
    hide NoDup, EndedOnce, K;
    assert s.q.head[0] in s.q.head;
    assert Held(s.q, s.q.head[0]);
  }

  /** blk_do_ordered passes what is not a barrier and ends a barrier at once. */
  lemma FetchRefuses(s: State)
    requires Inv(s) && Refusing(s) && s.q.head != []
    ensures Refusing(Fetch(s)) && Refusing(Peek(s))
  {
    HeadIsIo(s);
    hide Inv, StartOrdered, K;
    var r := s.q.head[0];
    assert forall x :: x in s.q.head <==> x == r || x in s.q.head[1..];
    var v := DoOrdered(s);
    if IsBarrier(K(s.q.kind, r)) {
      assert v.s.h.ended == s.h.ended + [(r.id, EOPNOTSUPP)];
      assert (r.id, EOPNOTSUPP) in v.s.h.ended;
      assert v.s.q.head == s.q.head[1..] && Fetch(s) == v.s && Peek(s) == v.s;
    } else {
      assert v == Verdict(s, true, Some(r));
      assert Fetch(s).q.head == s.q.head[1..] && Fetch(s).q.driver == s.q.driver + {r};
    }
  }

  lemma CompleteRefuses(s: State, r: Rq, error: int)
    requires Inv(s) && Refusing(s) && r in s.q.driver
    ensures Refusing(Complete(s, r, error))
  {
    assert r.Io? by {
      hide Pending, Placed, EndedOnce, K;
      assert Held(s.q, r);
    }
    var s' := Complete(s, r, error);
    assert s'.h.ended == s.h.ended + [(r.id, error)];
    assert forall x :: x in s.h.ended ==> x in s'.h.ended;
    hide Inv, K;
  }

  lemma RequeueRefuses(s: State, r: Rq)
    requires Inv(s) && Refusing(s) && r in s.q.driver
    ensures Refusing(Requeue(s, r))
  {
    hide RequeueAt, K, Accounted;
    InsertAtContents(s.q.head, RequeueAt(Unhook(s.q, r), r), r);
    hide Inv, InsertAt, NoDup;
  }

  lemma StepRefuses(s: State, e: Event)
    requires Inv(s) && Refusing(s) && Enabled(s, e, false)
    ensures Refusing(Step(s, e))
  {
    assert Pending(s);
    hide Pending, Inv, Insert, Dispatch, Fetch, Peek, Complete, Requeue, K, Stops;
    match e
    case EInsert(id, k, soft, w) => InsertRefuses(s, id, k, soft, w);
    case EDispatch(r, at) => DispatchRefuses(s, r, at);
    case EMerge(id) =>
    case EFetch => FetchRefuses(s);
    case EPeek => FetchRefuses(s);
    case EComplete(r, error) => CompleteRefuses(s, r, error);
    case EPartialBar(error) =>
    case ERequeue(r) => RequeueRefuses(s, r);
    case EPut =>
  }

  lemma {:induction false} RunRefuses(states: seq<State>, events: seq<Event>, n: nat)
    requires Run(states, events, false) && states[0].q.nextOrdered == ORDERED_NONE && n < |states|
    ensures Inv(states[n]) && Refusing(states[n])
  {
    if n > 0 {
      RunRefuses(states, events, n - 1);
      RunKeeps(states, events, n);
      hide Inv, Refusing, Init;
      StepRefuses(states[n - 1], events[n - 1]);
    }
  }

  /**
   In every run of a queue without barrier support: no sequence is ever open, no barrier is ever held by the
   driver, and a barrier waits in the list until it ends with -EOPNOTSUPP and with nothing else.
   */
  lemma BarriersAreTurnedDown(states: seq<State>, events: seq<Event>, n: nat)
    requires Run(states, events, false) && states[0].q.nextOrdered == ORDERED_NONE && n < |states|
    ensures states[n].q.ordseq == ZERO && states[n].h.closed == 0
    ensures forall id :: id in states[n].h.barriers ==> Io(id) !in states[n].q.driver && TurnedDown(states[n], id)
    ensures forall i :: 0 <= i < |states[n].h.ended| && states[n].h.ended[i].0 in states[n].h.barriers ==>
              states[n].h.ended[i].1 == -95
    ensures forall id :: id in states[n].h.barriers && Io(id) in states[n].q.head ==> id !in states[n].h.done
  {
    RunRefuses(states, events, n);
    hide Run, Sequencing, Placed, K;
    var s := states[n];
    forall i | 0 <= i < |s.h.ended| && s.h.ended[i].0 in s.h.barriers ensures s.h.ended[i].1 == EOPNOTSUPP {
      var id := s.h.ended[i].0;
      assert id in s.h.done;
      assert Io(id) !in s.q.head;
      var j :| 0 <= j < |s.h.ended| && s.h.ended[j] == (id, EOPNOTSUPP);
    }
  }
}
