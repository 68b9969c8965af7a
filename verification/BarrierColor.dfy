/**
 The ordering guarantee rests on a rule nobody checks: only file system requests may carry
 the hard barrier flag.  __elv_add_request flips the queue's colour for any request with
 that flag, but blk_do_ordered blocks only for file system ones.  One packet command with
 the flag and one requeue are enough to issue a barrier before an older request.
 */
module BarrierColor {
  import opened BarrierModel
  import opened BarrierOrder

  /** A plain file system request, a flagged request that is not one, and a barrier with or without data. */
  ghost predicate Culprits(w: Kind, k: Kind, b: Kind) {
    w.fs && !w.hard && k.hard && !k.fs && IsBarrier(b)
  }

  // The run that breaks the order, state by state.

  /** The kinds as the queue keeps them: the flagged request has flipped the colour for the barrier. */
  ghost predicate Submitted(s: State, w: Kind, k: Kind, b: Kind) {
    && K(s.q.kind, Io(0)) == w.(color := false) && K(s.q.kind, Io(1)) == k.(color := false)
    && K(s.q.kind, Io(2)) == b.(color := true) && s.h.inserted == [0, 1, 2]
  }

  /** All three stand in the list. */
  ghost predicate Listed(s: State, w: Kind, k: Kind, b: Kind) {
    && Submitted(s, w, k, b) && s.h.done == {}
    && s.q.head == [Io(0), Io(1), Io(2)] && s.q.driver == {} && s.q.inFlight == 0
    && s.q.ordseq == ZERO && s.q.started == {} && s.q.nextOrdered == ORDERED_DRAIN_FLUSH
  }

  lemma Submit(w: Kind, k: Kind, b: Kind)
    requires Culprits(w, k, b)
    ensures var s1 := Insert(Idle(ORDERED_DRAIN_FLUSH), 0, w, false, Back);
            var s2 := Insert(s1, 1, k, false, Back);
            && s1.q.sorted == {} && 1 !in s1.h.epoch && s2.q.sorted == {} && 2 !in s2.h.epoch
            && Listed(Insert(s2, 2, b, false, Back), w, k, b)
  {
  }

  /** What the driver holds once it has taken the first two; the command counts only if it is a discard. */
  function Issued(s: State, k: Kind): (s': State) {
    State(s.q.(head := [Io(2)], driver := {Io(0), Io(1)}, started := {Io(0), Io(1)},
               inFlight := if k.discard then 2 else 1), s.h)
  }

  lemma Issue(s: State, w: Kind, k: Kind, b: Kind)
    requires Culprits(w, k, b) && Listed(s, w, k, b)
    ensures Fetch(s).q.head != [] && Fetch(Fetch(s)) == Issued(s, k)
  {
    assert Fetch(s) == State(s.q.(head := [Io(1), Io(2)], driver := {Io(0)}, inFlight := 1, started := {Io(0)}), s.h);
  }

  /** The phases of a barrier of `sectors` sectors. */
  function Proxies(sectors: nat): (head: seq<Rq>) {
    if sectors == 0 then [PreFlush] else [PreFlush, Bar, PostFlush]
  }

  function Phases(sectors: nat, drain: bool): (b: Bits) { Bits(true, drain, false, sectors == 0, sectors == 0) }

  /** The barrier waits for the write. */
  ghost predicate Waiting(s: State, w: Kind, k: Kind, b: Kind) {
    && Submitted(s, w, k, b) && s.h.done == {}
    && s.q.head == Proxies(b.sectors) && s.q.ordseq == Phases(b.sectors, false)
    && s.q.driver == {Io(0), Io(1)} && s.q.started == {Io(0), Io(1)} && s.q.inFlight == (if k.discard then 2 else 1)
    && s.q.orig == 2 && !s.q.ordered.byTag
  }

  lemma QueuedProxies(s: State, sectors: nat)
    requires s.q.head == [] && s.q.ordered == EffectiveOrdered(ORDERED_DRAIN_FLUSH, sectors)
    requires forall r :: r in s.q.started ==> r.Io?
    ensures var s1 := QueueProxies(s);
            && s1.q == s.q.(head := Proxies(sectors), soft := s1.q.soft)
            && s1.h == s.h.(queued := s1.h.queued)
  {
  }

  lemma Wait(s: State, w: Kind, k: Kind, b: Kind)
    requires Culprits(w, k, b) && Listed(s, w, k, b)
    ensures Waiting(Fetch(Issued(s, k)), w, k, b)
  {
    var s1 := Issued(s, k);
    var s2 := Stash(s1);
    assert s2.q == s1.q.(head := [], orderr := 0, ordseq := Bit(STARTED), orig := 2,
                         ordered := EffectiveOrdered(ORDERED_DRAIN_FLUSH, b.sectors));
    hide Stash, QueueProxies, Proxies;
    QueuedProxies(s2, b.sectors);
  }

  /** The requeued write has the colour of a later request, and is queued behind all phases. */
  lemma GiveBack(s: State, w: Kind, k: Kind, b: Kind)
    requires Culprits(w, k, b) && Waiting(s, w, k, b)
    ensures var s1 := Requeue(s, Io(0));
            && s1.h == s.h
            && s1.q == s.q.(head := Proxies(b.sectors) + [Io(0)], driver := {Io(1)}, started := {Io(1)},
                            inFlight := s.q.inFlight - 1, soft := s1.q.soft)
  {
    var q := Unhook(s.q, Io(0));
    assert forall i :: 0 <= i < |q.head| ==> ReqSeq(q, q.head[i]) < DONE == ReqSeq(q, Io(0));
    assert RequeueAt(q, Io(0)) == |q.head|;
    hide RequeueAt;
  }

  /** When the command completes, nothing seems to be left to wait for. */
  lemma Drain(s: State, w: Kind, k: Kind, b: Kind)
    requires Culprits(w, k, b) && Waiting(s, w, k, b)
    ensures var s1 := Complete(Requeue(s, Io(0)), Io(1), 0);
            && s1.q == Requeue(s, Io(0)).q.(driver := {}, inFlight := 0, ordseq := Phases(b.sectors, true))
            && s1.h.inserted == [0, 1, 2] && s1.h.done == {1}
  {
    hide Requeue;
    GiveBack(s, w, k, b);
  }

  /** The first phase of the barrier overtakes the write. */
  lemma Overtake(s: State, s1: State, w: Kind, k: Kind, b: Kind)
    requires Culprits(w, k, b) && Waiting(s, w, k, b)
    requires s1.q == Requeue(s, Io(0)).q.(driver := {}, inFlight := 0, ordseq := Phases(b.sectors, true))
    requires s1.h.inserted == [0, 1, 2] && s1.h.done == {1}
    ensures s1.q.head != [] && !Ordered(Fetch(s1))
  {
    hide Requeue;
    GiveBack(s, w, k, b);
    var s2 := Fetch(s1);
    assert PreFlush in s2.q.driver;
    assert s2.h.inserted[0] == 0 && s2.h.inserted[2] == 2;
    assert InsertedBefore(s2.h, 0, s2.q.orig);
  }

  /** The requests are submitted and the barrier waits. */
  lemma RunUntilWaiting(w: Kind, k: Kind, b: Kind) returns (states: seq<State>, events: seq<Event>)
    requires Culprits(w, k, b)
    ensures Run(states, events, false) && states[0] == Idle(ORDERED_DRAIN_FLUSH)
    ensures Submits(events, iset{w, k, b}) && Waiting(states[|events|], w, k, b)
  {
    hide Insert, Fetch, Waiting, Run, Submits;
    var all := iset{w, k, b};
    Submit(w, k, b);
    states, events := Begin(ORDERED_DRAIN_FLUSH, false, all);
    states, events := Extend(states, events, false, all, EInsert(0, w, false, Back));
    states, events := Extend(states, events, false, all, EInsert(1, k, false, Back));
    states, events := Extend(states, events, false, all, EInsert(2, b, false, Back));
    var c := states[|events|];
    Issue(c, w, k, b);
    Wait(c, w, k, b);
    states, events := Extend(states, events, false, all, EFetch);
    states, events := Extend(states, events, false, all, EFetch);
    states, events := Extend(states, events, false, all, EFetch);
  }

  /** A run with any flagged request that is no fs request; at its end a barrier's phase is ahead of an older write. */
  lemma PacketCommandBreaksOrder(w: Kind, k: Kind, b: Kind) returns (states: seq<State>, events: seq<Event>)
    requires Culprits(w, k, b)
    ensures Run(states, events, false) && DrainMode(states[0].q.nextOrdered) && Submits(events, iset{w, k, b})
    ensures !Ordered(states[|events|])
  {
    var all := iset{w, k, b};
    states, events := RunUntilWaiting(w, k, b);
    var s := states[|events|];
    Drain(s, w, k, b);
    GiveBack(s, w, k, b);
    Overtake(s, Complete(Requeue(s, Io(0)), Io(1), 0), w, k, b);
    hide Fetch, Requeue, Complete, Ordered, Run, Submits;
    states, events := Extend(states, events, false, all, ERequeue(Io(0)));
    states, events := Extend(states, events, false, all, EComplete(Io(1), 0));
    states, events := Extend(states, events, false, all, EFetch);
  }

  /** The hard barrier flag is on file system requests only. */
  ghost predicate FlagsFs(allowed: iset<Kind>) { forall k :: k in allowed && k.hard ==> k.fs }

  lemma StrictRun(states: seq<State>, events: seq<Event>, allowed: iset<Kind>)
    requires Run(states, events, false) && Submits(events, allowed) && FlagsFs(allowed)
    ensures Run(states, events, true)
  {
    hide Init, Step, Route, Stops;
    forall i | 0 <= i < |events| ensures Enabled(states[i], events[i], true) {
      assert events[i] in events;
    }
  }

  /**
   For every set of request kinds that submitters may use, with some plain fs request and some
   barrier among them: the drain modes order every run if and only if the flag is on fs requests only.
   */
  lemma DrainOrderingNeedsTheRule(allowed: iset<Kind>, w: Kind, b: Kind)
    requires w in allowed && w.fs && !w.hard && b in allowed && IsBarrier(b)
    ensures FlagsFs(allowed) <==>
            forall states: seq<State>, events: seq<Event>, n: nat ::
              && Run(states, events, false) && Submits(events, allowed)
              && DrainMode(states[0].q.nextOrdered) && n < |states|
              ==> Ordered(states[n])
  {
    if FlagsFs(allowed) {
      forall states: seq<State>, events: seq<Event>, n: nat
        | && Run(states, events, false) && Submits(events, allowed)
          && DrainMode(states[0].q.nextOrdered) && n < |states|
        ensures Ordered(states[n])
      {
        StrictRun(states, events, allowed);
        DrainOrdersEveryRun(states, events, n);
      }
    } else {
      var k :| k in allowed && k.hard && !k.fs;
      var states, events := PacketCommandBreaksOrder(w, k, b);
      assert Submits(events, allowed);
      var n := |events|;
      assert !Ordered(states[n]);
    }
  }
}
