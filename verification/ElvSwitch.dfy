/**
 Switching the I/O scheduler of a live queue.  Request allocation drops the queue lock half-way,
 and so does the switch; every event below is one stretch of code that runs under the lock, or
 one unlocked access to q->elevator.
 */
module ElvSwitch {

  /** Where a request is: with its submitter, in an elevator, on the dispatch list, with the driver. */
  datatype Place = Fresh | Sorted(elv: nat) | Dispatched | Driver

  /** elvpriv is REQ_ELVPRIV; prep is the elevator whose elv_set_request prepared the request. */
  datatype Rq = Rq(elvpriv: bool, prep: nat, place: Place)

  /** The thread in elevator_switch. */
  datatype Switcher =
    | Idle
    | Draining(next: nat)
    | Attached(prev: nat)
    | Exited(prev: nat)
    | Failing(prev: nat)
    | Reattached

  /** resv holds the slots taken in get_request whose request is not yet allocated, with their priv. */
  datatype State = State(elevator: nat, elvswitch: bool, elvpriv: int, resv: map<nat, bool>, rqs: map<nat, Rq>,
                         exited: set<nat>, switcher: Switcher)

  datatype Event =
    | Reserve(id: nat)
    | AllocFails(id: nat)
    | Prepare(id: nat)
    | Insert(id: nat, barrier: bool, sort: bool)
    | Dispatch(id: nat)
    | Start(id: nat)
    | Requeue(id: nat)
    | MergedAway(id: nat)
    | Put(id: nat)
    | QuiesceStart(next: nat)
    | Attach
    | ExitOld
    | QuiesceEnd
    | RegisterFails
    | Reattach
    | FailEnd

  predicate At(s: State, id: nat, p: Place) { id in s.rqs && s.rqs[id].place == p }

  ghost predicate Enabled(s: State, e: Event) {
    match e
    case Reserve(id) => id !in s.resv && id !in s.rqs
    case AllocFails(id) => id in s.resv
    case Prepare(id) => id in s.resv
    case Insert(id, _, _) => At(s, id, Fresh)
    case Dispatch(id) => At(s, id, Sorted(s.elevator))
    case Start(id) => At(s, id, Dispatched)
    case Requeue(id) => At(s, id, Driver)
    case MergedAway(id) => At(s, id, Sorted(s.elevator))
    case Put(id) => At(s, id, Driver) || At(s, id, Fresh)
    case QuiesceStart(next) => s.switcher == Idle && next != s.elevator && next !in s.exited
    case Attach => s.switcher.Draining? && s.elvpriv == 0
    case ExitOld => s.switcher.Attached?
    case QuiesceEnd => s.switcher.Exited?
    case RegisterFails => s.switcher.Attached?
    case Reattach => s.switcher.Failing?
    case FailEnd => s.switcher.Reattached?
  }

  function Moved(s: State, id: nat, p: Place): (t: State)
    requires id in s.rqs
  {
    s.(rqs := s.rqs[id := s.rqs[id].(place := p)])
  }

  /** blk_free_request and freed_request */
  function Freed(s: State, id: nat): (t: State)
    requires id in s.rqs
  {
    s.(rqs := s.rqs - {id}, elvpriv := if s.rqs[id].elvpriv then s.elvpriv - 1 else s.elvpriv)
  }

  function Step(s: State, e: Event): (t: State)
    requires Enabled(s, e)
  {
    match e
    case Reserve(id) =>
      var priv := !s.elvswitch;
      s.(resv := s.resv[id := priv], elvpriv := if priv then s.elvpriv + 1 else s.elvpriv)
    case AllocFails(id) =>
      s.(resv := s.resv - {id}, elvpriv := if s.resv[id] then s.elvpriv - 1 else s.elvpriv)
    case Prepare(id) =>
      s.(resv := s.resv - {id}, rqs := s.rqs[id := Rq(s.resv[id], s.elevator, Fresh)])
    case Insert(id, barrier, sort) =>
      if sort && !barrier && s.rqs[id].elvpriv then Moved(s, id, Sorted(s.elevator)) else Moved(s, id, Dispatched)
    case Dispatch(id) => Moved(s, id, Dispatched)
    case Start(id) => Moved(s, id, Driver)
    case Requeue(id) => Moved(s, id, Dispatched)
    case MergedAway(id) => Freed(s, id)
    case Put(id) => Freed(s, id)
    case QuiesceStart(next) => s.(elvswitch := true, switcher := Draining(next))
    case Attach => s.(elevator := s.switcher.next, switcher := Attached(s.elevator))
    case ExitOld => s.(exited := s.exited + {s.switcher.prev}, switcher := Exited(s.switcher.prev))
    case QuiesceEnd => s.(elvswitch := false, switcher := Idle)
    case RegisterFails => s.(exited := s.exited + {s.elevator}, switcher := Failing(s.switcher.prev))
    case Reattach => s.(elevator := s.switcher.prev, switcher := Reattached)
    case FailEnd => s.(elvswitch := false, switcher := Idle)
  }

  ghost predicate Init(s: State) {
    && !s.elvswitch && s.elvpriv == 0 && s.resv == map[] && s.rqs == map[] && s.switcher == Idle
    && s.elevator !in s.exited
  }

  ghost predicate Run(states: seq<State>, events: seq<Event>) {
    && |states| == |events| + 1 && Init(states[0])
    && forall i :: 0 <= i < |events| ==> Enabled(states[i], events[i]) && states[i + 1] == Step(states[i], events[i])
  }

  // ----- what holds throughout -----

  /** The slots and requests that hold elevator-private data. */
  ghost function Holders(s: State): (h: set<nat>) {
    (set id | id in s.resv && s.resv[id]) + (set id | id in s.rqs && s.rqs[id].elvpriv)
  }

  ghost predicate CountInv(s: State) {
    (forall id :: id in s.resv ==> id !in s.rqs) && s.elvpriv == |Holders(s)|
  }

  /** Private data always belongs to the attached elevator, and only requests that have it are sorted. */
  ghost predicate PlaceInv(s: State) { forall id :: id in s.rqs ==> PlaceOk(s.rqs[id], s.elevator) }

  predicate PlaceOk(rq: Rq, elevator: nat) {
    && (rq.elvpriv ==> rq.prep == elevator)
    && (rq.place.Sorted? ==> rq.elvpriv && rq.place.elv == elevator)
  }

  /** From Attach until the flag is cleared nobody holds private data. */
  ghost predicate SwitchInv(s: State) {
    && (s.elvswitch <==> s.switcher != Idle)
    && (s.switcher.Attached? || s.switcher.Exited? || s.switcher.Failing? || s.switcher.Reattached? ==>
         Holders(s) == {})
    && (s.elevator in s.exited <==> s.switcher.Failing?)
    && (s.switcher.Draining? ==> s.switcher.next !in s.exited && s.switcher.next != s.elevator)
    && (s.switcher.Attached? || s.switcher.Failing? ==> s.switcher.prev !in s.exited && s.switcher.prev != s.elevator)
    && (s.switcher.Exited? ==> s.switcher.prev != s.elevator)
  }

  ghost predicate Inv(s: State) {
    CountInv(s) && PlaceInv(s) && SwitchInv(s)
  }

  lemma MovedHolds(s: State, id: nat, p: Place)
    requires id in s.rqs
    ensures Holders(Moved(s, id, p)) == Holders(s)
  {
  }

  lemma FreedHolds(s: State, id: nat)
    requires id in s.rqs && id !in s.resv
    ensures (id in Holders(s) <==> s.rqs[id].elvpriv) && Holders(Freed(s, id)) == Holders(s) - {id}
  {
  }

  /** The set of holders is a function of the slots and requests alone. */
  lemma SameHolds(s: State, t: State)
    requires t.resv == s.resv && t.rqs == s.rqs
    ensures Holders(t) == Holders(s)
  {
  }

  lemma SlotHolds(s: State, id: nat, priv: bool)
    requires id !in s.resv && id !in s.rqs
    ensures id !in Holders(s)
    ensures Holders(s.(resv := s.resv[id := priv])) == if priv then Holders(s) + {id} else Holders(s)
  {
  }

  lemma UnslotHolds(s: State, id: nat, rq: Rq)
    requires id in s.resv && id !in s.rqs && rq.elvpriv == s.resv[id]
    ensures id in Holders(s) <==> s.resv[id]
    ensures Holders(s.(resv := s.resv - {id})) == Holders(s) - {id}
    ensures Holders(s.(resv := s.resv - {id}, rqs := s.rqs[id := rq])) == Holders(s)
  {
  }

  /** How one event changes the set of holders. */
  lemma HoldersStep(s: State, e: Event)
    requires CountInv(s) && Enabled(s, e)
    ensures var t := Step(s, e);
      match e
      case Reserve(id) => id !in Holders(s) && Holders(t) == if s.elvswitch then Holders(s) else Holders(s) + {id}
      case AllocFails(id) => (id in Holders(s) <==> s.resv[id]) && Holders(t) == Holders(s) - {id}
      case MergedAway(id) => (id in Holders(s) <==> s.rqs[id].elvpriv) && Holders(t) == Holders(s) - {id}
      case Put(id) => (id in Holders(s) <==> s.rqs[id].elvpriv) && Holders(t) == Holders(s) - {id}
      case _ => Holders(t) == Holders(s)
  {
    hide Holders;
    var t := Step(s, e);
    match e
    case Reserve(id) =>
      SlotHolds(s, id, !s.elvswitch);
      SameHolds(s.(resv := s.resv[id := !s.elvswitch]), t);
    case AllocFails(id) =>
      UnslotHolds(s, id, Rq(s.resv[id], s.elevator, Fresh));
      SameHolds(s.(resv := s.resv - {id}), t);
    case Prepare(id) => UnslotHolds(s, id, Rq(s.resv[id], s.elevator, Fresh));
    case Insert(id, _, _) =>
      MovedHolds(s, id, Sorted(s.elevator));
      MovedHolds(s, id, Dispatched);
    case Dispatch(id) => MovedHolds(s, id, Dispatched);
    case Start(id) => MovedHolds(s, id, Driver);
    case Requeue(id) => MovedHolds(s, id, Dispatched);
    case MergedAway(id) => FreedHolds(s, id);
    case Put(id) => FreedHolds(s, id);
    case _ => SameHolds(s, t);
  }

  lemma CountStep(s: State, e: Event)
    requires CountInv(s) && Enabled(s, e)
    ensures CountInv(Step(s, e))
  {
    HoldersStep(s, e);
    hide Holders;
  }

  lemma NobodyHolds(s: State)
    requires Holders(s) == {}
    ensures forall id :: id in s.rqs ==> !s.rqs[id].elvpriv
  {
    assert forall id :: id in s.rqs ==> id !in Holders(s);
  }

  lemma PlaceStep(s: State, e: Event)
    requires Inv(s) && Enabled(s, e)
    ensures PlaceInv(Step(s, e))
  {
    if e.Attach? || e.Reattach? {
      assert Holders(s) == {};
      NobodyHolds(s);
      assert forall id :: id in s.rqs ==> PlaceOk(s.rqs[id], s.elevator);
    }
    var t := Step(s, e);
    forall id | id in t.rqs ensures PlaceOk(t.rqs[id], t.elevator) {
      assert id in s.rqs ==> PlaceOk(s.rqs[id], s.elevator);
    }
  }

  lemma SwitchStep(s: State, e: Event)
    requires Inv(s) && Enabled(s, e)
    ensures SwitchInv(Step(s, e))
  {
    HoldersStep(s, e);
    hide Holders;
  }

  lemma StepKeeps(s: State, e: Event)
    requires Inv(s) && Enabled(s, e)
    ensures Inv(Step(s, e))
  {
    CountStep(s, e);
    PlaceStep(s, e);
    SwitchStep(s, e);
  }

  /** The event hands private data only to the elevator that prepared it, and that elevator is alive. */
  ghost predicate Matched(s: State, e: Event) {
    match e
    case Prepare(id) => id in s.resv && s.resv[id] ==> s.elevator !in s.exited
    case Insert(id, barrier, sort) =>
      id in s.rqs && sort && !barrier && s.rqs[id].elvpriv ==> s.rqs[id].prep == s.elevator && s.elevator !in s.exited
    case Dispatch(id) => id in s.rqs ==> s.rqs[id].prep == s.elevator && s.elevator !in s.exited
    case MergedAway(id) => id in s.rqs ==> s.rqs[id].prep == s.elevator && s.elevator !in s.exited
    case Put(id) => id in s.rqs && s.rqs[id].elvpriv ==> s.rqs[id].prep == s.elevator && s.elevator !in s.exited
    case _ => true
  }

  /** No holder means free to switch; a holder pins the elevator; the flag stops the count from rising. */
  ghost predicate Guarded(s: State, t: State) {
    && (Holders(s) != {} ==> t.elevator == s.elevator)
    && (s.elvswitch ==> t.elvpriv <= s.elvpriv && Holders(t) <= Holders(s))
    && (t.elevator != s.elevator ==> Holders(t) == {} && forall id :: id in t.rqs ==> !t.rqs[id].place.Sorted?)
  }

  lemma StepIsMatched(s: State, e: Event)
    requires Inv(s) && Enabled(s, e)
    ensures Matched(s, e)
  {
    var id := match e { case Prepare(i) => i case Insert(i, _, _) => i case Dispatch(i) => i case MergedAway(i) => i
                        case Put(i) => i case _ => 0 };
    assert (id in s.resv && s.resv[id]) || (id in s.rqs && s.rqs[id].elvpriv) ==> id in Holders(s);
  }

  lemma StepIsGuarded(s: State, e: Event)
    requires Inv(s) && Enabled(s, e)
    ensures Guarded(s, Step(s, e))
  {
    HoldersStep(s, e);
    var t := Step(s, e);
    StepKeeps(s, e);
    if t.elevator != s.elevator {
      assert Holders(s) == {};
      forall id | id in t.rqs
        ensures !t.rqs[id].place.Sorted?
      {
        assert id !in Holders(s);
      }
    }
    hide Holders;
  }

  lemma {:induction false} RunKeeps(states: seq<State>, events: seq<Event>, n: nat)
    requires Run(states, events) && n < |states|
    ensures Inv(states[n])
    decreases n
  {
    if n == 0 {
      assert Holders(states[0]) == {};
    } else {
      RunKeeps(states, events, n - 1);
      StepKeeps(states[n - 1], events[n - 1]);
    }
  }

  /** A failed registration exits the new elevator while the queue still points at it. */
  lemma FailedSwitchKeepsExited(old': nat, new': nat) returns (states: seq<State>, events: seq<Event>)
    requires old' != new'
    ensures Run(states, events) && states[0].elevator == old' && states[|events|].elevator == new'
    ensures new' in states[|events|].exited && Holders(states[|events|]) == {}
  {
    var s0 := State(old', false, 0, map[], map[], {}, Idle);
    var s1 := s0.(elvswitch := true, switcher := Draining(new'));
    var s2 := s1.(elevator := new', switcher := Attached(old'));
    var s3 := s2.(exited := {new'}, switcher := Failing(old'));
    states, events := [s0, s1, s2, s3], [QuiesceStart(new'), Attach, RegisterFails];
    assert Step(s0, events[0]) == s1 && Step(s1, events[1]) == s2 && Step(s2, events[2]) == s3;
  }

  /**
   Over every run: the counter is exact, nothing outlives its elevator, the flag drains the old one, and
   the attached elevator has been exited exactly between a failed registration and going back.
   */
  lemma SwitchIsSound(states: seq<State>, events: seq<Event>)
    requires Run(states, events)
    ensures forall n :: 0 <= n < |states| ==> states[n].elvpriv == |Holders(states[n])| && PlaceInv(states[n])
    ensures forall n :: 0 <= n < |states| ==> (states[n].elevator in states[n].exited <==> states[n].switcher.Failing?)
    ensures forall n :: 0 <= n < |events| ==> Matched(states[n], events[n]) && Guarded(states[n], states[n + 1])
    ensures forall n :: 0 <= n < |events| && events[n].Insert? ==>
              var e := events[n];
              && e.id in states[n].rqs && e.id in states[n + 1].rqs
              && var sorts := e.sort && !e.barrier && states[n].rqs[e.id].elvpriv;
                 states[n + 1].rqs[e.id].place == if sorts then Sorted(states[n].elevator) else Dispatched
  {
    forall n | 0 <= n < |states|
      ensures Inv(states[n])
    {
      RunKeeps(states, events, n);
    }
    forall n | 0 <= n < |events|
      ensures Matched(states[n], events[n]) && Guarded(states[n], states[n + 1])
    {
      StepIsMatched(states[n], events[n]);
      StepIsGuarded(states[n], events[n]);
    }
  }
}
