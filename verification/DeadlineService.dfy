/**
 What the deadline scheduler dispatches and when: the direction it takes, the request it takes, and how
 long an expired request can be made to wait.
 */
module DeadlineService {
  import opened Lists
  import opened Deadline
  import opened DeadlineLists

  /** id leaves the lists of its direction for the end of the dispatch queue. */
  ghost predicate Sends(s: State, r: State, d: Dir, id: nat) {
    && id in SideOf(s, d).fifo && id !in SideOf(r, d).fifo && r.out == s.out + [id] && r.rqs == s.rqs
    && (forall y :: y != id ==> (y in SideOf(r, d).fifo <==> y in SideOf(s, d).fifo))
    && SideOf(r, Other(d)).fifo == SideOf(s, Other(d)).fifo
  }

  /** A batch is running: the scan has a next request and the batch is not used up. */
  ghost predicate InBatch(s: State, t: Tunables) {
    (s.read.next.Some? || s.write.next.Some?) && s.batching < t.fifoBatch
  }

  /** Outside a batch reads go first, unless writes wait that were passed over too often. */
  function Turn(s: State, t: Tunables): (d: Dir) {
    if s.read.fifo != [] && (s.write.fifo == [] || s.starved < t.writesStarved) then Read else Write
  }

  /** With an expired request, or at the end of a scan, the earliest deadline; otherwise the scan goes on. */
  ghost predicate Due(s: State, d: Dir, id: nat) {
    && id in s.rqs
    && (AnyExpired(s, d) || SideOf(s, d).next == None ==>
          forall y :: y in SideOf(s, d).fifo && y in s.rqs ==> s.rqs[id].expire <= s.rqs[y].expire)
    && (!AnyExpired(s, d) && SideOf(s, d).next.Some? ==> SideOf(s, d).next == Some(id))
  }

  ghost predicate Chosen(s: State, t: Tunables, d: Dir, id: nat) {
    if InBatch(s, t) then SideOf(s, d).next == Some(id) else d == Turn(s, t) && Due(s, d, id)
  }

  /** batching counts the requests of the batch, starved the times a pending write was passed over. */
  ghost predicate Counts(s: State, r: State, t: Tunables, d: Dir) {
    && r.batching == (if InBatch(s, t) then s.batching + 1 else 1)
    && r.starved == (if InBatch(s, t) then s.starved
                     else if d == Write then 0
                     else if s.write.fifo != [] then s.starved + 1 else s.starved)
  }

  /** The scan will go on with the next higher sector of the direction, if there is one. */
  ghost predicate Scans(s: State, r: State, d: Dir, id: nat) {
    && SideOf(r, Other(d)).next == None
    && (var next := SideOf(r, d).next;
        if next.None? then
          forall y :: y in SideOf(s, d).sort && y in s.rqs && id in s.rqs ==> s.rqs[y].pos <= s.rqs[id].pos
        else
          && next.value in SideOf(r, d).sort && next.value in s.rqs && id in s.rqs
          && s.rqs[next.value].pos > s.rqs[id].pos
          && forall y :: y in SideOf(s, d).sort && y in s.rqs && s.rqs[y].pos > s.rqs[id].pos ==>
               s.rqs[next.value].pos <= s.rqs[y].pos)
  }

  ghost predicate Pending(s: State) { s.read.fifo != [] || s.write.fifo != [] }

  /** deadline_dispatch_requests: exactly one request goes if any is pending, and it is the right one. */
  ghost predicate DispatchOk(s: State, r: State, t: Tunables) {
    if !Pending(s) then r == s
    else exists d, id :: Sends(s, r, d, id) && Chosen(s, t, d, id) && Counts(s, r, t, d) && Scans(s, r, d, id)
  }

  /** What a side is left with when id goes. */
  lemma LeftIs(x: Side, rqs: map<nat, Rq>, late: int, id: nat)
    requires SideOk(x, rqs, late) && id in x.sort
    ensures var y := Left(x, id);
      && id in x.fifo && (forall z :: z in y.fifo <==> z in x.fifo && z != id)
      && (forall z :: z in y.sort <==> z in x.sort && z != id) && y.next == After(x.sort, id) && y.next != Some(id)
  {
    hide Ascending, Aged, NoDup, Without, After;
    WithoutOrdered(x.sort, id, rqs);
    WithoutOrdered(x.fifo, id, rqs);
    AfterOk(x.sort, id);
  }

  lemma MovedSends(s: State, t: Tunables, d: Dir, id: nat)
    requires Inv(s, t) && id in SideOf(s, d).sort
    ensures Sends(s, Moved(s, d, id), d, id) && Scans(s, Moved(s, d, id), d, id)
  {
    var x := SideOf(s, d);
    Sides(s, t, d);
    MovedIs(s, d, id);
    assert Moved(s, d, id).out == s.out + [id];
    hide Inv, Moved, SideOf, Left, After, Ascending, Aged, NoDup;
    LeftIs(x, s.rqs, Late(s, t, d), id);
    AfterIsNext(x.sort, s.rqs, id);
  }

  lemma BatchIsChosen(s: State, t: Tunables)
    requires Inv(s, t) && InBatch(s, t)
    ensures Picked(s, t).Go?
    ensures var p := Picked(s, t); SideOf(s, p.dir).next == Some(p.id) && p.id in SideOf(s, p.dir).sort && Pending(s)
    ensures Picked(s, t).batching == s.batching + 1 && Picked(s, t).starved == s.starved
  {
    NextIsQueued(s, t);
    hide Inv, Best;
  }

  lemma TurnIsChosen(s: State, t: Tunables)
    requires Inv(s, t) && !InBatch(s, t)
    ensures Picked(s, t).Go? <==> Pending(s)
    ensures Pending(s) ==>
      var p := Picked(s, t);
      && p.dir == Turn(s, t) && SideOf(s, p.dir).fifo != [] && p.id == Best(s, p.dir) && p.batching == 1
      && p.starved == if p.dir == Write then 0 else if s.write.fifo != [] then s.starved + 1 else s.starved
  {
    hide Inv, Best;
  }

  /** What is picked is queued, in the direction whose turn it is. */
  lemma PickedIsChosen(s: State, t: Tunables)
    requires Inv(s, t)
    ensures Picked(s, t).Nothing? <==> !Pending(s)
    ensures Picked(s, t).Go? ==>
      var p := Picked(s, t);
      && p.id in SideOf(s, p.dir).sort && Chosen(s, t, p.dir, p.id)
      && Counts(s, Moved(s, p.dir, p.id).(batching := p.batching, starved := p.starved), t, p.dir)
  {
    hide Inv, Picked, Best, AnyExpired, Moved, Turn;
    if InBatch(s, t) {
      BatchIsChosen(s, t);
    } else {
      TurnIsChosen(s, t);
      if Pending(s) { BestMeetsDeadlines(s, t, Picked(s, t).dir); }
    }
  }

  lemma NextIsQueued(s: State, t: Tunables)
    requires Inv(s, t)
    ensures forall d :: SideOf(s, d).next.Some? ==>
              SideOf(s, d).next.value in SideOf(s, d).sort && SideOf(s, d).fifo != []
    ensures s.read.next.None? || s.write.next.None?
  {
    hide Ascending, Aged, NoDup;
  }

  lemma DispatchIs(s: State, t: Tunables)
    requires Inv(s, t)
    ensures DispatchOk(s, Dispatched(s, t), t)
  {
    hide Inv, Chosen, Counts, Scans, Moved, Pending;
    PickedIsChosen(s, t);
    var p := Picked(s, t);
    if p.Go? {
      MovedSends(s, t, p.dir, p.id);
      var m := Moved(s, p.dir, p.id);
      SameLists(s, m, Dispatched(s, t), p.dir, p.id);
      assert Sends(s, Dispatched(s, t), p.dir, p.id);
    }
  }

  lemma SameLists(s: State, m: State, r: State, d: Dir, id: nat)
    requires Sends(s, m, d, id) && Scans(s, m, d, id) && r == m.(batching := r.batching, starved := r.starved)
    ensures Sends(s, r, d, id) && Scans(s, r, d, id)
  {
  }

  // ----- nobody waits too long -----

  /** The dispatches from step i up to step j. */
  function Dispatches(events: seq<Event>, i: nat, j: nat): (n: nat)
    requires i <= j <= |events|
    decreases j - i
  {
    if i == j then 0 else (if events[j - 1].Dispatch? then 1 else 0) + Dispatches(events, i, j - 1)
  }

  ghost predicate SendsWrite(s: State, r: State) { exists id :: Sends(s, r, Write, id) }

  lemma WriteGoesIsSent(s: State, t: Tunables)
    requires Inv(s, t) && WriteGoes(s, t, Dispatch)
    ensures SendsWrite(s, Dispatched(s, t))
  {
    hide Inv, Picked, Moved, Chosen, Counts, Sends;
    PickedIsChosen(s, t);
    var p := Picked(s, t);
    MovedSends(s, t, p.dir, p.id);
    SameLists(s, Moved(s, p.dir, p.id), Dispatched(s, t), p.dir, p.id);
  }

  lemma {:induction false} AllReads(t: Tunables, states: seq<State>, events: seq<Event>, i: nat, j: nat)
    requires Run(t, states, events) && i <= j <= |events|
    requires forall k :: i <= k < j ==> states[k].write.fifo != [] && !WriteGoes(states[k], t, events[k])
    ensures Reads(t, states, events, i, j) == Dispatches(events, i, j)
    decreases j - i
  {
    if i < j {
      AllReads(t, states, events, i, j - 1);
      RunKeeps(t, states, events, j - 1);
      PickedIsChosen(states[j - 1], t);
    }
  }

  /** A write goes before more than (writes_starved + 1) * max(1, fifo_batch) dispatches have passed it by. */
  lemma WriteGoesInTime(t: Tunables, states: seq<State>, events: seq<Event>, i: nat, j: nat)
    requires Run(t, states, events) && i <= j <= |events|
    requires forall k :: i <= k < j ==> states[k].write.fifo != []
    requires Dispatches(events, i, j) > (t.writesStarved + 1) * Max(1, t.fifoBatch)
    ensures exists k :: i <= k < j && events[k].Dispatch? && SendsWrite(states[k], states[k + 1])
  {
    if forall k :: i <= k < j ==> !WriteGoes(states[k], t, events[k]) {
      AllReads(t, states, events, i, j);
      WritesAreNotStarved(t, states, events, i, j);
      assert false;
    }
    var k :| i <= k < j && WriteGoes(states[k], t, events[k]);
    RunKeeps(t, states, events, k);
    WriteGoesIsSent(states[k], t);
    hide Inv, SendsWrite;
    assert events[k].Dispatch? && states[k + 1] == Dispatched(states[k], t);
  }

  /** The oldest write has expired and is still waiting. */
  ghost predicate Overdue(s: State, x: nat) {
    s.write.fifo != [] && s.write.fifo[0] == x && x in s.rqs && s.now > s.rqs[x].expire
  }

  /** While the oldest write is overdue and stays, a dispatch costs credit, whatever it sends. */
  lemma OverdueCosts(s: State, t: Tunables, x: nat)
    requires Inv(s, t) && s.starved <= t.writesStarved && Overdue(s, x) && Overdue(Dispatched(s, t), x)
    ensures Credit(Dispatched(s, t), t) + 1 <= Credit(s, t)
  {
    PickedIsChosen(s, t);
    var p := Picked(s, t);
    if InBatch(s, t) {
      BatchIsChosen(s, t);
      BatchCredit(s, t, Dispatched(s, t));
    } else {
      TurnIsChosen(s, t);
      MovedSends(s, t, p.dir, p.id);
      SameLists(s, Moved(s, p.dir, p.id), Dispatched(s, t), p.dir, p.id);
      assert x in SideOf(Dispatched(s, t), Write).fifo;
      assert p.dir == Read;
      CreditStep(s, t, Dispatch);
    }
  }

  lemma BatchCredit(s: State, t: Tunables, r: State)
    requires s.batching < t.fifoBatch && r.batching == s.batching + 1 && r.starved == s.starved
    ensures Credit(r, t) + 1 <= Credit(s, t)
  {
  }

  lemma OverdueStep(t: Tunables, states: seq<State>, events: seq<Event>, k: nat, x: nat)
    requires Run(t, states, events) && k < |events| && Overdue(states[k], x) && Overdue(states[k + 1], x)
    ensures (if events[k].Dispatch? then 1 else 0) + Credit(states[k + 1], t) <= Credit(states[k], t)
  {
    StarvedBound(t, states, events, k);
    RunKeeps(t, states, events, k);
    hide Credit, Overdue, Inv;
    assert states[k + 1] == Step(states[k], t, events[k]);
    if events[k].Dispatch? {
      hide Dispatched;
      OverdueCosts(states[k], t, x);
    } else {
      CountersStep(states[k], t, events[k]);
      hide Step;
      SameCredit(states[k], states[k + 1], t);
    }
  }

  lemma {:induction false} OverdueSpent(t: Tunables, states: seq<State>, events: seq<Event>, i: nat, j: nat, x: nat)
    requires Run(t, states, events) && i <= j <= |events| && |states| == |events| + 1
    requires forall k :: i <= k <= j ==> Overdue(states[k], x)
    ensures Dispatches(events, i, j) + Credit(states[j], t) <= Credit(states[i], t)
    decreases j - i
  {
    hide Credit, Overdue, Run;
    if i < j {
      OverdueSpent(t, states, events, i, j - 1, x);
      assert Overdue(states[j - 1], x) && Overdue(states[j], x);
      OverdueStep(t, states, events, j - 1, x);
    }
  }

  lemma SameCredit(s: State, r: State, t: Tunables)
    requires r.batching == s.batching && r.starved == s.starved
    ensures Credit(r, t) == Credit(s, t)
  {
  }

  /** The oldest write, once it has expired, is passed by no more than that many dispatches of either direction. */
  lemma ExpiredWriteGoesInTime(t: Tunables, states: seq<State>, events: seq<Event>, i: nat, j: nat, x: nat)
    requires Run(t, states, events) && i <= j <= |events|
    requires forall k :: i <= k <= j ==> Overdue(states[k], x)
    ensures Dispatches(events, i, j) <= (t.writesStarved + 1) * Max(1, t.fifoBatch)
  {
    OverdueSpent(t, states, events, i, j, x);
    StarvedBound(t, states, events, i);
    StarvedBound(t, states, events, j);
    CreditRange(states[i], t);
    CreditRange(states[j], t);
    hide Credit, Dispatches;
  }
}
