/**
 The deadline I/O scheduler: per direction a list sorted by sector and a fifo ordered by
 expiry, batches of one direction, and a bound on how long writes are passed over.
 */
module Deadline {
  import opened Lists

  datatype Dir = Read | Write

  datatype Rq = Rq(pos: nat, expire: int)

  /** One direction: sort_list, fifo_list and next_rq. */
  datatype Side = Side(sort: seq<nat>, fifo: seq<nat>, next: Option<nat>)

  datatype Tunables = Tunables(fifoBatch: nat, writesStarved: nat, readExpire: nat, writeExpire: nat)

  /** out is what has gone to the dispatch queue, in order. */
  datatype State = State(read: Side, write: Side, rqs: map<nat, Rq>, batching: nat, starved: nat, now: int,
                         out: seq<nat>)

  function SideOf(s: State, d: Dir): (x: Side) { if d == Read then s.read else s.write }

  function WithSide(s: State, d: Dir, x: Side): (t: State) {
    if d == Read then s.(read := x) else s.(write := x)
  }

  function Other(d: Dir): (e: Dir) { if d == Read then Write else Read }

  function Expiry(t: Tunables, d: Dir): (n: nat) { if d == Read then t.readExpire else t.writeExpire }

  // ----- lists -----

  /** The element after x. */
  function After(l: seq<nat>, x: nat): (r: Option<nat>) {
    if l == [] then None
    else if l[0] == x then (if |l| > 1 then Some(l[1]) else None)
    else After(l[1..], x)
  }

  /** The element with the given sector. */
  function Find(l: seq<nat>, rqs: map<nat, Rq>, pos: nat): (r: Option<nat>) {
    if l == [] then None else if l[0] in rqs && rqs[l[0]].pos == pos then Some(l[0]) else Find(l[1..], rqs, pos)
  }

  /** Insertion by sector. */
  function Place(l: seq<nat>, rqs: map<nat, Rq>, x: nat): (r: seq<nat>)
    requires x in rqs
  {
    if l == [] || (l[0] in rqs && rqs[x].pos < rqs[l[0]].pos) then [x] + l else [l[0]] + Place(l[1..], rqs, x)
  }

  /** y takes the place of x. */
  function Replace(l: seq<nat>, x: nat, y: nat): (r: seq<nat>) {
    if l == [] then [] else if l[0] == x then [y] + l[1..] else [l[0]] + Replace(l[1..], x, y)
  }

  // ----- the operations -----

  /** deadline_remove_request */
  function Removed(x: Side, id: nat): (y: Side) {
    Side(Without(x.sort, id), Without(x.fifo, id), if x.next == Some(id) then After(x.sort, id) else x.next)
  }

  /** deadline_move_request */
  function Moved(s: State, d: Dir, id: nat): (t: State) {
    var x := SideOf(s, d).(next := After(SideOf(s, d).sort, id));
    var y := SideOf(s, Other(d)).(next := None);
    WithSide(WithSide(s, d, Removed(x, id)), Other(d), y).(out := s.out + [id])
  }

  /** deadline_add_rq_rb: a request already at that sector is dispatched first. */
  function AddedRb(s: State, d: Dir, id: nat): (t: State)
    requires id in s.rqs
  {
    var alias := Find(SideOf(s, d).sort, s.rqs, s.rqs[id].pos);
    var u := if alias.Some? then Moved(s, d, alias.value) else s;
    WithSide(u, d, SideOf(u, d).(sort := Place(SideOf(u, d).sort, s.rqs, id)))
  }

  /** deadline_add_request */
  function Added(s: State, t: Tunables, d: Dir, id: nat, pos: nat): (r: State) {
    var u := AddedRb(s.(rqs := s.rqs[id := Rq(pos, s.now + Expiry(t, d))]), d, id);
    WithSide(u, d, SideOf(u, d).(fifo := SideOf(u, d).fifo + [id]))
  }

  /** deadline_merged_request after a front merge: the request has moved to pos. */
  function Repositioned(s: State, d: Dir, id: nat, pos: nat): (r: State)
    requires id in s.rqs
  {
    var x := SideOf(s, d);
    AddedRb(WithSide(s, d, x.(sort := Without(x.sort, id))).(rqs := s.rqs[id := s.rqs[id].(pos := pos)]), d, id)
  }

  /** deadline_merged_requests: next goes away, its earlier expiry and place stay. */
  function Merged(s: State, d: Dir, id: nat, next: nat): (r: State)
    requires id in s.rqs && next in s.rqs
  {
    if s.rqs[next].expire < s.rqs[id].expire then
      var x := SideOf(s, d);
      var y := Side(Without(x.sort, next), Replace(Without(x.fifo, id), next, id),
                    if x.next == Some(next) then After(x.sort, next) else x.next);
      WithSide(s, d, y).(rqs := s.rqs[id := s.rqs[id].(expire := s.rqs[next].expire)])
    else WithSide(s, d, Removed(SideOf(s, d), next))
  }

  /** What deadline_dispatch_requests selects, and the counters it leaves. */
  datatype Pick = Nothing | Go(dir: Dir, id: nat, batching: nat, starved: nat)

  /** deadline_check_fifo: the head of the fifo has expired. */
  predicate Expired(s: State, d: Dir) {
    var f := SideOf(s, d).fifo;
    f != [] && f[0] in s.rqs && s.now > s.rqs[f[0]].expire
  }

  /** dispatch_find_request */
  function Best(s: State, d: Dir): (id: nat)
    requires SideOf(s, d).fifo != []
  {
    var x := SideOf(s, d);
    if Expired(s, d) || x.next == None then x.fifo[0] else x.next.value
  }

  function Picked(s: State, t: Tunables): (p: Pick) {
    if s.write.next.Some? && s.batching < t.fifoBatch then Go(Write, s.write.next.value, s.batching + 1, s.starved)
    else if !s.write.next.Some? && s.read.next.Some? && s.batching < t.fifoBatch then
      Go(Read, s.read.next.value, s.batching + 1, s.starved)
    else if s.read.fifo != [] then
      if s.write.fifo != [] && s.starved >= t.writesStarved then Go(Write, Best(s, Write), 1, 0)
      else Go(Read, Best(s, Read), 1, if s.write.fifo != [] then s.starved + 1 else s.starved)
    else if s.write.fifo != [] then Go(Write, Best(s, Write), 1, 0)
    else Nothing
  }

  /** deadline_dispatch_requests */
  function Dispatched(s: State, t: Tunables): (r: State) {
    match Picked(s, t)
    case Nothing => s
    case Go(d, id, batching, starved) => Moved(s, d, id).(batching := batching, starved := starved)
  }

  // ----- runs -----

  datatype Event =
    | Add(d: Dir, id: nat, pos: nat)
    | Dispatch
    | FrontMerged(d: Dir, id: nat, pos: nat)
    | MergedReqs(d: Dir, id: nat, next: nat)
    | Tick(ticks: nat)

  ghost predicate Enabled(s: State, e: Event) {
    match e
    case Add(d, id, pos) => id !in s.rqs
    case Dispatch => true
    case FrontMerged(d, id, pos) => id in s.rqs && id in SideOf(s, d).sort
    case MergedReqs(d, id, next) =>
      id in s.rqs && next in s.rqs && id in SideOf(s, d).sort && next in SideOf(s, d).sort && id != next
    case Tick(_) => true
  }

  function Step(s: State, t: Tunables, e: Event): (r: State)
    requires Enabled(s, e)
  {
    match e
    case Add(d, id, pos) => Added(s, t, d, id, pos)
    case Dispatch => Dispatched(s, t)
    case FrontMerged(d, id, pos) => Repositioned(s, d, id, pos)
    case MergedReqs(d, id, next) => Merged(s, d, id, next)
    case Tick(ticks) => s.(now := s.now + ticks)
  }

  ghost predicate Init(s: State) {
    s.read == Side([], [], None) && s.write == Side([], [], None) && s.rqs == map[] && s.batching == 0 && s.starved == 0
    && s.out == []
  }

  ghost predicate Run(t: Tunables, states: seq<State>, events: seq<Event>) {
    && |states| == |events| + 1 && Init(states[0])
    && forall i :: 0 <= i < |events| ==> Enabled(states[i], events[i]) && states[i + 1] == Step(states[i], t, events[i])
  }

  // ----- writes are not starved -----

  /** How many reads can still go before a pending write must. */
  function Credit(s: State, t: Tunables): (n: int) {
    (t.writesStarved - s.starved) * Max(1, t.fifoBatch) + Max(0, Max(1, t.fifoBatch) - s.batching)
  }

  predicate ReadGoes(s: State, t: Tunables, e: Event) {
    e.Dispatch? && Picked(s, t).Go? && Picked(s, t).dir == Read
  }

  predicate WriteGoes(s: State, t: Tunables, e: Event) {
    e.Dispatch? && Picked(s, t).Go? && Picked(s, t).dir == Write
  }

  /** The reads that deadline_dispatch_requests dispatches from step i up to step j. */
  function Reads(t: Tunables, states: seq<State>, events: seq<Event>, i: nat, j: nat): (n: nat)
    requires i <= j <= |events| && |states| == |events| + 1
    decreases j - i
  {
    if i == j then 0
    else (if ReadGoes(states[j - 1], t, events[j - 1]) then 1 else 0) + Reads(t, states, events, i, j - 1)
  }

  /** Alias insertions and merges leave the counters alone. */
  lemma CountersStep(s: State, t: Tunables, e: Event)
    requires Enabled(s, e)
    ensures !e.Dispatch? ==> Step(s, t, e).batching == s.batching && Step(s, t, e).starved == s.starved
    ensures s.starved <= t.writesStarved ==> Step(s, t, e).starved <= t.writesStarved
  {
  }

  lemma {:induction false} StarvedBound(t: Tunables, states: seq<State>, events: seq<Event>, n: nat)
    requires Run(t, states, events) && n < |states|
    ensures states[n].starved <= t.writesStarved
    decreases n
  {
    if n > 0 {
      StarvedBound(t, states, events, n - 1);
      CountersStep(states[n - 1], t, events[n - 1]);
    }
  }

  /** With a write pending, a dispatched read costs credit. */
  lemma CreditStep(s: State, t: Tunables, e: Event)
    requires Enabled(s, e) && s.starved <= t.writesStarved && s.write.fifo != [] && !WriteGoes(s, t, e)
    ensures Credit(Step(s, t, e), t) + (if ReadGoes(s, t, e) then 1 else 0) <= Credit(s, t)
  {
    CountersStep(s, t, e);
    hide Moved, Best, AddedRb;
    var b := Max(1, t.fifoBatch);
    var u := Step(s, t, e);
    if ReadGoes(s, t, e) {
      if u.starved == s.starved + 1 {
        assert (t.writesStarved - u.starved) * b == (t.writesStarved - s.starved) * b - b;
      }
    }
  }

  lemma {:induction false} CreditSpent(t: Tunables, states: seq<State>, events: seq<Event>, i: nat, j: nat)
    requires Run(t, states, events) && i <= j <= |events|
    requires forall k :: i <= k < j ==> states[k].write.fifo != [] && !WriteGoes(states[k], t, events[k])
    ensures Reads(t, states, events, i, j) + Credit(states[j], t) <= Credit(states[i], t)
    decreases j - i
  {
    hide Credit, Step, Picked;
    if i < j {
      CreditSpent(t, states, events, i, j - 1);
      StarvedBound(t, states, events, j - 1);
      CreditStep(states[j - 1], t, events[j - 1]);
    }
  }

  /**
   While some write is pending and none is dispatched, at most (writes_starved + 1) * max(1, fifo_batch)
   reads are, whatever is added or merged in between.
   */
  lemma WritesAreNotStarved(t: Tunables, states: seq<State>, events: seq<Event>, i: nat, j: nat)
    requires Run(t, states, events) && i <= j <= |events|
    requires forall k :: i <= k < j ==> states[k].write.fifo != [] && !WriteGoes(states[k], t, events[k])
    ensures Reads(t, states, events, i, j) <= (t.writesStarved + 1) * Max(1, t.fifoBatch)
  {
    CreditSpent(t, states, events, i, j);
    StarvedBound(t, states, events, i);
    StarvedBound(t, states, events, j);
    CreditRange(states[i], t);
    CreditRange(states[j], t);
    hide Credit, Reads;
  }

  lemma CreditRange(s: State, t: Tunables)
    requires s.starved <= t.writesStarved
    ensures 0 <= Credit(s, t) <= (t.writesStarved + 1) * Max(1, t.fifoBatch)
  {
    var b := Max(1, t.fifoBatch);
    var w := t.writesStarved;
    assert (w + 1) * b == w * b + b;
    assert 0 <= (w - s.starved) * b <= w * b by {
      assert (w - s.starved) * b == w * b - s.starved * b;
    }
  }
}
