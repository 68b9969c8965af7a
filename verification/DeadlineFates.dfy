/**
 Where every request of the deadline scheduler is, over time: queued in its direction, handed to the
 dispatch queue, or merged into another request.
 */
module DeadlineFates {
  import opened Lists
  import opened Deadline
  import opened DeadlineLists
  import opened DeadlineService

  /** Of the requests other than id, those at the sector leave the fifo, and go to the dispatch queue. */
  ghost predicate AliasGoes(fifo: seq<nat>, fifo': seq<nat>, rqs: map<nat, Rq>, id: nat, pos: nat,
                              out: seq<nat>, out': seq<nat>) {
    && (forall y :: y in fifo && y in rqs && y != id ==> (y in fifo' <==> rqs[y].pos != pos))
    && (forall y :: y in fifo' && y != id ==> y in fifo)
    && (out' == out || exists y :: LeavesAlone(fifo, fifo', id, y) && out' == out + [y])
    && (out' == out ==> forall y :: y in fifo && y in rqs && y != id ==> rqs[y].pos != pos)
  }

  /** y and no other leaves the fifo. */
  ghost predicate LeavesAlone(fifo: seq<nat>, fifo': seq<nat>, id: nat, y: nat) {
    y in fifo && y != id && y !in fifo' && forall z :: z in fifo && z != id && z != y ==> z in fifo'
  }

  ghost predicate OnlyAliasLeaves(s: State, r: State, d: Dir, id: nat, pos: nat) {
    && AliasGoes(SideOf(s, d).fifo, SideOf(r, d).fifo, s.rqs, id, pos, s.out, r.out)
    && SideOf(r, Other(d)).fifo == SideOf(s, Other(d)).fifo
  }

  lemma {:induction false} SectorsDiffer(l: seq<nat>, rqs: map<nat, Rq>, x: nat, y: nat)
    requires (forall z :: z in l ==> z in rqs) && Ascending(l, rqs) && x in l && y in l && x != y
    ensures rqs[x].pos != rqs[y].pos
  {
    Headed(l);
    if x != l[0] && y != l[0] {
      SectorsDiffer(l[1..], rqs, x, y);
    }
  }

  /** What is left of a fifo when the request that Find finds on the sorted list has gone. */
  function Cleared(sort: seq<nat>, fifo: seq<nat>, rqs: map<nat, Rq>, pos: nat): (f: seq<nat>) {
    var alias := Find(sort, rqs, pos);
    if alias.Some? then Without(fifo, alias.value) else fifo
  }

  function Dropped(sort: seq<nat>, rqs: map<nat, Rq>, pos: nat, out: seq<nat>): (o: seq<nat>) {
    var alias := Find(sort, rqs, pos);
    if alias.Some? then out + [alias.value] else out
  }

  lemma ClearedIs(sort: seq<nat>, fifo: seq<nat>, rqs: map<nat, Rq>, id: nat, pos: nat, out: seq<nat>)
    requires (forall y :: y in sort ==> y in fifo) && (forall y :: y in fifo ==> y in sort || y == id)
    requires NoDup(fifo) && (forall y :: y in fifo ==> y in rqs) && Ascending(sort, rqs) && id !in sort
    ensures AliasGoes(fifo, Cleared(sort, fifo, rqs, pos), rqs, id, pos, out, Dropped(sort, rqs, pos, out))
    ensures id in fifo ==> id in Cleared(sort, fifo, rqs, pos)
  {
    FindOk(sort, rqs, pos);
    WithoutOk(fifo, if Find(sort, rqs, pos).Some? then Find(sort, rqs, pos).value else 0);
    forall y | y in sort && Find(sort, rqs, pos).Some? && rqs[y].pos == pos
      ensures y == Find(sort, rqs, pos).value
    {
      if y != Find(sort, rqs, pos).value {
        SectorsDiffer(sort, rqs, y, Find(sort, rqs, pos).value);
      }
    }
    hide Find, Without, NoDup, Ascending;
    var alias := Find(sort, rqs, pos);
    if alias.Some? {
      assert LeavesAlone(fifo, Cleared(sort, fifo, rqs, pos), id, alias.value);
    }
  }

  /** Only the sectors of the requests in the fifo matter. */
  lemma AliasFrame(fifo: seq<nat>, fifo': seq<nat>, a: map<nat, Rq>, b: map<nat, Rq>, id: nat, pos: nat,
                   out: seq<nat>, out': seq<nat>)
    requires AliasGoes(fifo, fifo', a, id, pos, out, out')
    requires forall y :: y in fifo && y != id ==> (y in b ==> y in a && b[y].pos == a[y].pos)
    ensures AliasGoes(fifo, fifo', b, id, pos, out, out')
    ensures AliasGoes(fifo, fifo' + [id], b, id, pos, out, out')
  {
    forall y | LeavesAlone(fifo, fifo', id, y)
      ensures LeavesAlone(fifo, fifo' + [id], id, y)
    {
    }
  }

  lemma AddedLists(s: State, t: Tunables, d: Dir, id: nat, pos: nat)
    ensures var r := Added(s, t, d, id, pos); var x := SideOf(s, d); var now := s.rqs[id := Rq(pos, Late(s, t, d))];
      && SideOf(r, d).fifo == Cleared(x.sort, x.fifo, now, pos) + [id]
      && SideOf(r, Other(d)).fifo == SideOf(s, Other(d)).fifo
      && r.out == Dropped(x.sort, now, pos, s.out) && r.rqs == now
  {
    hide Find, Place, Without, After;
  }

  lemma AddFate(s: State, t: Tunables, d: Dir, id: nat, pos: nat)
    requires Inv(s, t) && id !in s.rqs
    ensures var r := Added(s, t, d, id, pos);
      && id in SideOf(r, d).fifo && OnlyAliasLeaves(s, r, d, id, pos)
      && r.rqs == s.rqs[id := Rq(pos, s.now + if d == Read then t.readExpire else t.writeExpire)]
  {
    var x := SideOf(s, d);
    var now := s.rqs[id := Rq(pos, Late(s, t, d))];
    Sides(s, t, d);
    AddedLists(s, t, d, id, pos);
    hide Added, Ascending, Aged, NoDup, Inv, SideOf, Cleared, Dropped, AliasGoes;
    SameOrder(x.sort, s.rqs, now);
    ClearedIs(x.sort, x.fifo, now, id, pos, s.out);
    AliasFrame(x.fifo, Cleared(x.sort, x.fifo, now, pos), now, s.rqs, id, pos, s.out, Dropped(x.sort, now, pos, s.out));
  }

  lemma RepositionedLists(s: State, d: Dir, id: nat, pos: nat)
    requires id in s.rqs
    ensures var r := Repositioned(s, d, id, pos); var x := SideOf(s, d);
            var now := s.rqs[id := s.rqs[id].(pos := pos)];
      && SideOf(r, d).fifo == Cleared(Without(x.sort, id), x.fifo, now, pos)
      && SideOf(r, Other(d)).fifo == SideOf(s, Other(d)).fifo
      && r.out == Dropped(Without(x.sort, id), now, pos, s.out) && r.rqs == now
  {
    hide Find, Place, Without, After;
  }

  /** A front merge moves the request to its new sector, where another one may have to go. */
  lemma RepositionFate(s: State, t: Tunables, d: Dir, id: nat, pos: nat)
    requires Inv(s, t) && id in s.rqs && id in SideOf(s, d).sort
    ensures var r := Repositioned(s, d, id, pos);
      id in SideOf(r, d).fifo && OnlyAliasLeaves(s, r, d, id, pos) && r.rqs == s.rqs[id := s.rqs[id].(pos := pos)]
  {
    var x := SideOf(s, d);
    var now := s.rqs[id := s.rqs[id].(pos := pos)];
    Sides(s, t, d);
    RepositionedLists(s, d, id, pos);
    hide Repositioned, Ascending, Aged, NoDup, Inv, SideOf, Cleared, Dropped, AliasGoes, Without;
    WithoutOrdered(x.sort, id, s.rqs);
    var sort := Without(x.sort, id);
    SameOrder(sort, s.rqs, now);
    ClearedIs(sort, x.fifo, now, id, pos, s.out);
    AliasFrame(x.fifo, Cleared(sort, x.fifo, now, pos), now, s.rqs, id, pos, s.out, Dropped(sort, now, pos, s.out));
  }

  /** One request goes, and the one that stays has the earlier of the two deadlines. */
  lemma MergeFate(s: State, t: Tunables, d: Dir, id: nat, next: nat)
    requires Inv(s, t) && id in s.rqs && next in s.rqs && id != next
    requires id in SideOf(s, d).sort && next in SideOf(s, d).sort
    ensures var r := Merged(s, d, id, next);
            var expire := if s.rqs[next].expire < s.rqs[id].expire then s.rqs[next].expire else s.rqs[id].expire;
      && (forall y :: y in SideOf(r, d).fifo <==> y in SideOf(s, d).fifo && y != next)
      && SideOf(r, Other(d)).fifo == SideOf(s, Other(d)).fifo
      && r.out == s.out && r.rqs == s.rqs[id := s.rqs[id].(expire := expire)]
  {
    var x := SideOf(s, d);
    Sides(s, t, d);
    MergedIs(s, d, id, next);
    assert Merged(s, d, id, next).out == s.out;
    hide Merged, Ascending, Aged, Inv, SideOf, Without, Replace, After, NoDup;
    WithoutOk(x.fifo, next);
    WithoutOk(x.fifo, id);
    ReplaceIs(Without(x.fifo, id), next, id);
  }

  lemma {:induction false} ReplaceIs(l: seq<nat>, x: nat, y: nat)
    requires NoDup(l)
    ensures forall z :: z in Replace(l, x, y) <==> (z in l && z != x) || (x in l && z == y)
  {
    hide NoDup;
    if l != [] {
      Headed(l);
      ReplaceIs(l[1..], x, y);
      Consed(y, l[1..]);
      Consed(l[0], Replace(l[1..], x, y));
    }
  }

  // ----- over every run -----

  /** The requests merged away in the first n steps. */
  function Gone(events: seq<Event>, n: nat): (g: set<nat>)
    requires n <= |events|
  {
    if n == 0 then {}
    else Gone(events, n - 1) + if events[n - 1].MergedReqs? then {events[n - 1].next} else {}
  }

  /** Every request is queued in one direction, dispatched once, or merged away, and only one of these. */
  ghost predicate Placed(x: seq<nat>, y: seq<nat>, out: seq<nat>, gone: set<nat>, ids: set<nat>) {
    && NoDup(out)
    && (forall id :: id in ids <==> id in x || id in y || id in out || id in gone)
    && (forall id :: id in x ==> id !in y && id !in out && id !in gone)
    && (forall id :: id in y ==> id !in out && id !in gone)
    && (forall id :: id in out ==> id !in gone)
  }

  ghost predicate Accounted(s: State, gone: set<nat>) {
    Placed(s.read.fifo, s.write.fifo, s.out, gone, s.rqs.Keys)
  }

  lemma EitherSide(s: State, gone: set<nat>, d: Dir)
    ensures Accounted(s, gone) <==> Placed(SideOf(s, d).fifo, SideOf(s, Other(d)).fifo, s.out, gone, s.rqs.Keys)
  {
  }

  lemma NoDupAppend(out: seq<nat>, y: nat)
    requires NoDup(out) && y !in out
    ensures NoDup(out + [y]) && forall z :: z in out + [y] <==> z in out || z == y
  {
  }

  /** One request leaves a fifo for the dispatch queue; id may come in. */
  lemma PlacedOut(x: seq<nat>, x': seq<nat>, y: seq<nat>, out: seq<nat>, gone: set<nat>, ids: set<nat>, id: nat, z: nat)
    requires Placed(x, y, out, gone, ids) && LeavesAlone(x, x', id, z) && (forall w :: w in x' && w != id ==> w in x)
    requires id in x' && (id in ids ==> id in x)
    ensures Placed(x', y, out + [z], gone, ids + {id})
  {
    NoDupAppend(out, z);
    hide NoDup;
  }

  lemma PlacedStay(x: seq<nat>, x': seq<nat>, y: seq<nat>, out: seq<nat>, gone: set<nat>, ids: set<nat>, id: nat)
    requires Placed(x, y, out, gone, ids) && (forall w :: w != id ==> (w in x' <==> w in x))
    requires id in x' && (id in ids ==> id in x)
    ensures Placed(x', y, out, gone, ids + {id})
  {
    hide NoDup;
  }

  lemma AliasPlaced(s: State, t: Tunables, r: State, d: Dir, id: nat, pos: nat, gone: set<nat>)
    requires Inv(s, t) && Accounted(s, gone) && OnlyAliasLeaves(s, r, d, id, pos) && id in SideOf(r, d).fifo
    requires r.rqs.Keys == s.rqs.Keys + {id} && (id in s.rqs ==> id in SideOf(s, d).fifo)
    ensures Accounted(r, gone)
  {
    Sides(s, t, d);
    EitherSide(s, gone, d);
    EitherSide(r, gone, d);
    var (x, x', y) := (SideOf(s, d).fifo, SideOf(r, d).fifo, SideOf(s, Other(d)).fifo);
    assert forall w :: w in x ==> w in s.rqs;
    hide Inv, Two, Accounted, Placed, SideOf;
    if r.out == s.out {
      PlacedStay(x, x', y, s.out, gone, s.rqs.Keys, id);
    } else {
      var z :| LeavesAlone(x, x', id, z) && r.out == s.out + [z];
      PlacedOut(x, x', y, s.out, gone, s.rqs.Keys, id, z);
    }
  }

  lemma SentPlaced(s: State, r: State, d: Dir, id: nat, gone: set<nat>)
    requires Accounted(s, gone) && Sends(s, r, d, id)
    ensures Accounted(r, gone)
  {
    EitherSide(s, gone, d);
    EitherSide(r, gone, d);
    NoDupAppend(s.out, id);
    hide NoDup, SideOf, Accounted;
  }

  lemma MergePlaced(s: State, t: Tunables, d: Dir, id: nat, next: nat, gone: set<nat>)
    requires Inv(s, t) && Enabled(s, MergedReqs(d, id, next)) && Accounted(s, gone)
    ensures Accounted(Merged(s, d, id, next), gone + {next})
  {
    MergeFate(s, t, d, id, next);
    Sides(s, t, d);
    assert next in SideOf(s, d).fifo;
    EitherSide(s, gone, d);
    EitherSide(Merged(s, d, id, next), gone + {next}, d);
    hide NoDup, SideOf, Accounted, Merged, Inv, Two, Placed;
    var r := Merged(s, d, id, next);
    PlacedGone(SideOf(s, d).fifo, SideOf(r, d).fifo, SideOf(s, Other(d)).fifo, s.out, gone, s.rqs.Keys, next);
    assert r.rqs.Keys == s.rqs.Keys;
  }

  lemma PlacedGone(x: seq<nat>, x': seq<nat>, y: seq<nat>, out: seq<nat>, gone: set<nat>, ids: set<nat>, next: nat)
    requires Placed(x, y, out, gone, ids) && next in x && forall w :: w in x' <==> w in x && w != next
    ensures Placed(x', y, out, gone + {next}, ids)
  {
    hide NoDup;
  }

  lemma StepAccounts(s: State, t: Tunables, e: Event, gone: set<nat>)
    requires Inv(s, t) && Enabled(s, e) && Accounted(s, gone)
    ensures Accounted(Step(s, t, e), if e.MergedReqs? then gone + {e.next} else gone)
  {
    hide Inv, Accounted, Added, Dispatched, Repositioned, Merged, OnlyAliasLeaves;
    match e
    case Add(d, id, pos) =>
      AddFate(s, t, d, id, pos);
      AliasPlaced(s, t, Added(s, t, d, id, pos), d, id, pos, gone);
    case Dispatch =>
      DispatchIs(s, t);
      hide Chosen, Counts, Scans, Sends;
      if Pending(s) {
        var d, id :| Sends(s, Dispatched(s, t), d, id);
        SentPlaced(s, Dispatched(s, t), d, id, gone);
      }
    case FrontMerged(d, id, pos) =>
      RepositionFate(s, t, d, id, pos);
      SortIsFifo(s, t, d, id);
      AliasPlaced(s, t, Repositioned(s, d, id, pos), d, id, pos, gone);
    case MergedReqs(d, id, next) => MergePlaced(s, t, d, id, next, gone);
    case Tick(n) => SameAccount(s, s.(now := s.now + n), gone);
  }

  lemma SortIsFifo(s: State, t: Tunables, d: Dir, id: nat)
    requires Inv(s, t) && id in SideOf(s, d).sort
    ensures id in SideOf(s, d).fifo
  {
    Sides(s, t, d);
  }

  lemma SameAccount(s: State, r: State, gone: set<nat>)
    requires Accounted(s, gone) && r == s.(now := r.now)
    ensures Accounted(r, gone)
  {
  }

  /** Over every run nothing is lost, dispatched twice, or dispatched after it was merged away. */
  lemma {:induction false} NothingIsLost(t: Tunables, states: seq<State>, events: seq<Event>, n: nat)
    requires Run(t, states, events) && n < |states|
    ensures Accounted(states[n], Gone(events, n))
    decreases n
  {
    if n > 0 {
      hide Inv, Accounted, Step;
      NothingIsLost(t, states, events, n - 1);
      RunKeeps(t, states, events, n - 1);
      assert Enabled(states[n - 1], events[n - 1]) && states[n] == Step(states[n - 1], t, events[n - 1]);
      hide Run, Enabled;
      StepAccounts(states[n - 1], t, events[n - 1], Gone(events, n - 1));
    }
  }
}
