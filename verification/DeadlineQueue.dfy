/**
 The routines of the deadline scheduler, updating its lists in place.
 */
module DeadlineQueue {
  import opened Lists
  import opened Deadline
  import opened DeadlineLists
  import opened DeadlineService

  /** struct deadline_data */
  class DeadlineData {
    var read: Side
    var write: Side
    var rqs: map<nat, Rq>
    var batching: nat
    var starved: nat
    var now: int
    var out: seq<nat>

    ghost function View(): (s: State)
      reads this
    {
      State(read, write, rqs, batching, starved, now, out)
    }

    function SideAt(d: Dir): (x: Side)
      reads this
      ensures x == SideOf(View(), d)
    {
      if d == Read then read else write
    }

    method SetSide(d: Dir, x: Side)
      modifies this`read, this`write
      ensures View() == WithSide(old(View()), d, x)
    {
      if d == Read {
        read := x;
      } else {
        write := x;
      }
    }

    /** deadline_move_request, down to deadline_remove_request. */
    method MoveRequest(d: Dir, id: nat)
      modifies this`read, this`write, this`out
      ensures View() == Moved(old(View()), d, id)
    {
      read := read.(next := None);
      write := write.(next := None);
      var x := SideAt(d);
      x := x.(next := After(x.sort, id));
      x := x.(fifo := Without(x.fifo, id));
      if x.next == Some(id) {
        x := x.(next := After(x.sort, id));
      }
      x := x.(sort := Without(x.sort, id));
      SetSide(d, x);
      out := out + [id];
    }

    /** deadline_add_rq_rb: as long as the sector is taken, what has it is dispatched. */
    method AddRqRb(t: Tunables, d: Dir, id: nat)
      requires id in rqs
      requires MidAt(View(), t, d, id)
      modifies this`read, this`write, this`out
      ensures View() == AddedRb(old(View()), d, id)
    {
      ghost var s := View();
      var alias := Find(SideAt(d).sort, rqs, rqs[id].pos);
      AliasGone(s, t, d, id);
      ghost var first := true;
      while alias.Some?
        invariant alias == Find(SideOf(View(), d).sort, rqs, rqs[id].pos)
        invariant first ==> View() == s
        invariant !first ==> alias == None && Find(SideOf(s, d).sort, s.rqs, s.rqs[id].pos).Some?
        invariant !first ==> View() == Moved(s, d, Find(SideOf(s, d).sort, s.rqs, s.rqs[id].pos).value)
        decreases first
      {
        hide Moved, Find;
        MoveRequest(d, alias.value);
        alias := Find(SideAt(d).sort, rqs, rqs[id].pos);
        first := false;
      }
      hide Moved, Find, Place;
      var x := SideAt(d);
      SetSide(d, x.(sort := Place(x.sort, rqs, id)));
    }

    /** deadline_add_request */
    method AddRequest(t: Tunables, d: Dir, id: nat, pos: nat)
      requires Inv(View(), t) && id !in rqs
      modifies this
      ensures View() == Added(old(View()), t, d, id, pos) && Inv(View(), t)
    {
      ghost var s := View();
      hide Inv, MidAt, Added, AddedRb, SideOf, WithSide, Expiry, SideAt;
      AddMid(s, t, d, id, pos);
      rqs := rqs[id := Rq(pos, now + Expiry(t, d))];
      AddRqRb(t, d, id);
      var x := SideAt(d);
      SetSide(d, x.(fifo := x.fifo + [id]));
      AddedByParts(s, t, d, id, pos);
      AddKeeps(s, t, d, id, pos);
    }

    /** deadline_merged_request after a front merge. */
    method MergedRequest(t: Tunables, d: Dir, id: nat, pos: nat)
      requires Inv(View(), t) && id in rqs && id in SideOf(View(), d).sort
      modifies this
      ensures View() == Repositioned(old(View()), d, id, pos) && Inv(View(), t)
    {
      ghost var s := View();
      RepositionKeeps(s, t, d, id, pos);
      hide Inv, MidAt, AddedRb, SideOf, WithSide, Without, SideAt;
      RepositionMid(s, t, d, id, pos);
      var x := SideAt(d);
      SetSide(d, x.(sort := Without(x.sort, id)));
      SameRqs(s, d, x.(sort := Without(x.sort, id)));
      rqs := rqs[id := rqs[id].(pos := pos)];
      AddRqRb(t, d, id);
    }

    /** deadline_merged_requests */
    method MergedRequests(t: Tunables, d: Dir, id: nat, next: nat)
      requires Inv(View(), t) && id in rqs && next in rqs && id != next
      requires id in SideOf(View(), d).sort && next in SideOf(View(), d).sort
      modifies this
      ensures View() == Merged(old(View()), d, id, next) && Inv(View(), t)
    {
      MergeKeeps(View(), t, d, id, next);
      hide Inv, Without, After, Replace;
      var x := SideAt(d);
      if rqs[next].expire < rqs[id].expire {
        x := x.(fifo := Replace(Without(x.fifo, id), next, id));
        rqs := rqs[id := rqs[id].(expire := rqs[next].expire)];
      } else {
        x := x.(fifo := Without(x.fifo, next));
      }
      if x.next == Some(next) {
        x := x.(next := After(x.sort, next));
      }
      SetSide(d, x.(sort := Without(x.sort, next)));
    }

    /** deadline_check_fifo: looking at the head alone tells whether any request of the fifo has expired. */
    predicate CheckFifo(ghost t: Tunables, d: Dir)
      requires Inv(View(), t)
      reads this
      ensures CheckFifo(t, d) <==> AnyExpired(View(), d)
    {
      HeadTells(View(), t, d);
      var f := SideAt(d).fifo;
      f != [] && f[0] in rqs && now > rqs[f[0]].expire
    }

    /** dispatch_find_request in deadline_dispatch_requests. */
    function FindRequest(ghost t: Tunables, d: Dir): (id: nat)
      requires Inv(View(), t) && SideOf(View(), d).fifo != []
      reads this
      ensures id == Best(View(), d)
    {
      HeadTells(View(), t, d);
      var x := SideAt(d);
      if CheckFifo(t, d) || x.next == None then x.fifo[0] else x.next.value
    }

    /** The selection of deadline_dispatch_requests, with the counters it leaves. */
    method SelectRequest(t: Tunables) returns (p: Pick)
      requires Inv(View(), t)
      ensures p == Picked(View(), t) && (p.Nothing? <==> read.fifo == [] && write.fifo == [])
      ensures p.Go? ==> p.id in SideOf(View(), p.dir).sort && Chosen(View(), t, p.dir, p.id)
    {
      PickedIsChosen(View(), t);
      hide Inv, Best, Expired, FindRequest, CheckFifo;
      var hasReads, hasWrites := read.fifo != [], write.fifo != [];
      var rq, d := read.next, Read;
      if write.next.Some? {
        rq, d := write.next, Write;
      }
      if rq.Some? && batching < t.fifoBatch {
        return Go(d, rq.value, batching + 1, starved);
      }
      var passed := starved;
      d := Read;
      if hasReads {
        if hasWrites {
          if starved >= t.writesStarved {
            d := Write;
          }
          passed := starved + 1;
        }
      } else if hasWrites {
        d := Write;
      } else {
        return Nothing;
      }
      if d == Write {
        passed := 0;
      }
      return Go(d, FindRequest(t, d), 1, passed);
    }

    /** deadline_dispatch_requests: 0 or 1 requests go to the dispatch queue. */
    method DispatchRequests(t: Tunables) returns (n: nat)
      requires Inv(View(), t)
      modifies this
      ensures View() == Dispatched(old(View()), t) && Inv(View(), t)
      ensures n == if old(read.fifo) != [] || old(write.fifo) != [] then 1 else 0
      ensures DispatchOk(old(View()), View(), t)
    {
      DispatchIs(View(), t);
      DispatchKeeps(View(), t);
      hide Inv, Moved, Picked;
      var p := SelectRequest(t);
      if p.Nothing? {
        return 0;
      }
      batching, starved := p.batching, p.starved;
      MoveRequest(p.dir, p.id);
      CountersApart(old(View()), p.dir, p.id, p.batching, p.starved);
      n := 1;
    }
  }

  lemma CountersApart(s: State, d: Dir, id: nat, batching: nat, starved: nat)
    ensures Moved(s.(batching := batching, starved := starved), d, id)
         == Moved(s, d, id).(batching := batching, starved := starved)
  {
  }

  lemma SameRqs(s: State, d: Dir, x: Side)
    ensures WithSide(s, d, x).rqs == s.rqs
  {
  }

  /** No two requests of a direction share a sector: one dispatch clears the way. */
  lemma AliasGone(s: State, t: Tunables, d: Dir, id: nat)
    requires id in s.rqs
    requires MidAt(s, t, d, id)
    ensures var alias := Find(SideOf(s, d).sort, s.rqs, s.rqs[id].pos);
      alias.Some? ==> Find(SideOf(Moved(s, d, alias.value), d).sort, s.rqs, s.rqs[id].pos) == None
  {
    var x := SideOf(s, d);
    MidFind(x, s.rqs, Late(s, t, d), id);
    var alias := Find(x.sort, s.rqs, s.rqs[id].pos);
    if alias.Some? {
      AliasLeaves(x, s.rqs, Late(s, t, d), id, alias.value);
      MovedIs(s, d, alias.value);
      FindOk(Left(x, alias.value).sort, s.rqs, s.rqs[id].pos);
    }
  }
}
