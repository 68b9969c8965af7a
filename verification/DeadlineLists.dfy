/**
 What the lists of the deadline scheduler keep to through every run.
 */
module DeadlineLists {
  import opened Lists
  import opened Deadline

  // ----- lists of requests -----

  /** Sorted by sector, no two alike. */
  ghost predicate Ascending(l: seq<nat>, rqs: map<nat, Rq>)
    requires forall y :: y in l ==> y in rqs
  {
    l == [] || ((forall y :: y in l[1..] ==> rqs[l[0]].pos < rqs[y].pos) && Ascending(l[1..], rqs))
  }

  /** Sorted by expiry. */
  ghost predicate Aged(l: seq<nat>, rqs: map<nat, Rq>)
    requires forall y :: y in l ==> y in rqs
  {
    l == [] || ((forall y :: y in l[1..] ==> rqs[l[0]].expire <= rqs[y].expire) && Aged(l[1..], rqs))
  }

  lemma Headed(l: seq<nat>)
    requires l != []
    ensures forall y :: y in l <==> y == l[0] || y in l[1..]
    ensures NoDup(l) <==> l[0] !in l[1..] && NoDup(l[1..])
  {
    assert l == [l[0]] + l[1..];
    NoDupCons(l[0], l[1..]);
  }

  lemma Consed(x: nat, l: seq<nat>)
    ensures ([x] + l)[0] == x && ([x] + l)[1..] == l && forall y :: y in [x] + l <==> y == x || y in l
    ensures NoDup([x] + l) <==> x !in l && NoDup(l)
  {
    NoDupCons(x, l);
  }

  lemma {:induction false} WithoutOrdered(l: seq<nat>, x: nat, rqs: map<nat, Rq>)
    requires NoDup(l) && forall y :: y in l ==> y in rqs
    ensures NoDup(Without(l, x)) && (forall y :: y in Without(l, x) <==> y in l && y != x)
    ensures Ascending(l, rqs) ==> Ascending(Without(l, x), rqs)
    ensures Aged(l, rqs) ==> Aged(Without(l, x), rqs)
  {
    hide NoDup;
    WithoutOk(l, x);
    if l != [] {
      Headed(l);
      WithoutOrdered(l[1..], x, rqs);
      Consed(l[0], Without(l[1..], x));
    }
  }

  lemma {:induction false} AfterOk(l: seq<nat>, x: nat)
    requires NoDup(l)
    ensures After(l, x).Some? ==> After(l, x).value in l && After(l, x).value != x
  {
    if l != [] {
      Headed(l);
      hide NoDup;
      AfterOk(l[1..], x);
    }
  }

  lemma {:induction false} FindOk(l: seq<nat>, rqs: map<nat, Rq>, pos: nat)
    requires forall y :: y in l ==> y in rqs
    ensures Find(l, rqs, pos).Some? ==> Find(l, rqs, pos).value in l && rqs[Find(l, rqs, pos).value].pos == pos
    ensures Find(l, rqs, pos) == None ==> forall y :: y in l ==> rqs[y].pos != pos
  {
    if l != [] {
      Headed(l);
      FindOk(l[1..], rqs, pos);
    }
  }

  lemma {:induction false} PlaceOk(l: seq<nat>, rqs: map<nat, Rq>, x: nat)
    requires x in rqs && x !in l && NoDup(l) && (forall y :: y in l ==> y in rqs && rqs[y].pos != rqs[x].pos)
    requires Ascending(l, rqs)
    ensures NoDup(Place(l, rqs, x)) && (forall y :: y in Place(l, rqs, x) <==> y == x || y in l)
    ensures Ascending(Place(l, rqs, x), rqs)
  {
    hide NoDup;
    if l == [] || rqs[x].pos < rqs[l[0]].pos {
      Consed(x, l);
      if l != [] {
        Headed(l);
      }
    } else {
      Headed(l);
      PlaceOk(l[1..], rqs, x);
      Consed(l[0], Place(l[1..], rqs, x));
    }
  }

  lemma {:induction false} AppendOk(l: seq<nat>, rqs: map<nat, Rq>, x: nat)
    requires x in rqs && x !in l && NoDup(l) && (forall y :: y in l ==> y in rqs && rqs[y].expire <= rqs[x].expire)
    requires Aged(l, rqs)
    ensures NoDup(l + [x]) && Aged(l + [x], rqs) && (forall y :: y in l + [x] <==> y in l || y == x)
  {
    if l != [] {
      Headed(l);
      AppendOk(l[1..], rqs, x);
      assert (l + [x])[1..] == l[1..] + [x];
      Headed(l + [x]);
      hide NoDup;
    } else {
      assert (l + [x])[1..] == [];
    }
  }

  /** y takes over place and expiry of x. */
  lemma {:induction false} ReplaceOk(l: seq<nat>, rqs: map<nat, Rq>, x: nat, y: nat)
    requires NoDup(l) && y !in l && y in rqs && x in rqs && rqs[y].expire == rqs[x].expire
    requires (forall z :: z in l ==> z in rqs) && Aged(l, rqs)
    ensures NoDup(Replace(l, x, y))
    ensures forall z :: z in Replace(l, x, y) <==> (z in l && z != x) || (x in l && z == y)
    ensures Aged(Replace(l, x, y), rqs)
  {
    hide NoDup;
    if l != [] {
      Headed(l);
      if l[0] == x {
        Consed(y, l[1..]);
      } else {
        ReplaceOk(l[1..], rqs, x, y);
        Consed(l[0], Replace(l[1..], x, y));
      }
    }
  }

  /** The order of a list depends on its members only. */
  lemma {:induction false} SameOrder(l: seq<nat>, a: map<nat, Rq>, b: map<nat, Rq>)
    requires forall y :: y in l ==> y in a && y in b
    ensures (forall y :: y in l ==> a[y].pos == b[y].pos) && Ascending(l, a) ==> Ascending(l, b)
    ensures (forall y :: y in l ==> a[y].expire == b[y].expire) && Aged(l, a) ==> Aged(l, b)
  {
    if l != [] {
      Headed(l);
      SameOrder(l[1..], a, b);
    }
  }

  /** The head of the fifo has the earliest expiry. */
  lemma HeadIsEarliest(l: seq<nat>, rqs: map<nat, Rq>, y: nat)
    requires (forall z :: z in l ==> z in rqs) && Aged(l, rqs) && y in l
    ensures rqs[l[0]].expire <= rqs[y].expire
  {
    Headed(l);
  }

  lemma {:induction false} OnePerSector(l: seq<nat>, rqs: map<nat, Rq>, x: nat, y: nat)
    requires (forall z :: z in l ==> z in rqs) && Ascending(l, rqs) && x in l && y in l && rqs[x].pos == rqs[y].pos
    ensures x == y
  {
    Headed(l);
    if x != l[0] && y != l[0] {
      OnePerSector(l[1..], rqs, x, y);
    }
  }

  // ----- one direction -----

  /** Both lists hold the same requests, each in its order, none expiring after late; next_rq is one of them. */
  ghost predicate SideOk(x: Side, rqs: map<nat, Rq>, late: int) {
    && NoDup(x.sort) && NoDup(x.fifo) && (forall y :: y in x.sort <==> y in x.fifo)
    && (forall y :: y in x.fifo ==> y in rqs && rqs[y].expire <= late)
    && Ascending(x.sort, rqs) && Aged(x.fifo, rqs)
    && (x.next.Some? ==> x.next.value in x.sort)
  }

  /** The same, while id is off the sorted list. */
  ghost predicate SideMid(x: Side, rqs: map<nat, Rq>, late: int, id: nat) {
    && NoDup(x.sort) && NoDup(x.fifo) && id !in x.sort && id in rqs
    && (forall y :: y in x.sort ==> y in x.fifo)
    && (forall y :: y in x.fifo ==> y in rqs && rqs[y].expire <= late && (y in x.sort || y == id))
    && Ascending(x.sort, rqs) && Aged(x.fifo, rqs)
    && (x.next.Some? ==> x.next.value in x.sort || x.next.value == id)
  }

  lemma RemovedOk(x: Side, rqs: map<nat, Rq>, late: int, id: nat)
    requires SideOk(x, rqs, late)
    ensures SideOk(Removed(x, id), rqs, late)
    ensures forall y :: y in Removed(x, id).sort <==> y in x.sort && y != id
  {
    WithoutOrdered(x.sort, id, rqs);
    WithoutOrdered(x.fifo, id, rqs);
    AfterOk(x.sort, id);
    hide Ascending, Aged, NoDup, Without, After;
  }

  /** deadline_move_request on the side of the request. */
  function Left(x: Side, id: nat): (y: Side) { Removed(x.(next := After(x.sort, id)), id) }

  lemma LeftOk(x: Side, rqs: map<nat, Rq>, late: int, id: nat)
    requires SideOk(x, rqs, late)
    ensures SideOk(Left(x, id), rqs, late)
    ensures forall y :: y in Left(x, id).sort <==> y in x.sort && y != id
  {
    AfterOk(x.sort, id);
    hide Ascending, Aged, NoDup, Without, After;
    RemovedOk(x.(next := After(x.sort, id)), rqs, late, id);
  }

  /** A request that shares the sector of id leaves: nothing else does. */
  lemma AliasLeaves(x: Side, rqs: map<nat, Rq>, late: int, id: nat, alias: nat)
    requires SideMid(x, rqs, late, id) && alias in x.sort && rqs[alias].pos == rqs[id].pos
    ensures SideMid(Left(x, alias), rqs, late, id)
    ensures forall y :: y in Left(x, alias).sort ==> y in x.sort && y in rqs && rqs[y].pos != rqs[id].pos
    ensures id in Left(x, alias).fifo <==> id in x.fifo
  {
    WithoutOrdered(x.sort, alias, rqs);
    WithoutOrdered(x.fifo, alias, rqs);
    AfterOk(x.sort, alias);
    forall y | y in x.sort && rqs[y].pos == rqs[id].pos
      ensures y == alias
    {
      OnePerSector(x.sort, rqs, y, alias);
    }
    hide Ascending, Aged, NoDup, Without, After;
  }

  /** A request that kept its place in the fifo is sorted in again. */
  lemma SortedBack(x: Side, rqs: map<nat, Rq>, late: int, id: nat)
    requires SideMid(x, rqs, late, id) && id in x.fifo && forall y :: y in x.sort ==> rqs[y].pos != rqs[id].pos
    ensures SideOk(x.(sort := Place(x.sort, rqs, id)), rqs, late)
    ensures forall z :: z in Place(x.sort, rqs, id) <==> z == id || z in x.sort
  {
    hide Ascending, Aged, NoDup, Place;
    PlaceOk(x.sort, rqs, id);
  }

  /** A new request is sorted in and goes to the end of the fifo. */
  lemma SortedNew(x: Side, rqs: map<nat, Rq>, late: int, id: nat)
    requires SideMid(x, rqs, late, id) && id !in x.fifo && rqs[id].expire == late
    requires forall y :: y in x.sort ==> rqs[y].pos != rqs[id].pos
    ensures SideOk(x.(sort := Place(x.sort, rqs, id), fifo := x.fifo + [id]), rqs, late)
    ensures forall z :: z in Place(x.sort, rqs, id) <==> z == id || z in x.sort
  {
    hide Ascending, Aged, NoDup, Place;
    PlaceOk(x.sort, rqs, id);
    AppendOk(x.fifo, rqs, id);
  }

  // ----- both directions -----

  ghost predicate Inv(s: State, t: Tunables) {
    && SideOk(s.read, s.rqs, s.now + t.readExpire)
    && SideOk(s.write, s.rqs, s.now + t.writeExpire)
    && (forall y :: y in s.read.sort ==> y !in s.write.sort)
    && (s.read.next == None || s.write.next == None)
  }

  function Late(s: State, t: Tunables, d: Dir): (n: int) { s.now + Expiry(t, d) }

  /** Inv, with the sides given in either order. */
  ghost predicate Two(x: Side, y: Side, rqs: map<nat, Rq>, lateX: int, lateY: int) {
    && SideOk(x, rqs, lateX) && SideOk(y, rqs, lateY)
    && (forall z :: z in x.sort ==> z !in y.sort)
    && (x.next == None || y.next == None)
  }

  lemma Sides(s: State, t: Tunables, d: Dir)
    ensures Inv(s, t) <==> Two(SideOf(s, d), SideOf(s, Other(d)), s.rqs, Late(s, t, d), Late(s, t, Other(d)))
  {
    hide SideOk;
  }

  lemma NextDropped(x: Side, rqs: map<nat, Rq>, late: int)
    requires SideOk(x, rqs, late)
    ensures SideOk(x.(next := None), rqs, late)
  {
  }

  lemma MovedIs(s: State, d: Dir, id: nat)
    ensures var u := Moved(s, d, id);
      && SideOf(u, d) == Left(SideOf(s, d), id) && SideOf(u, Other(d)) == SideOf(s, Other(d)).(next := None)
      && u.rqs == s.rqs && u.now == s.now
  {
    hide Removed, After;
  }

  lemma MovedKeeps(s: State, t: Tunables, d: Dir, id: nat)
    requires Inv(s, t)
    ensures Inv(Moved(s, d, id), t)
  {
    MovedIs(s, d, id);
    Sides(s, t, d);
    Sides(Moved(s, d, id), t, d);
    hide Inv, SideOk, Left, Moved, SideOf, Other;
    LeftOk(SideOf(s, d), s.rqs, Late(s, t, d), id);
    NextDropped(SideOf(s, Other(d)), s.rqs, Late(s, t, Other(d)));
  }

  lemma DispatchKeeps(s: State, t: Tunables)
    requires Inv(s, t)
    ensures Inv(Dispatched(s, t), t)
  {
    if Picked(s, t).Go? {
      var p := Picked(s, t);
      MovedKeeps(s, t, p.dir, p.id);
      SameSides(Moved(s, p.dir, p.id), Dispatched(s, t), t);
    }
    hide Inv;
  }

  lemma SameSides(s: State, u: State, t: Tunables)
    requires Inv(s, t) && u.read == s.read && u.write == s.write && u.rqs == s.rqs && u.now == s.now
    ensures Inv(u, t)
  {
  }

  /** The other direction does not see a change of a request that is not on its lists. */
  lemma SideFrame(x: Side, a: map<nat, Rq>, b: map<nat, Rq>, late: int, later: int)
    requires SideOk(x, a, late) && late <= later && forall y :: y in x.sort && y in a ==> y in b && b[y] == a[y]
    ensures SideOk(x, b, later)
  {
    SameOrder(x.sort, a, b);
    SameOrder(x.fifo, a, b);
    hide Ascending, Aged, NoDup;
  }

  lemma TickKeeps(s: State, t: Tunables, n: nat)
    requires Inv(s, t)
    ensures Inv(s.(now := s.now + n), t)
  {
    SideFrame(s.read, s.rqs, s.rqs, Late(s, t, Read), Late(s, t, Read) + n);
    SideFrame(s.write, s.rqs, s.rqs, Late(s, t, Write), Late(s, t, Write) + n);
    hide SideOk;
  }

  // ----- deadline_add_rq_rb -----

  /** The side of id, and the other one, once the alias of id, if any, is dispatched. */
  function ClearX(x: Side, rqs: map<nat, Rq>, id: nat): (u: Side)
    requires id in rqs
  {
    var alias := Find(x.sort, rqs, rqs[id].pos);
    if alias.Some? then Left(x, alias.value) else x
  }

  function ClearY(x: Side, y: Side, rqs: map<nat, Rq>, id: nat): (u: Side)
    requires id in rqs
  {
    if Find(x.sort, rqs, rqs[id].pos).Some? then y.(next := None) else y
  }

  lemma AddedRbIs(s: State, d: Dir, id: nat)
    requires id in s.rqs
    ensures var u := AddedRb(s, d, id); var x := ClearX(SideOf(s, d), s.rqs, id);
      && SideOf(u, d) == x.(sort := Place(x.sort, s.rqs, id))
      && SideOf(u, Other(d)) == ClearY(SideOf(s, d), SideOf(s, Other(d)), s.rqs, id)
      && u.rqs == s.rqs && u.now == s.now
  {
    hide Place, Find, Left, Moved;
    var alias := Find(SideOf(s, d).sort, s.rqs, s.rqs[id].pos);
    if alias.Some? {
      MovedIs(s, d, alias.value);
    }
  }

  /** Before deadline_add_rq_rb: id is off the sorted list of its side, all else is in order. */
  ghost predicate Mid(x: Side, y: Side, rqs: map<nat, Rq>, lateX: int, lateY: int, id: nat) {
    && SideMid(x, rqs, lateX, id) && SideOk(y, rqs, lateY)
    && (forall z :: z in x.sort || z == id ==> z !in y.sort)
    && (x.next == None || y.next == None)
  }

  lemma ClearedOk(x: Side, y: Side, rqs: map<nat, Rq>, lateX: int, lateY: int, id: nat)
    requires Mid(x, y, rqs, lateX, lateY, id) && id in rqs
    ensures Mid(ClearX(x, rqs, id), ClearY(x, y, rqs, id), rqs, lateX, lateY, id)
    ensures forall z :: z in ClearX(x, rqs, id).sort ==> z in rqs && rqs[z].pos != rqs[id].pos
    ensures id in ClearX(x, rqs, id).fifo <==> id in x.fifo
  {
    MidFind(x, rqs, lateX, id);
    hide SideOk, SideMid, Find, Left;
    var alias := Find(x.sort, rqs, rqs[id].pos);
    if alias.Some? {
      AliasLeaves(x, rqs, lateX, id, alias.value);
      NextDropped(y, rqs, lateY);
    }
  }

  lemma MidFind(x: Side, rqs: map<nat, Rq>, late: int, id: nat)
    requires SideMid(x, rqs, late, id)
    ensures id in rqs && forall y :: y in x.sort ==> y in rqs
    ensures var alias := Find(x.sort, rqs, rqs[id].pos);
      && (alias.Some? ==> alias.value in x.sort && rqs[alias.value].pos == rqs[id].pos)
      && (alias == None ==> forall y :: y in x.sort ==> rqs[y].pos != rqs[id].pos)
  {
    hide Ascending, Aged, NoDup;
    FindOk(x.sort, rqs, rqs[id].pos);
  }

  lemma NewMid(x: Side, y: Side, rqs: map<nat, Rq>, lateX: int, lateY: int, id: nat, rq: Rq)
    requires Two(x, y, rqs, lateX, lateY) && id !in rqs
    ensures Mid(x, y, rqs[id := rq], lateX, lateY, id) && id !in x.fifo
  {
    var now := rqs[id := rq];
    SameOrder(x.sort, rqs, now);
    SameOrder(x.fifo, rqs, now);
    hide Ascending, Aged, NoDup;
    SideFrame(y, rqs, now, lateY, lateY);
  }

  lemma TwoAdded(x: Side, y: Side, rqs: map<nat, Rq>, lateX: int, lateY: int, id: nat, pos: nat)
    requires Two(x, y, rqs, lateX, lateY) && id !in rqs
    ensures var now := rqs[id := Rq(pos, lateX)]; var u := ClearX(x, now, id);
      Two(u.(sort := Place(u.sort, now, id), fifo := u.fifo + [id]), ClearY(x, y, now, id), now, lateX, lateY)
  {
    NewMid(x, y, rqs, lateX, lateY, id, Rq(pos, lateX));
    hide SideOk, SideMid, Two, ClearX, ClearY;
    var now := rqs[id := Rq(pos, lateX)];
    ClearedOk(x, y, now, lateX, lateY, id);
    var u := ClearX(x, now, id);
    SortedNew(u, now, lateX, id);
    TwoFrom(u, u.(sort := Place(u.sort, now, id), fifo := u.fifo + [id]), ClearY(x, y, now, id), now, lateX, lateY, id);
  }

  /** Back from Mid: id is sorted in. */
  lemma TwoFrom(u: Side, x: Side, y: Side, rqs: map<nat, Rq>, lateX: int, lateY: int, id: nat)
    requires Mid(u, y, rqs, lateX, lateY, id) && SideOk(x, rqs, lateX) && x.next == u.next
    requires forall z :: z in x.sort <==> z == id || z in u.sort
    ensures Two(x, y, rqs, lateX, lateY)
  {
    hide SideOk, SideMid;
  }

  /** Mid, for the side of direction d. */
  ghost predicate MidAt(s: State, t: Tunables, d: Dir, id: nat) {
    Mid(SideOf(s, d), SideOf(s, Other(d)), s.rqs, Late(s, t, d), Late(s, t, Other(d)), id)
  }

  lemma AddedByParts(s: State, t: Tunables, d: Dir, id: nat, pos: nat)
    ensures var u := AddedRb(s.(rqs := s.rqs[id := Rq(pos, s.now + Expiry(t, d))]), d, id);
      Added(s, t, d, id, pos) == WithSide(u, d, SideOf(u, d).(fifo := SideOf(u, d).fifo + [id]))
  {
    hide AddedRb;
  }

  lemma AddMid(s: State, t: Tunables, d: Dir, id: nat, pos: nat)
    requires Inv(s, t) && id !in s.rqs
    ensures MidAt(s.(rqs := s.rqs[id := Rq(pos, s.now + Expiry(t, d))]), t, d, id)
  {
    Sides(s, t, d);
    hide Inv, Two, Mid;
    NewMid(SideOf(s, d), SideOf(s, Other(d)), s.rqs, Late(s, t, d), Late(s, t, Other(d)), id, Rq(pos, Late(s, t, d)));
  }

  lemma RepositionMid(s: State, t: Tunables, d: Dir, id: nat, pos: nat)
    requires Inv(s, t) && id in s.rqs && id in SideOf(s, d).sort
    ensures var x := SideOf(s, d);
      MidAt(WithSide(s, d, x.(sort := Without(x.sort, id))).(rqs := s.rqs[id := s.rqs[id].(pos := pos)]), t, d, id)
  {
    Sides(s, t, d);
    hide Inv, Two, Mid, Without;
    OffSort(SideOf(s, d), SideOf(s, Other(d)), s.rqs, Late(s, t, d), Late(s, t, Other(d)), id, pos);
  }

  lemma AddedIs(s: State, t: Tunables, d: Dir, id: nat, pos: nat)
    ensures var r := Added(s, t, d, id, pos);
      var now := s.rqs[id := Rq(pos, Late(s, t, d))]; var u := ClearX(SideOf(s, d), now, id);
      && SideOf(r, d) == u.(sort := Place(u.sort, now, id), fifo := u.fifo + [id])
      && SideOf(r, Other(d)) == ClearY(SideOf(s, d), SideOf(s, Other(d)), now, id)
      && r.rqs == now && r.now == s.now
  {
    var v := s.(rqs := s.rqs[id := Rq(pos, Late(s, t, d))]);
    AddedRbIs(v, d, id);
    hide AddedRb, ClearX, ClearY, Place;
    assert SideOf(v, d) == SideOf(s, d) && SideOf(v, Other(d)) == SideOf(s, Other(d));
  }

  lemma AddKeeps(s: State, t: Tunables, d: Dir, id: nat, pos: nat)
    requires Inv(s, t) && id !in s.rqs
    ensures Inv(Added(s, t, d, id, pos), t)
  {
    AddedIs(s, t, d, id, pos);
    Sides(s, t, d);
    Sides(Added(s, t, d, id, pos), t, d);
    hide Inv, Two, Added, ClearX, ClearY, Place, SideOf, Other;
    TwoAdded(SideOf(s, d), SideOf(s, Other(d)), s.rqs, Late(s, t, d), Late(s, t, Other(d)), id, pos);
  }

  lemma OffSort(x: Side, y: Side, rqs: map<nat, Rq>, lateX: int, lateY: int, id: nat, pos: nat)
    requires Two(x, y, rqs, lateX, lateY) && id in x.sort && id in rqs
    ensures var now := rqs[id := rqs[id].(pos := pos)];
      Mid(x.(sort := Without(x.sort, id)), y, now, lateX, lateY, id) && id in x.fifo
  {
    hide Ascending, Aged, NoDup, Without;
    var now := rqs[id := rqs[id].(pos := pos)];
    WithoutOrdered(x.sort, id, rqs);
    SameOrder(Without(x.sort, id), rqs, now);
    SameOrder(x.fifo, rqs, now);
    SideFrame(y, rqs, now, lateY, lateY);
  }

  lemma TwoRepositioned(x: Side, y: Side, rqs: map<nat, Rq>, lateX: int, lateY: int, id: nat, pos: nat)
    requires Two(x, y, rqs, lateX, lateY) && id in x.sort && id in rqs
    ensures var now := rqs[id := rqs[id].(pos := pos)];
            var v := x.(sort := Without(x.sort, id)); var u := ClearX(v, now, id);
      Two(u.(sort := Place(u.sort, now, id)), ClearY(v, y, now, id), now, lateX, lateY)
  {
    OffSort(x, y, rqs, lateX, lateY, id, pos);
    hide SideOk, SideMid, Two, ClearX, ClearY, Without;
    var now := rqs[id := rqs[id].(pos := pos)];
    var v := x.(sort := Without(x.sort, id));
    ClearedOk(v, y, now, lateX, lateY, id);
    var u := ClearX(v, now, id);
    SortedBack(u, now, lateX, id);
    TwoFrom(u, u.(sort := Place(u.sort, now, id)), ClearY(v, y, now, id), now, lateX, lateY, id);
  }

  lemma RepositionedIs(s: State, d: Dir, id: nat, pos: nat)
    requires id in s.rqs
    ensures var r := Repositioned(s, d, id, pos); var x := SideOf(s, d);
            var now := s.rqs[id := s.rqs[id].(pos := pos)];
            var v := x.(sort := Without(x.sort, id)); var u := ClearX(v, now, id);
      && SideOf(r, d) == u.(sort := Place(u.sort, now, id))
      && SideOf(r, Other(d)) == ClearY(v, SideOf(s, Other(d)), now, id)
      && r.rqs == now && r.now == s.now
  {
    var x := SideOf(s, d);
    var v := WithSide(s, d, x.(sort := Without(x.sort, id))).(rqs := s.rqs[id := s.rqs[id].(pos := pos)]);
    AddedRbIs(v, d, id);
    hide AddedRb, ClearX, ClearY, Place, Without;
  }

  lemma RepositionKeeps(s: State, t: Tunables, d: Dir, id: nat, pos: nat)
    requires Inv(s, t) && id in s.rqs && id in SideOf(s, d).sort
    ensures Inv(Repositioned(s, d, id, pos), t)
  {
    hide Inv, Two, ClearX, ClearY, Place, Without, Repositioned, SideOf;
    Sides(s, t, d);
    Sides(Repositioned(s, d, id, pos), t, d);
    RepositionedIs(s, d, id, pos);
    TwoRepositioned(SideOf(s, d), SideOf(s, Other(d)), s.rqs, Late(s, t, d), Late(s, t, Other(d)), id, pos);
  }

  // ----- deadline_merged_requests -----

  /** The side of two merged requests, when the one that stays takes over the earlier expiry. */
  function Taken(x: Side, id: nat, next: nat): (y: Side) {
    Side(Without(x.sort, next), Replace(Without(x.fifo, id), next, id),
         if x.next == Some(next) then After(x.sort, next) else x.next)
  }

  lemma TakenFifo(f: seq<nat>, rqs: map<nat, Rq>, late: int, id: nat, next: nat)
    requires NoDup(f) && id in f && next in f && id != next
    requires (forall y :: y in f ==> y in rqs && rqs[y].expire <= late) && Aged(f, rqs)
    ensures var g := Replace(Without(f, id), next, id); var now := rqs[id := rqs[id].(expire := rqs[next].expire)];
      && NoDup(g) && (forall y :: y in g <==> y in f && y != next)
      && (forall y :: y in g ==> y in now && now[y].expire <= late) && Aged(g, now)
  {
    var now := rqs[id := rqs[id].(expire := rqs[next].expire)];
    WithoutOrdered(f, id, rqs);
    SameOrder(Without(f, id), rqs, now);
    ReplaceOk(Without(f, id), now, next, id);
    hide Aged, NoDup, Without, Replace, Ascending;
  }

  lemma TakenSort(l: seq<nat>, rqs: map<nat, Rq>, id: nat, next: nat)
    requires NoDup(l) && id in l && next in l && (forall y :: y in l ==> y in rqs) && Ascending(l, rqs)
    ensures var now := rqs[id := rqs[id].(expire := rqs[next].expire)]; var r := Without(l, next);
      && NoDup(r) && (forall y :: y in r <==> y in l && y != next)
      && (forall y :: y in r ==> y in now) && Ascending(r, now)
  {
    var now := rqs[id := rqs[id].(expire := rqs[next].expire)];
    WithoutOrdered(l, next, rqs);
    SameOrder(Without(l, next), rqs, now);
    hide Aged, NoDup, Without, Ascending;
  }

  lemma TakenOk(x: Side, rqs: map<nat, Rq>, late: int, id: nat, next: nat)
    requires SideOk(x, rqs, late) && id in x.sort && next in x.sort && id != next && id in rqs && next in rqs
    ensures SideOk(Taken(x, id, next), rqs[id := rqs[id].(expire := rqs[next].expire)], late)
    ensures forall y :: y in Taken(x, id, next).sort <==> y in x.sort && y != next
  {
    hide Ascending, Aged, NoDup, Without, After, Replace;
    TakenSort(x.sort, rqs, id, next);
    TakenFifo(x.fifo, rqs, late, id, next);
    AfterOk(x.sort, next);
    var y := Taken(x, id, next);
    assert y.sort == Without(x.sort, next) && y.fifo == Replace(Without(x.fifo, id), next, id);
    assert y.next.Some? ==> y.next.value in x.sort && y.next.value != next;
    hide Taken;
  }

  lemma TwoTaken(x: Side, y: Side, rqs: map<nat, Rq>, lateX: int, lateY: int, id: nat, next: nat)
    requires Two(x, y, rqs, lateX, lateY) && id in x.sort && next in x.sort && id != next && id in rqs && next in rqs
    ensures Two(Taken(x, id, next), y, rqs[id := rqs[id].(expire := rqs[next].expire)], lateX, lateY)
  {
    TakenOk(x, rqs, lateX, id, next);
    var now := rqs[id := rqs[id].(expire := rqs[next].expire)];
    SideFrame(y, rqs, now, lateY, lateY);
    hide SideOk, Without, After, Replace;
    assert Taken(x, id, next).next == None || x.next.Some?;
  }

  lemma TwoRemoved(x: Side, y: Side, rqs: map<nat, Rq>, lateX: int, lateY: int, next: nat)
    requires Two(x, y, rqs, lateX, lateY)
    ensures Two(Removed(x, next), y, rqs, lateX, lateY)
  {
    RemovedOk(x, rqs, lateX, next);
    hide SideOk, Without, After;
  }

  lemma MergedIs(s: State, d: Dir, id: nat, next: nat)
    requires id in s.rqs && next in s.rqs
    ensures var r := Merged(s, d, id, next); var earlier := s.rqs[next].expire < s.rqs[id].expire;
      && SideOf(r, d) == (if earlier then Taken(SideOf(s, d), id, next) else Removed(SideOf(s, d), next))
      && SideOf(r, Other(d)) == SideOf(s, Other(d)) && r.now == s.now
      && r.rqs == (if earlier then s.rqs[id := s.rqs[id].(expire := s.rqs[next].expire)] else s.rqs)
  {
    hide Without, Replace, After, Removed;
  }

  lemma LateIs(s: State, u: State, t: Tunables, d: Dir)
    requires u.now == s.now
    ensures Late(u, t, d) == Late(s, t, d) && Late(u, t, Other(d)) == Late(s, t, Other(d))
  {
  }

  lemma MergeKeeps(s: State, t: Tunables, d: Dir, id: nat, next: nat)
    requires Inv(s, t) && id in s.rqs && next in s.rqs && id != next && id in SideOf(s, d).sort
    requires next in SideOf(s, d).sort
    ensures Inv(Merged(s, d, id, next), t)
  {
    hide Inv, Two, Merged, Taken, Removed, SideOf, Other, Late;
    MergedIs(s, d, id, next);
    Sides(s, t, d);
    Sides(Merged(s, d, id, next), t, d);
    LateIs(s, Merged(s, d, id, next), t, d);
    if s.rqs[next].expire < s.rqs[id].expire {
      TwoTaken(SideOf(s, d), SideOf(s, Other(d)), s.rqs, Late(s, t, d), Late(s, t, Other(d)), id, next);
    } else {
      TwoRemoved(SideOf(s, d), SideOf(s, Other(d)), s.rqs, Late(s, t, d), Late(s, t, Other(d)), next);
    }
  }

  lemma StepKeeps(s: State, t: Tunables, e: Event)
    requires Inv(s, t) && Enabled(s, e)
    ensures Inv(Step(s, t, e), t)
  {
    hide Inv, Added, Dispatched, Repositioned, Merged;
    match e
    case Add(d, id, pos) => AddKeeps(s, t, d, id, pos);
    case Dispatch => DispatchKeeps(s, t);
    case FrontMerged(d, id, pos) => RepositionKeeps(s, t, d, id, pos);
    case MergedReqs(d, id, next) => MergeKeeps(s, t, d, id, next);
    case Tick(n) => TickKeeps(s, t, n);
  }

  lemma {:induction false} RunKeeps(t: Tunables, states: seq<State>, events: seq<Event>, n: nat)
    requires Run(t, states, events) && n < |states|
    ensures Inv(states[n], t)
    decreases n
  {
    if n > 0 {
      RunKeeps(t, states, events, n - 1);
      hide Inv, Step;
      StepKeeps(states[n - 1], t, events[n - 1]);
    }
  }

  /** Some request of the direction has expired. */
  ghost predicate AnyExpired(s: State, d: Dir) {
    exists y :: y in SideOf(s, d).fifo && y in s.rqs && s.now > s.rqs[y].expire
  }

  lemma HeadTells(s: State, t: Tunables, d: Dir)
    requires Inv(s, t)
    ensures Expired(s, d) <==> AnyExpired(s, d)
  {
    Sides(s, t, d);
    var f := SideOf(s, d).fifo;
    forall y | y in f
      ensures s.rqs[f[0]].expire <= s.rqs[y].expire
    {
      HeadIsEarliest(f, s.rqs, y);
    }
    hide Inv, Ascending, Aged, NoDup;
  }

  /** next_rq after a dispatch: the queued request with the next higher sector. */
  lemma {:induction false} AfterIsNext(l: seq<nat>, rqs: map<nat, Rq>, x: nat)
    requires (forall y :: y in l ==> y in rqs) && Ascending(l, rqs) && x in l
    ensures After(l, x).Some? ==> After(l, x).value in l && rqs[After(l, x).value].pos > rqs[x].pos
    ensures After(l, x).Some? ==>
      forall y :: y in l && rqs[y].pos > rqs[x].pos ==> rqs[After(l, x).value].pos <= rqs[y].pos
    ensures After(l, x) == None ==> forall y :: y in l ==> rqs[y].pos <= rqs[x].pos
  {
    Headed(l);
    if l[0] == x {
      if |l| > 1 {
        Headed(l[1..]);
        assert l[1] in l[1..];
      }
    } else {
      AfterIsNext(l[1..], rqs, x);
    }
  }

  /** Outside a batch, an expired direction serves what expires first; otherwise the scan goes on upwards. */
  lemma BestMeetsDeadlines(s: State, t: Tunables, d: Dir)
    requires Inv(s, t) && SideOf(s, d).fifo != []
    ensures Best(s, d) in SideOf(s, d).sort && Best(s, d) in s.rqs
    ensures AnyExpired(s, d) || SideOf(s, d).next == None ==>
      forall y :: y in SideOf(s, d).fifo && y in s.rqs ==> s.rqs[Best(s, d)].expire <= s.rqs[y].expire
    ensures !AnyExpired(s, d) && SideOf(s, d).next.Some? ==> Some(Best(s, d)) == SideOf(s, d).next
  {
    Sides(s, t, d);
    HeadTells(s, t, d);
    var f := SideOf(s, d).fifo;
    assert f[0] in f;
    forall y | y in f
      ensures s.rqs[f[0]].expire <= s.rqs[y].expire
    {
      HeadIsEarliest(f, s.rqs, y);
    }
    hide Inv, Ascending, Aged, NoDup, AnyExpired, Expired;
  }

  /**
   Through every run: the two lists of a direction agree, at most one next_rq is set and it is queued, and
   looking at the head of a fifo is as good as looking at all of it.
   */
  lemma ListsAreSound(t: Tunables, states: seq<State>, events: seq<Event>)
    requires Run(t, states, events)
    ensures forall n :: 0 <= n < |states| ==> Inv(states[n], t)
    ensures forall n, d :: 0 <= n < |states| ==> (Expired(states[n], d) <==> AnyExpired(states[n], d))
  {
    forall n | 0 <= n < |states|
      ensures Inv(states[n], t)
      ensures forall d :: Expired(states[n], d) <==> AnyExpired(states[n], d)
    {
      RunKeeps(t, states, events, n);
      HeadTells(states[n], t, Read);
      HeadTells(states[n], t, Write);
    }
  }
}
