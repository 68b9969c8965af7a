/**
 The hash of sorted requests by their end sector, and the one-request cache in front of it.
 */
module MergeHash {
  import opened Lists

  /** mergeable is rq_mergeable(). */
  datatype Rq = Rq(pos: nat, sectors: nat, mergeable: bool)

  /** rq_hash_key */
  function Key(r: Rq): (k: nat) { r.pos + r.sectors }

  /** ELV_HASH_FN: hash_long with six bits, on 32-bit words. */
  function Bucket(sector: nat): (b: nat)
    ensures b < 64
  {
    ((sector / 8 * 0x9e370001) % 0x1_0000_0000) / 0x400_0000
  }

  /** One bucket per hash value; sorted are the requests inside the elevator. */
  datatype State = State(buckets: seq<seq<nat>>, rqs: map<nat, Rq>, sorted: set<nat>, lastMerge: Option<nat>)

  /** elv_rqhash_del: the request leaves whatever bucket it is in. */
  function Unhashed(buckets: seq<seq<nat>>, id: nat): (r: seq<seq<nat>>)
    ensures |r| == |buckets| && forall b :: 0 <= b < |r| ==> r[b] == Without(buckets[b], id)
  {
    seq(|buckets|, b requires 0 <= b < |buckets| => Without(buckets[b], id))
  }

  /** elv_rqhash_add */
  function Hashed(buckets: seq<seq<nat>>, id: nat, key: nat): (r: seq<seq<nat>>)
    requires |buckets| == 64
    ensures |r| == 64
  {
    buckets[Bucket(key) := [id] + buckets[Bucket(key)]]
  }

  // ----- finding -----

  /** elv_rqhash_find on one bucket: what it returns, and what it leaves after dropping what cannot merge. */
  function FindIn(l: seq<nat>, rqs: map<nat, Rq>, key: nat): (r: (Option<nat>, seq<nat>)) {
    if l == [] then (None, [])
    else if l[0] !in rqs || !rqs[l[0]].mergeable then FindIn(l[1..], rqs, key)
    else if Key(rqs[l[0]]) == key then (Some(l[0]), l)
    else var (f, rest) := FindIn(l[1..], rqs, key); (f, [l[0]] + rest)
  }

  datatype Event =
    | InsertSort(id: nat, rq: Rq)
    | Find(sector: nat)
    | NoMerge(id: nat)
    | BackMerged(id: nat, sectors: nat)
    | FrontMerged(id: nat, sectors: nat)
    | MergedReqs(id: nat, next: nat)
    | Dispatch(id: nat)

  ghost predicate Enabled(s: State, e: Event) {
    && |s.buckets| == 64
    && match e
       case InsertSort(id, rq) => id !in s.rqs
       case Find(_) => true
       case NoMerge(id) => id in s.sorted && id in s.rqs
       case BackMerged(id, n) => id in s.sorted && id in s.rqs && s.rqs[id].mergeable
       case FrontMerged(id, n) => id in s.sorted && id in s.rqs && s.rqs[id].mergeable && n <= s.rqs[id].pos
       case MergedReqs(id, next) =>
         && id in s.sorted && next in s.sorted && id != next && id in s.rqs && next in s.rqs
         && s.rqs[id].mergeable && s.rqs[next].mergeable && Key(s.rqs[id]) == s.rqs[next].pos
       case Dispatch(id) => id in s.sorted && id in s.rqs
  }

  function Step(s: State, e: Event): (t: State)
    requires Enabled(s, e)
  {
    match e
    case InsertSort(id, rq) =>
      var t := s.(rqs := s.rqs[id := rq], sorted := s.sorted + {id});
      if rq.mergeable then
        t.(buckets := Hashed(s.buckets, id, Key(rq)),
           lastMerge := if s.lastMerge == None then Some(id) else s.lastMerge)
      else t
    case Find(sector) =>
      s.(buckets := s.buckets[Bucket(sector) := FindIn(s.buckets[Bucket(sector)], s.rqs, sector).1])
    case NoMerge(id) =>
      s.(rqs := s.rqs[id := s.rqs[id].(mergeable := false)],
         lastMerge := if s.lastMerge == Some(id) then None else s.lastMerge)
    case BackMerged(id, n) =>
      var rq := s.rqs[id].(sectors := s.rqs[id].sectors + n);
      s.(rqs := s.rqs[id := rq], buckets := Hashed(Unhashed(s.buckets, id), id, Key(rq)), lastMerge := Some(id))
    case FrontMerged(id, n) =>
      var rq := s.rqs[id].(pos := s.rqs[id].pos - n, sectors := s.rqs[id].sectors + n);
      s.(rqs := s.rqs[id := rq], lastMerge := Some(id))
    case MergedReqs(id, next) =>
      var rq := s.rqs[id].(sectors := s.rqs[id].sectors + s.rqs[next].sectors);
      s.(rqs := s.rqs[id := rq], buckets := Unhashed(Hashed(Unhashed(s.buckets, id), id, Key(rq)), next),
         sorted := s.sorted - {next}, lastMerge := Some(id))
    case Dispatch(id) =>
      s.(buckets := Unhashed(s.buckets, id), sorted := s.sorted - {id},
         lastMerge := if s.lastMerge == Some(id) then None else s.lastMerge)
  }

  ghost predicate Init(s: State) {
    s.buckets == seq(64, _ => []) && s.rqs == map[] && s.sorted == {} && s.lastMerge == None
  }

  ghost predicate Run(states: seq<State>, events: seq<Event>) {
    && |states| == |events| + 1 && Init(states[0])
    && forall i :: 0 <= i < |events| ==> Enabled(states[i], events[i]) && states[i + 1] == Step(states[i], events[i])
  }

  // ----- what holds throughout -----

  /** A bucket holds sorted requests with its hash value, each once, and every mergeable one of them. */
  ghost predicate BucketOk(b: nat, l: seq<nat>, rqs: map<nat, Rq>, sorted: set<nat>) {
    && NoDup(l)
    && (forall x :: x in l ==> x in sorted && x in rqs && Bucket(Key(rqs[x])) == b)
    && (forall x :: x in sorted && x in rqs && rqs[x].mergeable && Bucket(Key(rqs[x])) == b ==> x in l)
  }

  ghost predicate AllOk(buckets: seq<seq<nat>>, rqs: map<nat, Rq>, sorted: set<nat>) {
    |buckets| == 64 && forall b :: 0 <= b < 64 ==> BucketOk(b, buckets[b], rqs, sorted)
  }

  ghost predicate Inv(s: State) {
    && AllOk(s.buckets, s.rqs, s.sorted)
    && (forall x :: x in s.sorted ==> x in s.rqs)
    && (s.lastMerge.Some? ==> s.lastMerge.value in s.sorted && s.rqs[s.lastMerge.value].mergeable)
  }

  /** The search returns a mergeable request with the key iff there is one, and drops only what cannot merge. */
  lemma {:induction false} FindInOk(l: seq<nat>, rqs: map<nat, Rq>, key: nat)
    requires NoDup(l) && forall x :: x in l ==> x in rqs
    ensures var (f, rest) := FindIn(l, rqs, key);
      && (f.Some? ==> f.value in l && rqs[f.value].mergeable && Key(rqs[f.value]) == key)
      && (f == None ==> forall x :: x in l && rqs[x].mergeable ==> Key(rqs[x]) != key)
      && NoDup(rest) && (forall x :: x in rest ==> x in l) && (forall x :: x in l && rqs[x].mergeable ==> x in rest)
      && (f == None ==> forall x :: x in rest ==> rqs[x].mergeable)
  {
    hide NoDup;
    if l != [] {
      assert l == [l[0]] + l[1..];
      NoDupCons(l[0], l[1..]);
      FindInOk(l[1..], rqs, key);
      var (f, rest) := FindIn(l[1..], rqs, key);
      NoDupCons(l[0], rest);
    }
  }

  /** The request leaves the hash and the elevator; what becomes of it does not matter to the rest. */
  lemma AllDrop(buckets: seq<seq<nat>>, rqs: map<nat, Rq>, sorted: set<nat>, id: nat, now: map<nat, Rq>)
    requires AllOk(buckets, rqs, sorted) && now.Keys == rqs.Keys && forall x :: x in rqs && x != id ==> now[x] == rqs[x]
    ensures AllOk(Unhashed(buckets, id), now, sorted - {id})
  {
    hide Bucket;
    forall b | 0 <= b < 64
      ensures BucketOk(b, Unhashed(buckets, id)[b], now, sorted - {id})
    {
      assert BucketOk(b, buckets[b], rqs, sorted);
      WithoutOk(buckets[b], id);
      hide NoDup, Without;
    }
  }

  lemma AllPut(buckets: seq<seq<nat>>, rqs: map<nat, Rq>, sorted: set<nat>, id: nat)
    requires AllOk(buckets, rqs, sorted) && id !in sorted && id in rqs
    ensures AllOk(Hashed(buckets, id, Key(rqs[id])), rqs, sorted + {id})
  {
    hide Bucket;
    var h := Bucket(Key(rqs[id]));
    forall b | 0 <= b < 64
      ensures BucketOk(b, Hashed(buckets, id, Key(rqs[id]))[b], rqs, sorted + {id})
    {
      assert BucketOk(b, buckets[b], rqs, sorted);
      if b == h {
        assert ([id] + buckets[b])[1..] == buckets[b];
      }
    }
  }

  /** A request that cannot merge need not be on the hash. */
  lemma AllPlain(buckets: seq<seq<nat>>, rqs: map<nat, Rq>, sorted: set<nat>, id: nat)
    requires AllOk(buckets, rqs, sorted) && id in rqs && !rqs[id].mergeable
    ensures AllOk(buckets, rqs, sorted + {id})
  {
    hide Bucket, NoDup;
    forall b | 0 <= b < 64
      ensures BucketOk(b, buckets[b], rqs, sorted + {id})
    {
      assert BucketOk(b, buckets[b], rqs, sorted);
    }
  }

  /** Keys stay, and nothing becomes mergeable: the hash needs no change. */
  lemma AllFrame(buckets: seq<seq<nat>>, rqs: map<nat, Rq>, sorted: set<nat>, now: map<nat, Rq>)
    requires AllOk(buckets, rqs, sorted) && (forall x :: x in sorted ==> x in rqs)
    requires forall x :: x in sorted ==>
      x in now && Key(now[x]) == Key(rqs[x]) && (now[x].mergeable ==> rqs[x].mergeable)
    ensures AllOk(buckets, now, sorted)
  {
    hide Bucket, NoDup;
    forall b | 0 <= b < 64
      ensures BucketOk(b, buckets[b], now, sorted)
    {
      assert BucketOk(b, buckets[b], rqs, sorted);
    }
  }

  lemma AllFind(buckets: seq<seq<nat>>, rqs: map<nat, Rq>, sorted: set<nat>, sector: nat)
    requires AllOk(buckets, rqs, sorted)
    ensures var h := Bucket(sector); AllOk(buckets[h := FindIn(buckets[h], rqs, sector).1], rqs, sorted)
  {
    hide Bucket;
    var h := Bucket(sector);
    assert BucketOk(h, buckets[h], rqs, sorted);
    FindInOk(buckets[h], rqs, sector);
    hide NoDup, FindIn;
    var now := buckets[h := FindIn(buckets[h], rqs, sector).1];
    forall b | 0 <= b < 64
      ensures BucketOk(b, now[b], rqs, sorted)
    {
      assert BucketOk(b, buckets[b], rqs, sorted);
    }
  }

  lemma StepKeeps(s: State, e: Event)
    requires Inv(s) && Enabled(s, e)
    ensures Inv(Step(s, e))
  {
    hide AllOk, Bucket, Hashed, Unhashed, FindIn;
    var t := Step(s, e);
    match e
    case InsertSort(id, rq) =>
      AllFrame(s.buckets, s.rqs, s.sorted, t.rqs);
      if rq.mergeable {
        AllPut(s.buckets, t.rqs, s.sorted, id);
      } else {
        AllPlain(s.buckets, t.rqs, s.sorted, id);
      }
    case Find(sector) => AllFind(s.buckets, s.rqs, s.sorted, sector);
    case NoMerge(id) => AllFrame(s.buckets, s.rqs, s.sorted, t.rqs);
    case BackMerged(id, n) =>
      AllDrop(s.buckets, s.rqs, s.sorted, id, t.rqs);
      AllPut(Unhashed(s.buckets, id), t.rqs, s.sorted - {id}, id);
      assert s.sorted - {id} + {id} == s.sorted;
    case FrontMerged(id, n) => AllFrame(s.buckets, s.rqs, s.sorted, t.rqs);
    case MergedReqs(id, next) =>
      AllDrop(s.buckets, s.rqs, s.sorted, id, t.rqs);
      AllPut(Unhashed(s.buckets, id), t.rqs, s.sorted - {id}, id);
      assert s.sorted - {id} + {id} == s.sorted;
      AllDrop(Hashed(Unhashed(s.buckets, id), id, Key(t.rqs[id])), t.rqs, s.sorted, next, t.rqs);
    case Dispatch(id) => AllDrop(s.buckets, s.rqs, s.sorted, id, s.rqs);
  }

  lemma {:induction false} RunKeeps(states: seq<State>, events: seq<Event>, n: nat)
    requires Run(states, events) && n < |states|
    ensures Inv(states[n])
    decreases n
  {
    if n > 0 {
      RunKeeps(states, events, n - 1);
      hide Inv, Step, Enabled;
      StepKeeps(states[n - 1], events[n - 1]);
    }
  }

  /** What elv_rqhash_find returns. */
  function Found(s: State, sector: nat): (f: Option<nat>)
    requires |s.buckets| == 64
  {
    FindIn(s.buckets[Bucket(sector)], s.rqs, sector).0
  }

  /** A mergeable request inside the elevator that ends at the sector. */
  ghost predicate Fits(s: State, id: nat, sector: nat) {
    id in s.sorted && id in s.rqs && s.rqs[id].mergeable && Key(s.rqs[id]) == sector
  }

  lemma FoundIsScan(s: State, sector: nat)
    requires Inv(s)
    ensures Found(s, sector).Some? ==> Fits(s, Found(s, sector).value, sector)
    ensures Found(s, sector) == None ==> forall id :: !Fits(s, id, sector)
  {
    hide Bucket;
    var h := Bucket(sector);
    assert BucketOk(h, s.buckets[h], s.rqs, s.sorted);
    FindInOk(s.buckets[h], s.rqs, sector);
  }

  /**
   Over every run the hash answers as a scan of all sorted requests would, and the cached request, if any,
   is still inside the elevator and mergeable.
   */
  lemma HashIsScan(states: seq<State>, events: seq<Event>, n: nat, sector: nat)
    requires Run(states, events) && n < |states|
    ensures |states[n].buckets| == 64
    ensures Found(states[n], sector).Some? <==> exists id :: Fits(states[n], id, sector)
    ensures Found(states[n], sector).Some? ==> Fits(states[n], Found(states[n], sector).value, sector)
    ensures states[n].lastMerge.Some? ==>
              var x := states[n].lastMerge.value;
              x in states[n].sorted && x in states[n].rqs && states[n].rqs[x].mergeable
  {
    RunKeeps(states, events, n);
    FoundIsScan(states[n], sector);
  }

  /** Among requests with the same end, the one hashed last is found. */
  lemma LatestIsFound(buckets: seq<seq<nat>>, rqs: map<nat, Rq>, id: nat)
    requires |buckets| == 64 && id in rqs && rqs[id].mergeable
    ensures var key := Key(rqs[id]); FindIn(Hashed(buckets, id, key)[Bucket(key)], rqs, key).0 == Some(id)
  {
    hide Bucket;
  }

  /** The event makes a request larger. */
  predicate Grows(e: Event, id: nat) {
    match e
    case BackMerged(x, _) => x == id
    case FrontMerged(x, _) => x == id
    case MergedReqs(x, _) => x == id
    case _ => false
  }

  /**
   The cache holds the request merged last.  Without a merge it is filled only when empty, by the next
   mergeable request, and emptied only when its request leaves or may no longer be merged.
   */
  lemma CacheFollows(s: State, e: Event)
    requires Inv(s) && Enabled(s, e)
    ensures forall id: nat :: Grows(e, id) ==> Step(s, e).lastMerge == Some(id)
    ensures (forall id: nat :: !Grows(e, id)) && s.lastMerge.Some? ==>
              var (t, x) := (Step(s, e), s.lastMerge.value);
              t.lastMerge == if x in t.sorted && x in t.rqs && t.rqs[x].mergeable then Some(x) else None
    ensures (forall id: nat :: !Grows(e, id)) && s.lastMerge == None ==>
              Step(s, e).lastMerge == if e.InsertSort? && e.rq.mergeable then Some(e.id) else None
  {
    hide Hashed, Unhashed, FindIn, Bucket, AllOk;
    if e.BackMerged? || e.FrontMerged? || e.MergedReqs? { assert Grows(e, e.id); }
  }

  // ----- the hash in place -----

  class Elevator {
    var buckets: seq<seq<nat>>
    var rqs: map<nat, Rq>
    var sorted: set<nat>
    var lastMerge: Option<nat>

    ghost function View(): (s: State)
      reads this
    {
      State(buckets, rqs, sorted, lastMerge)
    }

    /** elv_rqhash_del, for the request wherever it is. */
    method RqhashDel(id: nat)
      modifies this`buckets
      ensures buckets == Unhashed(old(buckets), id)
    {
      buckets := Unhashed(buckets, id);
    }

    /** elv_rqhash_add */
    method RqhashAdd(id: nat)
      requires id in rqs && |buckets| == 64
      modifies this`buckets
      ensures buckets == Hashed(old(buckets), id, Key(rqs[id]))
    {
      var h := Bucket(Key(rqs[id]));
      buckets := buckets[h := [id] + buckets[h]];
    }

    /** elv_insert with ELEVATOR_INSERT_SORT */
    method Insert(id: nat, rq: Rq)
      requires Inv(View()) && Enabled(View(), InsertSort(id, rq))
      modifies this
      ensures View() == Step(old(View()), InsertSort(id, rq)) && Inv(View())
    {
      StepKeeps(View(), InsertSort(id, rq));
      hide Inv, Hashed;
      rqs, sorted := rqs[id := rq], sorted + {id};
      if rq.mergeable {
        RqhashAdd(id);
        if lastMerge == None {
          lastMerge := Some(id);
        }
      }
    }

    /** elv_merged_request after a bio of n sectors was added at the back or in front. */
    method Merged(id: nat, n: nat, back: bool)
      requires Inv(View()) && Enabled(View(), if back then BackMerged(id, n) else FrontMerged(id, n))
      modifies this
      ensures View() == Step(old(View()), if back then BackMerged(id, n) else FrontMerged(id, n)) && Inv(View())
    {
      StepKeeps(View(), if back then BackMerged(id, n) else FrontMerged(id, n));
      hide Inv, Hashed, Unhashed;
      if back {
        rqs := rqs[id := rqs[id].(sectors := rqs[id].sectors + n)];
        RqhashDel(id);
        RqhashAdd(id);
      } else {
        rqs := rqs[id := rqs[id].(pos := rqs[id].pos - n, sectors := rqs[id].sectors + n)];
      }
      lastMerge := Some(id);
    }

    /** elv_merge_requests */
    method MergeRequests(id: nat, next: nat)
      requires Inv(View()) && Enabled(View(), MergedReqs(id, next))
      modifies this
      ensures View() == Step(old(View()), MergedReqs(id, next)) && Inv(View())
    {
      StepKeeps(View(), MergedReqs(id, next));
      hide Inv, Hashed, Unhashed;
      rqs := rqs[id := rqs[id].(sectors := rqs[id].sectors + rqs[next].sectors)];
      RqhashDel(id);
      RqhashAdd(id);
      RqhashDel(next);
      sorted := sorted - {next};
      lastMerge := Some(id);
    }

    /** What elv_dispatch_sort and elv_dispatch_add_tail do to hash and cache. */
    method Dispatched(id: nat)
      requires Inv(View()) && Enabled(View(), Dispatch(id))
      modifies this
      ensures View() == Step(old(View()), Dispatch(id)) && Inv(View())
    {
      StepKeeps(View(), Dispatch(id));
      hide Inv, Unhashed;
      if lastMerge == Some(id) {
        lastMerge := None;
      }
      RqhashDel(id);
      sorted := sorted - {id};
    }

    /** elv_rqhash_find: walks one bucket, unhashing what can no longer be merged. */
    method RqhashFind(sector: nat) returns (f: Option<nat>)
      requires Inv(View())
      modifies this`buckets
      ensures View() == Step(old(View()), Find(sector)) && Inv(View())
      ensures f.Some? ==> Fits(View(), f.value, sector)
      ensures f == None ==> forall id :: !Fits(View(), id, sector)
    {
      ghost var s := View();
      StepKeeps(s, Find(sector));
      FoundIsScan(s, sector);
      hide Bucket, Inv;
      var h := Bucket(sector);
      var l := buckets[h];
      var kept: seq<nat> := [];
      f := None;
      assert kept + FindIn(l, s.rqs, sector).1 == FindIn(l, s.rqs, sector).1;
      while l != []
        invariant f == None
        invariant FindIn(s.buckets[h], s.rqs, sector)
               == (FindIn(l, s.rqs, sector).0, kept + FindIn(l, s.rqs, sector).1)
        decreases |l|
      {
        var rq := l[0];
        if rq !in rqs || !rqs[rq].mergeable {
          l := l[1..];
          continue;
        }
        if Key(rqs[rq]) == sector {
          f := Some(rq);
          break;
        }
        ghost var tail := FindIn(l[1..], s.rqs, sector).1;
        assert kept + ([rq] + tail) == (kept + [rq]) + tail;
        kept, l := kept + [rq], l[1..];
      }
      buckets := buckets[h := kept + l];
      forall id
        ensures Fits(View(), id, sector) <==> Fits(s, id, sector)
      {
      }
    }
  }
}
