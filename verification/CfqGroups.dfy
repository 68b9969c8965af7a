/**
 The service tree of CFQ's groups: who is served next, what service costs, and how far the
 groups' virtual disk times can drift apart.  Times are integers without wrap-around; weights are fixed.
 */
module CfqGroups {
  import opened Lists

  datatype Group = Group(vdisktime: int, weight: nat, nrCfqq: nat)

  /**
   The tree in key order, the cached leftmost node, min_vdisktime and the active group.  idleDelay is
   CFQ_IDLE_DELAY, a fifth of a second in ticks.
   */
  datatype State = State(groups: map<nat, Group>, tree: seq<nat>, left: Option<nat>, min: int, active: Option<nat>,
                         idleDelay: nat)

  /** cfq_scale_slice */
  function Scaled(slice: nat, weight: nat): (d: nat)
    requires weight > 0
  {
    slice * 4096 * 500 / weight
  }

  // ----- what service costs -----

  /** What cfq_group_served reads of a queue; sliceStart is 0 until its first request has completed. */
  datatype CfqQueue = CfqQueue(sync: bool, dispatchStart: nat, sliceStart: nat, allocatedSlice: nat)

  /** BLKIO_WEIGHT_MAX */
  const MAX_WEIGHT := 1000

  predicate Begun(q: CfqQueue, now: nat) { q.dispatchStart <= now && q.sliceStart <= now }

  /** cfq_cfqq_slice_usage: at least a tick, the seek included, or the time used up to the slice. */
  function SliceUsage(q: CfqQueue, now: nat): (used: nat)
    requires Begun(q, now)
    ensures used == 0 ==> q.allocatedSlice == 0
    ensures 0 < q.sliceStart < now ==>
              && used <= q.allocatedSlice && q.sliceStart + used <= now
              && (used < q.allocatedSlice ==> q.sliceStart + used == now)
    ensures !(0 < q.sliceStart < now) ==>
              used >= 1 && q.dispatchStart + used >= now && (used > 1 ==> q.dispatchStart + used == now)
  {
    if q.sliceStart == 0 || q.sliceStart == now then Max(now - q.dispatchStart, 1)
    else if now - q.sliceStart > q.allocatedSlice then q.allocatedSlice
    else now - q.sliceStart
  }

  /** What cfq_group_served charges: an async queue with no sync queue beside it pays for its whole slice. */
  function Charge(q: CfqQueue, now: nat, onlyAsync: bool): (charge: nat)
    requires Begun(q, now)
    ensures charge == 0 ==> q.allocatedSlice == 0
    ensures !q.sync && onlyAsync ==> charge == q.allocatedSlice
    ensures q.sync || !onlyAsync ==> charge == SliceUsage(q, now)
  {
    if !q.sync && onlyAsync then q.allocatedSlice else SliceUsage(q, now)
  }

  /** What a charge is worth: the slice in units of a tick at the default weight, divided by the weight. */
  lemma ChargeTimesWeight(slice: nat, weight: nat)
    requires weight > 0
    ensures Scaled(slice, weight) * weight <= slice * 4096 * 500 < (Scaled(slice, weight) + 1) * weight
  {
    var d := slice * 4096 * 500;
    assert d == d / weight * weight + d % weight;
  }

  /** No service is free. */
  lemma ServiceCosts(slice: nat, weight: nat)
    requires 0 < weight
    ensures slice > 0 && weight <= MAX_WEIGHT ==> Scaled(slice, weight) > 0
  {
    if slice > 0 && weight <= MAX_WEIGHT {
      assert slice * 4096 * 500 >= weight;
    }
  }

  // ----- the operations -----

  /** Position in the tree: after every group with the same key. */
  function Inserted(tree: seq<nat>, groups: map<nat, Group>, id: nat): (r: seq<nat>)
    requires id in groups
  {
    if tree == [] || (tree[0] in groups && groups[id].vdisktime < groups[tree[0]].vdisktime) then [id] + tree
    else [tree[0]] + Inserted(tree[1..], groups, id)
  }

  /** __cfq_group_service_tree_add: the cache moves only if the group came out leftmost. */
  function Linked(s: State, id: nat): (t: State)
    requires id in s.groups
  {
    var tree := Inserted(s.tree, s.groups, id);
    s.(tree := tree, left := if tree != [] && tree[0] == id then Some(id) else s.left)
  }

  /** cfq_rb_erase */
  function Unlinked(s: State, id: nat): (t: State) {
    s.(tree := Without(s.tree, id), left := if s.left == Some(id) then None else s.left)
  }

  /** cfq_group_service_tree_add */
  function Added(s: State, id: nat): (t: State)
    requires id in s.groups
  {
    var g := s.groups[id].(nrCfqq := s.groups[id].nrCfqq + 1);
    if s.groups[id].nrCfqq > 0 then s.(groups := s.groups[id := g])
    else
      var last := if s.tree == [] then None else Some(s.tree[|s.tree| - 1]);
      var vd := if last.Some? && last.value in s.groups then s.groups[last.value].vdisktime + s.idleDelay else s.min;
      Linked(s.(groups := s.groups[id := g.(vdisktime := vd)]), id)
  }

  /** cfq_group_service_tree_del */
  function Deleted(s: State, id: nat): (t: State)
    requires id in s.groups && s.groups[id].nrCfqq > 0
  {
    var g := s.groups[id].(nrCfqq := s.groups[id].nrCfqq - 1);
    var u := s.(groups := s.groups[id := g], active := if s.active == Some(id) then None else s.active);
    if g.nrCfqq > 0 then u else Unlinked(u, id)
  }

  function Min(a: int, b: int): (c: int) { if b < a then b else a }

  /** update_min_vdisktime */
  function MinUpdated(s: State): (t: State) {
    var a := if s.active.Some? && s.active.value in s.groups then s.groups[s.active.value].vdisktime else s.min;
    var b := if s.left.Some? && s.left.value in s.groups then Min(a, s.groups[s.left.value].vdisktime) else a;
    s.(min := Max(s.min, b))
  }

  /** cfq_get_next_cfqg */
  function Chosen(s: State): (t: State) {
    if s.tree == [] then s
    else
      var first := if s.left.Some? then s.left.value else s.tree[0];
      MinUpdated(s.(left := Some(first), active := Some(first)))
  }

  /** cfq_group_served */
  function Served(s: State, id: nat, slice: nat): (t: State)
    requires id in s.groups && s.groups[id].weight > 0
  {
    var g := s.groups[id].(vdisktime := s.groups[id].vdisktime + Scaled(slice, s.groups[id].weight));
    Linked(Unlinked(s, id).(groups := s.groups[id := g]), id)
  }

  lemma ServedKey(s: State, id: nat, slice: nat)
    requires id in s.groups && s.groups[id].weight > 0
    ensures var t := Served(s, id, slice);
            && id in t.groups && t.groups[id].weight == s.groups[id].weight
            && t.groups[id].vdisktime == s.groups[id].vdisktime + Scaled(slice, s.groups[id].weight)
  {
    hide Inserted, Without, Scaled;
  }

  // ----- runs -----

  datatype Event = Add(id: nat) | Del(id: nat) | Choose | Serve(id: nat, slice: nat)

  ghost predicate Enabled(s: State, e: Event) {
    match e
    case Add(id) => id in s.groups
    case Del(id) => id in s.groups && s.groups[id].nrCfqq > 0
    case Choose => true
    case Serve(id, slice) => id in s.groups && id in s.tree && s.groups[id].weight > 0
  }

  function Step(s: State, e: Event): (t: State)
    requires Enabled(s, e)
  {
    match e
    case Add(id) => Added(s, id)
    case Del(id) => Deleted(s, id)
    case Choose => Chosen(s)
    case Serve(id, slice) => Served(s, id, slice)
  }

  ghost predicate Init(s: State) {
    s.tree == [] && s.left == None && s.active == None && forall id :: id in s.groups ==> s.groups[id].nrCfqq == 0
  }

  ghost predicate Run(states: seq<State>, events: seq<Event>) {
    && |states| == |events| + 1 && Init(states[0])
    && forall i :: 0 <= i < |events| ==> Enabled(states[i], events[i]) && states[i + 1] == Step(states[i], events[i])
  }

  // ----- what holds throughout -----

  /** Distinct groups in the order of their keys. */
  ghost predicate Ordered(tree: seq<nat>, groups: map<nat, Group>) {
    && (forall x :: x in tree ==> x in groups)
    && (tree == []
        || ((forall x :: x in tree[1..] ==> x != tree[0] && groups[tree[0]].vdisktime <= groups[x].vdisktime)
            && Ordered(tree[1..], groups)))
  }

  ghost predicate Inv(s: State) {
    && Ordered(s.tree, s.groups)
    && (forall x :: x in s.tree ==> s.min <= s.groups[x].vdisktime)
    && (s.left.Some? ==> s.tree != [] && s.left.value == s.tree[0])
    && (forall x :: x in s.groups ==> (x in s.tree <==> s.groups[x].nrCfqq > 0))
  }

  lemma Split(tree: seq<nat>)
    requires tree != []
    ensures forall x :: x in tree <==> x == tree[0] || x in tree[1..]
  {
    assert tree == [tree[0]] + tree[1..];
  }

  lemma {:induction false} InsertedOk(tree: seq<nat>, groups: map<nat, Group>, id: nat)
    requires Ordered(tree, groups) && id in groups && id !in tree
    ensures Ordered(Inserted(tree, groups, id), groups)
    ensures forall x :: x in Inserted(tree, groups, id) <==> x == id || x in tree
    ensures Inserted(tree, groups, id) != []
    ensures Inserted(tree, groups, id)[0] == id || (tree != [] && Inserted(tree, groups, id)[0] == tree[0])
  {
    var r := Inserted(tree, groups, id);
    if tree == [] || groups[id].vdisktime < groups[tree[0]].vdisktime {
      assert r[1..] == tree;
      if tree != [] {
        Split(tree);
      }
    } else {
      Split(tree);
      InsertedOk(tree[1..], groups, id);
      assert r[1..] == Inserted(tree[1..], groups, id);
    }
  }

  lemma {:induction false} WithoutOrdered(tree: seq<nat>, groups: map<nat, Group>, id: nat)
    requires Ordered(tree, groups)
    ensures Ordered(Without(tree, id), groups) && forall x :: x in Without(tree, id) <==> x in tree && x != id
    ensures tree != [] && tree[0] != id ==> Without(tree, id) != [] && Without(tree, id)[0] == tree[0]
  {
    if tree != [] {
      Split(tree);
      WithoutOrdered(tree[1..], groups, id);
      assert ([tree[0]] + Without(tree[1..], id))[1..] == Without(tree[1..], id);
    }
  }

  /** The order depends on the members only. */
  lemma {:induction false} OrderedFrame(tree: seq<nat>, a: map<nat, Group>, b: map<nat, Group>)
    requires Ordered(tree, a) && forall x :: x in tree ==> x in b && b[x].vdisktime == a[x].vdisktime
    ensures Ordered(tree, b)
  {
    if tree != [] {
      Split(tree);
      OrderedFrame(tree[1..], a, b);
    }
  }

  lemma {:induction false} LastIsLargest(tree: seq<nat>, groups: map<nat, Group>, x: nat)
    requires Ordered(tree, groups) && x in tree
    ensures groups[tree[0]].vdisktime <= groups[x].vdisktime <= groups[tree[|tree| - 1]].vdisktime
  {
    Split(tree);
    if |tree| > 1 {
      var rest := tree[1..];
      assert rest[|rest| - 1] == tree[|tree| - 1];
      LastIsLargest(rest, groups, if x == tree[0] then rest[0] else x);
    }
  }

  lemma LinkedKeeps(s: State, id: nat)
    requires Ordered(s.tree, s.groups) && id in s.groups && id !in s.tree && s.min <= s.groups[id].vdisktime
    requires forall x :: x in s.tree ==> s.min <= s.groups[x].vdisktime
    requires s.left.Some? ==> s.tree != [] && s.left.value == s.tree[0]
    requires forall x :: x in s.groups ==> (x in s.tree || x == id <==> s.groups[x].nrCfqq > 0)
    ensures Inv(Linked(s, id))
  {
    InsertedOk(s.tree, s.groups, id);
    hide Ordered, Inserted;
  }

  /** A new group starts behind everyone, or at min_vdisktime. */
  function StartTime(s: State): (vd: int) {
    var last := if s.tree == [] then None else Some(s.tree[|s.tree| - 1]);
    if last.Some? && last.value in s.groups then s.groups[last.value].vdisktime + s.idleDelay else s.min
  }

  lemma StartsLast(s: State)
    requires Inv(s)
    ensures s.min <= StartTime(s)
    ensures forall x :: x in s.tree ==> s.groups[x].vdisktime + s.idleDelay <= StartTime(s)
    ensures s.tree != [] ==> exists x :: x in s.tree && StartTime(s) == s.groups[x].vdisktime + s.idleDelay
    ensures s.tree == [] ==> StartTime(s) == s.min
  {
    if s.tree != [] {
      assert s.tree[|s.tree| - 1] in s.tree;
    }
    forall x | x in s.tree
      ensures s.groups[x].vdisktime + s.idleDelay <= StartTime(s)
    {
      LastIsLargest(s.tree, s.groups, x);
    }
  }

  lemma AddKeeps(s: State, id: nat)
    requires Inv(s) && id in s.groups
    ensures Inv(Added(s, id)) && Added(s, id).min == s.min
    ensures id in Added(s, id).tree && id in Added(s, id).groups
    ensures Added(s, id).groups[id].nrCfqq == s.groups[id].nrCfqq + 1
    ensures Added(s, id).groups[id].vdisktime == if id in s.tree then s.groups[id].vdisktime else StartTime(s)
  {
    if s.groups[id].nrCfqq > 0 {
      OrderedFrame(s.tree, s.groups, Added(s, id).groups);
      hide Ordered;
    } else {
      StartsLast(s);
      var g := s.groups[id].(nrCfqq := s.groups[id].nrCfqq + 1, vdisktime := StartTime(s));
      var u := s.(groups := s.groups[id := g]);
      OrderedFrame(s.tree, s.groups, u.groups);
      assert Added(s, id) == Linked(u, id);
      hide Ordered, Linked, StartTime, Added;
      LinkedKeeps(u, id);
    }
  }

  lemma DelKeeps(s: State, id: nat)
    requires Inv(s) && id in s.groups && s.groups[id].nrCfqq > 0
    ensures Inv(Deleted(s, id)) && Deleted(s, id).min == s.min
  {
    var t := Deleted(s, id);
    OrderedFrame(s.tree, s.groups, t.groups);
    WithoutOrdered(s.tree, t.groups, id);
    hide Ordered, Without;
  }

  lemma ChooseKeeps(s: State)
    requires Inv(s)
    ensures Inv(Chosen(s)) && Chosen(s).min >= s.min
    ensures s.tree != [] ==> Chosen(s).active == Some(s.tree[0]) && Chosen(s).min == s.groups[s.tree[0]].vdisktime
  {
    if s.tree != [] {
      assert s.tree[0] in s.tree;
      forall x | x in s.tree
        ensures s.groups[s.tree[0]].vdisktime <= s.groups[x].vdisktime
      {
        LastIsLargest(s.tree, s.groups, x);
      }
    }
    hide Ordered;
  }

  lemma ServeKeeps(s: State, id: nat, slice: nat)
    requires Inv(s) && Enabled(s, Serve(id, slice))
    ensures Inv(Served(s, id, slice)) && Served(s, id, slice).min == s.min
  {
    hide Scaled;
    var g := s.groups[id].(vdisktime := s.groups[id].vdisktime + Scaled(slice, s.groups[id].weight));
    var u := Unlinked(s, id).(groups := s.groups[id := g]);
    WithoutOrdered(s.tree, s.groups, id);
    OrderedFrame(u.tree, s.groups, u.groups);
    hide Ordered, Without, Inserted;
    LinkedKeeps(u, id);
  }

  lemma StepKeeps(s: State, e: Event)
    requires Inv(s) && Enabled(s, e)
    ensures Inv(Step(s, e)) && s.min <= Step(s, e).min
  {
    hide Inv, Added, Deleted, Chosen, Served;
    match e
    case Add(id) => AddKeeps(s, id);
    case Del(id) => DelKeeps(s, id);
    case Choose => ChooseKeeps(s);
    case Serve(id, slice) => ServeKeeps(s, id, slice);
  }

  lemma {:induction false} RunKeeps(states: seq<State>, events: seq<Event>, n: nat)
    requires Run(states, events) && n < |states|
    ensures Inv(states[n])
    decreases n
  {
    if n > 0 {
      RunKeeps(states, events, n - 1);
      hide Inv, Step, Enabled;
      StepKeeps(states[n - 1], events[n - 1]);
    }
  }

  /**
   Over every run: the tree is in order, nobody is behind min_vdisktime, which never decreases, and the cache
   is right.
   */
  lemma GroupsAreSound(states: seq<State>, events: seq<Event>)
    requires Run(states, events)
    ensures forall n :: 0 <= n < |states| ==> Inv(states[n])
    ensures forall n :: 0 <= n < |events| ==> states[n].min <= states[n + 1].min
  {
    forall n | 0 <= n < |states|
      ensures Inv(states[n])
    {
      RunKeeps(states, events, n);
    }
    forall n | 0 <= n < |events|
      ensures states[n].min <= states[n + 1].min
    {
      StepKeeps(states[n], events[n]);
    }
  }

  // ----- how far groups drift apart -----

  /** The distance between the first and the last group on the tree. */
  function Spread(s: State): (n: int) {
    if s.tree != [] && s.tree[0] in s.groups && s.tree[|s.tree| - 1] in s.groups then
      s.groups[s.tree[|s.tree| - 1]].vdisktime - s.groups[s.tree[0]].vdisktime
    else 0
  }

  /** The group next in line is chosen and then charged for the slice. */
  function Turn(s: State, slice: nat): (t: State)
    requires s.tree != [] && s.tree[0] in s.groups && s.groups[s.tree[0]].weight > 0
  {
    Served(Chosen(s), s.tree[0], slice)
  }

  lemma Reinserted(tree: seq<nat>, groups: map<nat, Group>, id: nat, g: Group)
    requires Ordered(tree, groups) && id in tree && id in groups
    ensures forall x :: x in Inserted(Without(tree, id), groups[id := g], id) <==> x in tree
  {
    hide Ordered, Inserted, Without;
    WithoutOrdered(tree, groups, id);
    OrderedFrame(Without(tree, id), groups, groups[id := g]);
    InsertedOk(Without(tree, id), groups[id := g], id);
  }

  /** Service moves one group in the tree and changes its virtual time, and nothing else. */
  lemma ServedShape(s: State, id: nat, slice: nat)
    requires Ordered(s.tree, s.groups) && id in s.tree && id in s.groups && s.groups[id].weight > 0
    ensures var t := Served(s, id, slice); var g := s.groups[id];
      && (forall x :: x in t.tree <==> x in s.tree)
      && t.groups == s.groups[id := g.(vdisktime := g.vdisktime + Scaled(slice, g.weight))]
  {
    hide Scaled, Ordered, Inserted, Without;
    var g := s.groups[id];
    Reinserted(s.tree, s.groups, id, g.(vdisktime := g.vdisktime + Scaled(slice, g.weight)));
  }

  /** Turn after turn, with a fixed set of groups on the tree and no slice costing more than charge. */
  ghost predicate Turns(states: seq<State>, slices: seq<nat>, charge: int) {
    && |states| == |slices| + 1 && Inv(states[0])
    && forall i :: 0 <= i < |slices| ==>
         && states[i].tree != [] && states[i].tree[0] in states[i].groups
         && states[i].groups[states[i].tree[0]].weight > 0
         && Scaled(slices[i], states[i].groups[states[i].tree[0]].weight) <= charge
         && states[i + 1] == Turn(states[i], slices[i])
  }

  lemma SpreadIs(s: State, x: nat, y: nat)
    requires Inv(s) && x in s.tree && y in s.tree
    ensures s.groups[x].vdisktime - s.groups[y].vdisktime <= Spread(s)
  {
    LastIsLargest(s.tree, s.groups, x);
    LastIsLargest(s.tree, s.groups, y);
  }

  lemma SpreadLeast(s: State, n: int)
    requires Inv(s) && n >= 0
    requires forall x, y :: x in s.tree && y in s.tree ==> s.groups[x].vdisktime - s.groups[y].vdisktime <= n
    ensures Spread(s) <= n
  {
    if s.tree != [] {
      assert s.tree[0] in s.tree && s.tree[|s.tree| - 1] in s.tree;
    }
  }

  /** What a turn does to the groups: only the first is charged. */
  lemma TurnIs(s: State, slice: nat)
    requires Inv(s) && s.tree != [] && s.groups[s.tree[0]].weight > 0
    ensures var t := Turn(s, slice); var id := s.tree[0];
      && Inv(t) && (forall x :: x in t.tree <==> x in s.tree) && t.tree != [] && t.groups.Keys == s.groups.Keys
      && (forall x :: x in s.groups && x != id ==> t.groups[x] == s.groups[x])
      && t.groups[id] == s.groups[id].(vdisktime := s.groups[id].vdisktime + Scaled(slice, s.groups[id].weight))
  {
    hide Scaled;
    var id := s.tree[0];
    var c := Chosen(s);
    ChooseKeeps(s);
    assert c.tree == s.tree && c.groups == s.groups && id in c.tree;
    hide Chosen, Ordered;
    ServeKeeps(c, id, slice);
    ServedShape(c, id, slice);
    hide Inv, Served;
  }

  lemma TurnSpread(s: State, slice: nat, charge: int)
    requires Inv(s) && s.tree != [] && s.groups[s.tree[0]].weight > 0
    requires Scaled(slice, s.groups[s.tree[0]].weight) <= charge
    ensures Spread(Turn(s, slice)) <= Max(Spread(s), charge)
  {
    TurnIs(s, slice);
    var t := Turn(s, slice);
    var id := s.tree[0];
    assert id in s.tree;
    SpreadIs(s, id, id);
    forall x, y | x in t.tree && y in t.tree
      ensures t.groups[x].vdisktime - t.groups[y].vdisktime <= Max(Spread(s), charge)
    {
      SpreadIs(s, x, y);
      LastIsLargest(s.tree, s.groups, y);
    }
    hide Inv, Turn, Spread, Scaled;
    SpreadLeast(t, Max(Spread(s), charge));
  }

  lemma {:induction false} SpreadBound(states: seq<State>, slices: seq<nat>, charge: int, n: nat)
    requires Turns(states, slices, charge) && n < |states|
    ensures Spread(states[n]) <= Max(Spread(states[0]), charge)
    ensures Inv(states[n]) && forall x :: x in states[n].tree <==> x in states[0].tree
    decreases n
  {
    if n > 0 {
      SpreadBound(states, slices, charge, n - 1);
      var s := states[n - 1];
      assert states[n] == Turn(s, slices[n - 1]);
      TurnIs(s, slices[n - 1]);
      TurnSpread(s, slices[n - 1], charge);
      hide Inv, Turn, Spread, Scaled, Turns;
    }
  }

  /** How much service a group has been charged, in virtual time. */
  function Gain(s: State, t: State, x: nat): (n: int)
    requires x in s.groups && x in t.groups
  {
    t.groups[x].vdisktime - s.groups[x].vdisktime
  }

  /**
   With a fixed set of busy groups the virtual times stay within the larger of the initial spread and the
   largest charge, so the weighted service of any two groups differs by a constant at most.
   */
  lemma ServiceIsFair(states: seq<State>, slices: seq<nat>, charge: int, n: nat, x: nat, y: nat)
    requires Turns(states, slices, charge) && n < |states|
    requires x in states[0].tree && y in states[0].tree
    ensures Spread(states[n]) <= Max(Spread(states[0]), charge)
    ensures x in states[n].tree && y in states[n].tree
    ensures x in states[n].groups && y in states[n].groups && x in states[0].groups && y in states[0].groups
    ensures Gain(states[0], states[n], x) - Gain(states[0], states[n], y)
         <= Spread(states[0]) + Max(Spread(states[0]), charge)
  {
    SpreadBound(states, slices, charge, n);
    SpreadIs(states[0], y, x);
    SpreadIs(states[n], x, y);
    hide Spread, Turns;
  }

  // ----- the tree in place -----

  /** The place of a group is after all that are not later. */
  lemma {:induction false} InsertAt(tree: seq<nat>, groups: map<nat, Group>, id: nat, k: nat)
    requires id in groups && k <= |tree| && id !in tree && (forall x :: x in tree ==> x in groups)
    requires forall i :: 0 <= i < k ==> groups[tree[i]].vdisktime <= groups[id].vdisktime
    requires k < |tree| ==> groups[id].vdisktime < groups[tree[k]].vdisktime
    ensures Inserted(tree, groups, id) == tree[..k] + [id] + tree[k..]
    ensures Inserted(tree, groups, id)[0] == id <==> k == 0
  {
    if k > 0 {
      var rest := tree[1..];
      forall i | 0 <= i < k - 1
        ensures groups[rest[i]].vdisktime <= groups[id].vdisktime
      {
        assert rest[i] == tree[i + 1];
      }
      InsertAt(rest, groups, id, k - 1);
      assert [tree[0]] + (rest[..k - 1] + [id] + rest[k - 1..]) == tree[..k] + [id] + tree[k..];
    }
  }

  /** grp_service_tree of struct cfq_data */
  class ServiceTree {
    var groups: map<nat, Group>
    var tree: seq<nat>
    var left: Option<nat>
    var min: int
    var active: Option<nat>
    const idleDelay: nat

    ghost function View(): (s: State)
      reads this
    {
      State(groups, tree, left, min, active, idleDelay)
    }

    /** __cfq_group_service_tree_add: the search for the place, and whether it was to the left all the way. */
    method TreeAdd(id: nat)
      requires id in groups && Ordered(tree, groups) && id !in tree
      modifies this`tree, this`left
      ensures View() == Linked(old(View()), id)
    {
      var k := 0;
      var leftmost := true;
      while k < |tree| && !(groups[id].vdisktime < groups[tree[k]].vdisktime)
        invariant 0 <= k <= |tree| && (leftmost <==> k == 0)
        invariant forall i :: 0 <= i < k ==> groups[tree[i]].vdisktime <= groups[id].vdisktime
      {
        k, leftmost := k + 1, false;
      }
      InsertAt(tree, groups, id, k);
      hide Ordered, Inserted;
      if leftmost {
        left := Some(id);
      }
      tree := tree[..k] + [id] + tree[k..];
    }

    /** cfq_rb_erase */
    method TreeErase(id: nat)
      modifies this`tree, this`left
      ensures View() == Unlinked(old(View()), id)
    {
      if left == Some(id) {
        left := None;
      }
      tree := Without(tree, id);
    }

    /** cfq_group_service_tree_add */
    method GroupAdd(id: nat)
      requires Inv(View()) && id in groups
      modifies this
      ensures View() == Added(old(View()), id) && Inv(View())
    {
      AddKeeps(View(), id);
      var g := groups[id];
      groups := groups[id := g.(nrCfqq := g.nrCfqq + 1)];
      if g.nrCfqq > 0 {
        return;
      }
      ghost var s := old(View());
      var vd := if tree != [] then groups[tree[|tree| - 1]].vdisktime + idleDelay else min;
      assert tree != [] ==> tree[|tree| - 1] in tree;
      var h := Group(vd, g.weight, g.nrCfqq + 1);
      OrderedFrame(tree, s.groups, s.groups[id := h]);
      hide Ordered, Inv, Linked;
      groups := groups[id := h];
      assert groups == s.groups[id := h];
      TreeAdd(id);
    }

    /** cfq_group_service_tree_del */
    method GroupDel(id: nat)
      requires Inv(View()) && id in groups && groups[id].nrCfqq > 0
      modifies this
      ensures View() == Deleted(old(View()), id) && Inv(View())
      ensures active != Some(id) && (old(active) != Some(id) ==> active == old(active))
      ensures id in groups && groups[id].nrCfqq == old(groups[id].nrCfqq) - 1
    {
      DelKeeps(View(), id);
      hide Inv, Unlinked;
      if active == Some(id) {
        active := None;
      }
      groups := groups[id := groups[id].(nrCfqq := groups[id].nrCfqq - 1)];
      if groups[id].nrCfqq > 0 {
        return;
      }
      TreeErase(id);
    }

    /** cfq_get_next_cfqg: the group with the least virtual time. */
    method NextGroup() returns (next: Option<nat>)
      requires Inv(View())
      modifies this`left, this`active, this`min
      ensures View() == Chosen(old(View())) && Inv(View()) && min >= old(min)
      ensures next == None <==> tree == []
      ensures next.Some? ==> next.value in tree
      ensures next.Some? ==> forall x :: x in tree ==> groups[next.value].vdisktime <= groups[x].vdisktime
    {
      ChooseKeeps(View());
      if tree == [] {
        return None;
      }
      forall x | x in tree
        ensures groups[tree[0]].vdisktime <= groups[x].vdisktime
      {
        LastIsLargest(tree, groups, x);
      }
      assert tree[0] in tree;
      hide Ordered;
      if left == None {
        left := Some(tree[0]);
      }
      active := left;
      next := left;
      var vd := groups[active.value].vdisktime;
      vd := Min(vd, groups[left.value].vdisktime);
      min := Max(min, vd);
    }

    /**
     cfq_group_served: the group pays for the slice its queue has used; bug is the BUG_ON on the
     number of sync queues.
     */
    method GroupServed(id: nat, q: CfqQueue, now: nat, busyAsync: nat, idling: nat) returns (bug: bool)
      requires Inv(View()) && id in tree && id in groups && groups[id].weight > 0 && Begun(q, now)
      modifies this`groups, this`tree, this`left
      ensures var onlyAsync := old(groups[id].nrCfqq) == busyAsync + idling;
              View() == Served(old(View()), id, Charge(q, now, onlyAsync))
      ensures Inv(View()) && (bug <==> old(groups[id].nrCfqq) < busyAsync + idling)
      ensures id in groups && groups[id].weight == old(groups[id].weight)
      ensures var charge := Charge(q, now, old(groups[id].nrCfqq) == busyAsync + idling);
              var paid := groups[id].vdisktime - old(groups[id].vdisktime);
              paid * groups[id].weight <= charge * 4096 * 500 < (paid + 1) * groups[id].weight
      ensures q.allocatedSlice > 0 && old(groups[id].weight) <= MAX_WEIGHT ==>
                groups[id].vdisktime > old(groups[id].vdisktime)
    {
      var nrSync := groups[id].nrCfqq - busyAsync - idling;
      bug := nrSync < 0;
      var charge := SliceUsage(q, now);
      if !q.sync && nrSync == 0 {
        charge := q.allocatedSlice;
      }
      var g := groups[id];
      ServiceCosts(charge, g.weight);
      ChargeTimesWeight(charge, g.weight);
      ServeKeeps(View(), id, charge);
      ServedKey(View(), id, charge);
      Recharge(id, charge);
    }

    /** The group leaves the tree, pays, and takes its new place. */
    method Recharge(id: nat, charge: nat)
      requires Inv(View()) && id in tree && id in groups && groups[id].weight > 0
      modifies this`groups, this`tree, this`left
      ensures View() == Served(old(View()), id, charge)
    {
      WithoutOrdered(tree, groups, id);
      var g := groups[id];
      var h := g.(vdisktime := g.vdisktime + Scaled(charge, g.weight));
      OrderedFrame(Without(tree, id), groups, groups[id := h]);
      hide Inv, Scaled, Linked, Ordered, Without;
      TreeErase(id);
      groups := groups[id := h];
      TreeAdd(id);
    }
  }
}
