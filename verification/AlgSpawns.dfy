/**
 Removing an algorithm together with every instance that is built on it, as algapi.c does
 with an explicit stack.  A spawn ties an instance to the algorithm it uses; it sits on that
 algorithm's list of users.  Instances are algorithms themselves.
 */
module AlgSpawns {
  import opened Lists

  /** The dependency graph: the users lists, and the instance behind every spawn. */
  datatype Graph = Graph(users: map<nat, seq<nat>>, inst: map<nat, nat>)

  /** Every spawn is on the list of the algorithm it names, and on no other. */
  ghost predicate Linked(g: Graph, on: map<nat, Option<nat>>) {
    && on.Keys == g.inst.Keys
    && (forall s :: s in g.inst ==> g.inst[s] in g.users)
    && (forall a :: a in g.users ==> NoDup(g.users[a]))
    && (forall a, s :: a in g.users && s in g.users[a] ==> s in g.inst && on[s] == Some(a))
  }

  // ----- what depends on an algorithm -----

  /** A path of spawns: the first uses alg, each next one uses the instance of the one before. */
  ghost predicate Path(g: Graph, alg: nat, p: seq<nat>) {
    && |p| > 0 && alg in g.users && p[0] in g.users[alg]
    && (forall i :: 0 <= i < |p| ==> p[i] in g.inst && g.inst[p[i]] in g.users)
    && (forall i :: 0 < i < |p| ==> p[i] in g.users[g.inst[p[i - 1]]])
  }

  /** The spawn depends on alg, directly or through other instances. */
  ghost predicate InCone(g: Graph, alg: nat, s: nat) {
    exists p :: Path(g, alg, p) && p[|p| - 1] == s
  }

  /** The instance depends on alg. */
  ghost predicate Depends(g: Graph, alg: nat, a: nat) {
    exists s :: InCone(g, alg, s) && s in g.inst && g.inst[s] == a
  }

  lemma ConeStarts(g: Graph, on: map<nat, Option<nat>>, alg: nat, s: nat)
    requires Linked(g, on) && alg in g.users && s in g.users[alg]
    ensures InCone(g, alg, s)
  {
    assert Path(g, alg, [s]);
  }

  lemma ConeGrows(g: Graph, on: map<nat, Option<nat>>, alg: nat, s: nat, t: nat)
    requires Linked(g, on) && InCone(g, alg, s) && s in g.inst && t in g.users[g.inst[s]]
    ensures InCone(g, alg, t)
  {
    var p :| Path(g, alg, p) && p[|p| - 1] == s;
    var q := p + [t];
    assert Path(g, alg, q);
  }

  // ----- the walk -----

  /** Where the walk stands: the lists it moves spawns between, all of them head first. */
  datatype Walk = Walk(users: map<nat, seq<nat>>, on: map<nat, Option<nat>>, top: seq<nat>, stack: seq<nat>,
                       secondary: seq<nat>)

  /** The list of users of an algorithm, the users of alg having been moved to top. */
  function UsersOf(users: map<nat, seq<nat>>, top: seq<nat>, alg: nat, a: nat): (s: seq<nat>)
    requires a in users
  {
    if a == alg then top else users[a]
  }

  /** The algorithm whose users come next: the instance on top of the stack, or alg itself. */
  function Current(g: Graph, w: Walk, alg: nat): (a: nat) {
    if w.stack != [] && w.stack[0] in g.inst then g.inst[w.stack[0]] else alg
  }

  /** One turn of the inner loop: the first user goes on the stack and loses its algorithm. */
  function Push(g: Graph, w: Walk, alg: nat): (v: Walk)
    requires Current(g, w, alg) in w.users && UsersOf(w.users, w.top, alg, Current(g, w, alg)) != []
  {
    var a := Current(g, w, alg);
    var spawn := UsersOf(w.users, w.top, alg, a)[0];
    var v := w.(stack := [spawn] + w.stack, on := w.on[spawn := None]);
    if a == alg then v.(top := w.top[1..]) else v.(users := w.users[a := w.users[a][1..]])
  }

  /** crypto_more_spawns: the top of the stack is done with. */
  function Pop(w: Walk): (v: Walk)
    requires w.stack != []
  {
    w.(stack := w.stack[1..], secondary := [w.stack[0]] + w.secondary)
  }

  predicate Visited(w: Walk, s: nat) { s in w.stack || s in w.secondary }

  /** Visited spawns are in the cone, each visited once and cut loose; alg is not among their instances. */
  ghost predicate VisitedInv(g: Graph, alg: nat, w: Walk) {
    && NoDup(w.stack) && NoDup(w.secondary) && (forall s :: s in w.stack ==> s !in w.secondary)
    && (forall s :: Visited(w, s) ==> s in g.inst && g.inst[s] != alg && InCone(g, alg, s))
  }

  ghost predicate OnInv(g: Graph, on: map<nat, Option<nat>>, w: Walk) {
    && w.on.Keys == on.Keys
    && (forall s :: s in on ==> w.on[s] == if Visited(w, s) then None else on[s])
  }

  /** What is left of a list of users. */
  ghost predicate Unvisited(list: seq<nat>, all: seq<nat>, w: Walk) {
    NoDup(list) && forall s :: s in list <==> s in all && !Visited(w, s)
  }

  /** Every list has lost exactly its visited members. */
  ghost predicate ListsInv(g: Graph, alg: nat, w: Walk) {
    && w.users.Keys == g.users.Keys && alg in g.users && w.users[alg] == []
    && (forall a :: a in g.users ==> Unvisited(UsersOf(w.users, w.top, alg, a), g.users[a], w))
  }

  /** Lists are consumed only below a visited spawn, and wholly below a finished one. */
  ghost predicate FinishedInv(g: Graph, alg: nat, w: Walk) {
    && (forall s :: s in w.secondary && s in g.inst && g.inst[s] in w.users ==>
        UsersOf(w.users, w.top, alg, g.inst[s]) == [])
    && (forall a :: a in w.users && a in g.users && a != alg && w.users[a] != g.users[a]
          ==> exists s :: Visited(w, s) && s in g.inst && g.inst[s] == a)
  }

  ghost predicate WalkInv(g: Graph, on: map<nat, Option<nat>>, alg: nat, w: Walk) {
    && VisitedInv(g, alg, w)
    && OnInv(g, on, w)
    && ListsInv(g, alg, w)
    && FinishedInv(g, alg, w)
  }

  lemma CurrentInCone(g: Graph, on: map<nat, Option<nat>>, alg: nat, w: Walk, s: nat)
    requires Linked(g, on) && VisitedInv(g, alg, w) && ListsInv(g, alg, w)
    requires Current(g, w, alg) in g.users && s in g.users[Current(g, w, alg)]
    ensures InCone(g, alg, s)
  {
    hide InCone;
    if w.stack == [] {
      ConeStarts(g, on, alg, s);
    } else {
      assert Visited(w, w.stack[0]);
      ConeGrows(g, on, alg, w.stack[0], s);
    }
  }

  /** The spawn the next Push takes. */
  ghost predicate Takes(g: Graph, alg: nat, w: Walk, s: nat) {
    && Current(g, w, alg) in w.users && UsersOf(w.users, w.top, alg, Current(g, w, alg)) != []
    && s == UsersOf(w.users, w.top, alg, Current(g, w, alg))[0]
  }

  /** Which lists a Push changes. */
  lemma PushChanges(g: Graph, alg: nat, w: Walk, s: nat)
    requires Takes(g, alg, w, s)
    ensures var v := Push(g, w, alg); var a := Current(g, w, alg);
      && (forall x :: Visited(v, x) <==> Visited(w, x) || x == s)
      && v.users.Keys == w.users.Keys
      && UsersOf(v.users, v.top, alg, a) == UsersOf(w.users, w.top, alg, a)[1..]
      && (forall b :: b in w.users && b != a ==> UsersOf(v.users, v.top, alg, b) == UsersOf(w.users, w.top, alg, b))
  {
    var a := Current(g, w, alg);
    hide Current;
    var v := Push(g, w, alg);
    assert v.stack == [s] + w.stack && v.secondary == w.secondary;
  }

  /** The spawn a Push takes is a user of the current algorithm only. */
  lemma TakenIsUser(g: Graph, on: map<nat, Option<nat>>, alg: nat, w: Walk, s: nat)
    requires Linked(g, on) && ListsInv(g, alg, w) && Takes(g, alg, w, s)
    ensures var a := Current(g, w, alg);
      && a in g.users && s in g.users[a] && !Visited(w, s) && s in on && on[s] == Some(a)
      && (forall b :: b in w.users && b != a ==> s !in g.users[b])
  {
    var a := Current(g, w, alg);
    hide Current, NoDup, Visited;
    assert s in UsersOf(w.users, w.top, alg, a);
  }

  lemma PushShape(g: Graph, on: map<nat, Option<nat>>, alg: nat, w: Walk, s: nat)
    requires Linked(g, on) && VisitedInv(g, alg, w) && ListsInv(g, alg, w) && Takes(g, alg, w, s)
    ensures var v := Push(g, w, alg); var a := Current(g, w, alg);
      && (forall x :: Visited(v, x) <==> Visited(w, x) || x == s)
      && v.users.Keys == w.users.Keys
      && UsersOf(v.users, v.top, alg, a) == UsersOf(w.users, w.top, alg, a)[1..]
      && (forall b :: b in w.users && b != a ==>
          UsersOf(v.users, v.top, alg, b) == UsersOf(w.users, w.top, alg, b) && s !in g.users[b])
      && s in g.users[a] && !Visited(w, s) && s in on && on[s] == Some(a)
  {
    PushChanges(g, alg, w, s);
    TakenIsUser(g, on, alg, w, s);
    hide Linked, VisitedInv, Visited, UsersOf, Push, Current, Unvisited;
  }

  lemma PushVisited(g: Graph, on: map<nat, Option<nat>>, alg: nat, w: Walk, s: nat)
    requires Linked(g, on) && VisitedInv(g, alg, w) && ListsInv(g, alg, w)
    requires Takes(g, alg, w, s) && s in g.inst && g.inst[s] != alg
    ensures VisitedInv(g, alg, Push(g, w, alg))
  {
    PushShape(g, on, alg, w, s);
    CurrentInCone(g, on, alg, w, s);
    var v := Push(g, w, alg);
    assert v.stack == [s] + w.stack && v.secondary == w.secondary;
    NoDupCons(s, w.stack);
    hide InCone, Linked, ListsInv, NoDup, Takes, Push, Current, UsersOf;
  }

  lemma PushOn(g: Graph, on: map<nat, Option<nat>>, alg: nat, w: Walk, s: nat)
    requires Linked(g, on) && VisitedInv(g, alg, w) && OnInv(g, on, w) && ListsInv(g, alg, w) && Takes(g, alg, w, s)
    ensures OnInv(g, on, Push(g, w, alg))
  {
    hide InCone, Linked, ListsInv, VisitedInv, Visited, Current, UsersOf;
    PushShape(g, on, alg, w, s);
    assert Push(g, w, alg).on == w.on[s := None];
  }

  lemma PushLists(g: Graph, on: map<nat, Option<nat>>, alg: nat, w: Walk, s: nat)
    requires Linked(g, on) && VisitedInv(g, alg, w) && ListsInv(g, alg, w) && Takes(g, alg, w, s)
    ensures ListsInv(g, alg, Push(g, w, alg))
  {
    PushShape(g, on, alg, w, s);
    var v := Push(g, w, alg);
    var a := Current(g, w, alg);
    assert v.users[alg] == [];
    var rest := UsersOf(v.users, v.top, alg, a);
    assert UsersOf(w.users, w.top, alg, a) == [s] + rest;
    NoDupCons(s, rest);
    assert forall b :: b in w.users && b != a ==> UsersOf(v.users, v.top, alg, b) == UsersOf(w.users, w.top, alg, b);
    hide Linked, VisitedInv, Visited, Current, UsersOf, NoDup, Push, Takes;
    forall b | b in g.users
      ensures Unvisited(UsersOf(v.users, v.top, alg, b), g.users[b], v)
    {
      assert Unvisited(UsersOf(w.users, w.top, alg, b), g.users[b], w);
    }
  }

  lemma PushFinished(g: Graph, on: map<nat, Option<nat>>, alg: nat, w: Walk, s: nat)
    requires Linked(g, on) && VisitedInv(g, alg, w) && ListsInv(g, alg, w) && FinishedInv(g, alg, w)
    requires Takes(g, alg, w, s)
    ensures FinishedInv(g, alg, Push(g, w, alg))
  {
    PushShape(g, on, alg, w, s);
    var v := Push(g, w, alg);
    var a := Current(g, w, alg);
    assert a != alg ==> Visited(v, w.stack[0]) && g.inst[w.stack[0]] == a;
    hide Linked, Visited, InCone, ListsInv;
    forall b | b in v.users && b in g.users && b != alg && v.users[b] != g.users[b]
      ensures exists x :: Visited(v, x) && x in g.inst && g.inst[x] == b
    {
      if b != a {
        assert UsersOf(v.users, v.top, alg, b) == UsersOf(w.users, w.top, alg, b);
        assert w.users[b] != g.users[b];
      }
    }
  }

  lemma PushKeeps(g: Graph, on: map<nat, Option<nat>>, alg: nat, w: Walk, s: nat)
    requires Linked(g, on) && WalkInv(g, on, alg, w)
    requires Takes(g, alg, w, s) && s in g.inst && g.inst[s] != alg
    ensures WalkInv(g, on, alg, Push(g, w, alg))
  {
    hide VisitedInv, OnInv, ListsInv, FinishedInv, Linked;
    PushVisited(g, on, alg, w, s);
    PushOn(g, on, alg, w, s);
    PushLists(g, on, alg, w, s);
    PushFinished(g, on, alg, w, s);
  }

  lemma PopVisited(g: Graph, on: map<nat, Option<nat>>, alg: nat, w: Walk)
    requires VisitedInv(g, alg, w) && OnInv(g, on, w) && w.stack != []
    ensures VisitedInv(g, alg, Pop(w)) && OnInv(g, on, Pop(w))
    ensures forall x :: Visited(Pop(w), x) <==> Visited(w, x)
  {
    var v := Pop(w);
    var s := w.stack[0];
    assert w.stack == [s] + v.stack;
    NoDupCons(s, v.stack);
    NoDupCons(s, w.secondary);
    hide InCone, NoDup, Pop;
  }

  lemma PopKeeps(g: Graph, on: map<nat, Option<nat>>, alg: nat, w: Walk)
    requires WalkInv(g, on, alg, w) && w.stack != []
    requires Current(g, w, alg) in w.users && UsersOf(w.users, w.top, alg, Current(g, w, alg)) == []
    ensures WalkInv(g, on, alg, Pop(w))
  {
    var v := Pop(w);
    var s := w.stack[0];
    PopVisited(g, on, alg, w);
    assert Visited(w, s);
    assert Current(g, w, alg) == g.inst[s];
    NoDupCons(s, w.secondary);
    assert v.users == w.users && v.top == w.top && v.secondary == [s] + w.secondary;
    hide Visited, InCone, VisitedInv, OnInv, NoDup, UsersOf, Pop, Current;
    forall a | a in g.users
      ensures Unvisited(UsersOf(v.users, v.top, alg, a), g.users[a], v)
    {
      assert Unvisited(UsersOf(w.users, w.top, alg, a), g.users[a], w);
    }
    assert ListsInv(g, alg, v);
    hide ListsInv, Unvisited;
    assert FinishedInv(g, alg, v);
  }

  /** The stack has run empty and so has the list of alg: the finished spawns are the cone. */
  lemma {:induction false} PathFinished(g: Graph, on: map<nat, Option<nat>>, alg: nat, w: Walk, p: seq<nat>)
    requires WalkInv(g, on, alg, w) && w.stack == [] && w.top == []
    requires Path(g, alg, p)
    ensures p[|p| - 1] in w.secondary
    decreases |p|
  {
    hide InCone;
    var s := p[|p| - 1];
    if |p| == 1 {
      assert s !in UsersOf(w.users, w.top, alg, alg);
    } else {
      var q := p[..|p| - 1];
      assert Path(g, alg, q);
      PathFinished(g, on, alg, w, q);
      var t := p[|p| - 2];
      assert s in g.users[g.inst[t]] && s !in UsersOf(w.users, w.top, alg, g.inst[t]);
    }
    assert Visited(w, s);
  }

  /** What the walk leaves behind. */
  ghost predicate Detached(g: Graph, on: map<nat, Option<nat>>, alg: nat, w: Walk) {
    && NoDup(w.secondary)
    && (forall s :: s in w.secondary <==> InCone(g, alg, s))
    && (forall s :: s in w.secondary ==> s in g.inst)
    && w.users.Keys == g.users.Keys && w.on.Keys == on.Keys
    && (forall a :: a in g.users ==> w.users[a] == if a == alg || Depends(g, alg, a) then [] else g.users[a])
    && (forall s :: s in on ==> w.on[s] == if InCone(g, alg, s) then None else on[s])
  }

  lemma WalkDone(g: Graph, on: map<nat, Option<nat>>, alg: nat, w: Walk)
    requires Linked(g, on) && WalkInv(g, on, alg, w) && w.stack == [] && w.top == []
    ensures Detached(g, on, alg, w) && !Depends(g, alg, alg)
  {
    forall s
      ensures s in w.secondary <==> InCone(g, alg, s)
    {
      if InCone(g, alg, s) {
        var p :| Path(g, alg, p) && p[|p| - 1] == s;
        PathFinished(g, on, alg, w, p);
      }
      if s in w.secondary {
        assert Visited(w, s);
      }
    }
    hide InCone, Path;
    forall a | a in g.users
      ensures w.users[a] == if a == alg || Depends(g, alg, a) then [] else g.users[a]
    {
      if a != alg {
        assert UsersOf(w.users, w.top, alg, a) == w.users[a];
      }
    }
    assert forall s :: Visited(w, s) <==> InCone(g, alg, s);
  }

  // ----- the registry -----

  /** The spawns the walk has not reached. */
  ghost function Unreached(g: Graph, w: Walk): (u: set<nat>) {
    set s | s in g.inst && !Visited(w, s)
  }

  lemma PushReaches(g: Graph, on: map<nat, Option<nat>>, alg: nat, w: Walk, s: nat)
    requires Linked(g, on) && WalkInv(g, on, alg, w) && Takes(g, alg, w, s)
    ensures Unreached(g, Push(g, w, alg)) < Unreached(g, w)
  {
    PushShape(g, on, alg, w, s);
    hide Visited, VisitedInv, ListsInv, Push, Takes;
    assert s in Unreached(g, w) && s !in Unreached(g, Push(g, w, alg));
  }

  lemma PopReaches(g: Graph, w: Walk)
    requires w.stack != []
    ensures Unreached(g, Pop(w)) == Unreached(g, w)
  {
    var v := Pop(w);
    assert w.stack == [w.stack[0]] + v.stack;
    NoDupCons(w.stack[0], v.stack);
    NoDupCons(w.stack[0], w.secondary);
    assert forall x :: Visited(v, x) <==> Visited(w, x);
  }

  /** The instances behind the first k spawns of a list. */
  ghost function Behind(inst: map<nat, nat>, spawns: seq<nat>, k: nat): (r: set<nat>)
    requires k <= |spawns| && forall s :: s in spawns ==> s in inst
  {
    set i | 0 <= i < k :: inst[spawns[i]]
  }

  class Registry {
    const inst: map<nat, nat>
    var users: map<nat, seq<nat>>
    var on: map<nat, Option<nat>>
    var dead: set<nat>
    var registered: set<nat>
    var hashed: set<nat>

    ghost predicate Valid()
      reads this
    {
      Linked(Graph(users, inst), on)
    }

    /** crypto_remove_spawn: pinned says whose template can still be held; bug is the BUG_ON. */
    method RemoveSpawn(spawn: nat, pinned: set<nat>, list: seq<nat>) returns (bug: bool, now: seq<nat>)
      requires spawn in inst && inst[spawn] in users
      modifies this`dead, this`registered, this`hashed
      ensures dead == old(dead) + {inst[spawn]}
      ensures var freed := inst[spawn] !in old(dead) && inst[spawn] in old(hashed) && inst[spawn] in pinned;
        && now == (if freed then [inst[spawn]] + list else list)
        && hashed == (if freed then old(hashed) - {inst[spawn]} else old(hashed))
        && registered == (if freed then old(registered) - {inst[spawn]} else old(registered))
        && bug == (freed && users[inst[spawn]] != [])
    {
      var i := inst[spawn];
      bug, now := false, list;
      if i in dead {
        return;
      }
      dead := dead + {i};
      if i !in hashed {
        return;
      }
      if i !in pinned {
        return;
      }
      registered, now := registered - {i}, [i] + list;
      hashed := hashed - {i};
      bug := users[i] != [];
    }

    /** The loop over the secondary spawns at the end of crypto_remove_spawns. */
    method RemoveAll(secondary: seq<nat>, pinned: set<nat>, list: seq<nat>) returns (bug: bool, now: seq<nat>)
      requires forall s :: s in secondary ==> s in inst && inst[s] in users && users[inst[s]] == []
      requires NoDup(list) && forall x :: x in list ==> x in dead
      modifies this`dead, this`registered, this`hashed
      ensures !bug && NoDup(now)
      ensures var all := Behind(inst, secondary, |secondary|);
        var freed := (all - old(dead)) * old(hashed) * pinned;
        && dead == old(dead) + all
        && hashed == old(hashed) - freed && registered == old(registered) - freed
        && (forall x :: x in now <==> x in list || x in freed)
    {
      now := list;
      bug := false;
      var k := 0;
      while k < |secondary|
        invariant 0 <= k <= |secondary| && !bug && NoDup(now)
        invariant dead == old(dead) + Behind(inst, secondary, k)
        invariant hashed == old(hashed) - (Behind(inst, secondary, k) - old(dead)) * old(hashed) * pinned
        invariant registered == old(registered) - (Behind(inst, secondary, k) - old(dead)) * old(hashed) * pinned
        invariant forall x :: x in now <==>
            x in list || x in (Behind(inst, secondary, k) - old(dead)) * old(hashed) * pinned
      {
        var s := secondary[k];
        assert Behind(inst, secondary, k + 1) == Behind(inst, secondary, k) + {inst[s]};
        NoDupCons(inst[s], now);
        bug, now := RemoveSpawn(s, pinned, now);
        k := k + 1;
      }
    }

    /** The first loop of crypto_remove_spawns: with no replacement every user of alg passes the type filter. */
    method TakeUsers(alg: nat) returns (top: seq<nat>)
      requires Valid() && alg in users
      modifies this`users
      ensures users == old(users)[alg := []]
      ensures NoDup(top) && forall s :: s in top <==> s in old(users)[alg]
    {
      top := [];
      var rest := users[alg];
      while rest != []
        invariant users == old(users)[alg := rest]
        invariant NoDup(top) && NoDup(rest) && (forall s :: s in top ==> s !in rest)
        invariant forall s :: s in top || s in rest <==> s in old(users)[alg]
        decreases |rest|
      {
        var spawn := rest[0];
        assert rest == [spawn] + rest[1..];
        NoDupCons(spawn, rest[1..]);
        NoDupCons(spawn, top);
        rest := rest[1..];
        users := users[alg := rest];
        top := [spawn] + top;
      }
      assert users == old(users)[alg := []];
    }

    /** The state of the walk, for the given local lists. */
    ghost function Now(top: seq<nat>, stack: seq<nat>, secondary: seq<nat>): (w: Walk)
      reads this
    {
      Walk(users, on, top, stack, secondary)
    }

    /** One turn of the inner loop of crypto_remove_spawns, for a user that is not alg itself. */
    method Visit(ghost g: Graph, ghost on0: map<nat, Option<nat>>, alg: nat, cur: nat, spawn: nat, top: seq<nat>,
                 stack: seq<nat>, ghost secondary: seq<nat>)
      returns (newTop: seq<nat>, newStack: seq<nat>)
      requires Linked(g, on0) && WalkInv(g, on0, alg, Now(top, stack, secondary))
      requires cur == Current(g, Now(top, stack, secondary), alg) && Takes(g, alg, Now(top, stack, secondary), spawn)
      requires spawn in g.inst && g.inst[spawn] != alg
      modifies this`users, this`on
      ensures WalkInv(g, on0, alg, Now(newTop, newStack, secondary))
      ensures Unreached(g, Now(newTop, newStack, secondary)) < old(Unreached(g, Now(top, stack, secondary)))
      ensures Current(g, Now(newTop, newStack, secondary), alg) == g.inst[spawn]
    {
      ghost var w := Now(top, stack, secondary);
      hide WalkInv, Linked, Unreached;
      PushKeeps(g, on0, alg, w, spawn);
      PushReaches(g, on0, alg, w, spawn);
      newStack := [spawn] + stack;
      if cur == alg {
        newTop := top[1..];
      } else {
        newTop := top;
        users := users[cur := users[cur][1..]];
      }
      on := on[spawn := None];
      assert Now(newTop, newStack, secondary) == Push(g, w, alg);
    }

    /** The inner loop: descend from user to user until a list is empty; bug is the BUG_ON on alg. */
    method Descend(ghost g: Graph, ghost on0: map<nat, Option<nat>>, alg: nat, first: nat, top0: seq<nat>,
                   stack0: seq<nat>, ghost secondary: seq<nat>)
      returns (bug: bool, top: seq<nat>, stack: seq<nat>)
      requires g.inst == inst && Linked(g, on0) && WalkInv(g, on0, alg, Now(top0, stack0, secondary))
      requires first == Current(g, Now(top0, stack0, secondary), alg)
      modifies this`users, this`on
      ensures bug ==> Depends(g, alg, alg)
      ensures !bug ==> WalkInv(g, on0, alg, Now(top, stack, secondary))
      ensures !bug ==> var a := Current(g, Now(top, stack, secondary), alg);
        a in users && UsersOf(users, top, alg, a) == []
      ensures !bug ==> Unreached(g, Now(top, stack, secondary)) <= old(Unreached(g, Now(top0, stack0, secondary)))
      ensures !bug && Unreached(g, Now(top, stack, secondary)) == old(Unreached(g, Now(top0, stack0, secondary)))
        ==> stack == stack0
    {
      hide WalkInv, Linked, InCone, Unreached, UsersOf, Current, Depends;
      bug, top, stack := false, top0, stack0;
      var cur := first;
      CurrentListed(g, on0, alg, Now(top, stack, secondary));
      while UsersOf(users, top, alg, cur) != []
        invariant WalkInv(g, on0, alg, Now(top, stack, secondary))
        invariant cur == Current(g, Now(top, stack, secondary), alg) && cur in users
        invariant Unreached(g, Now(top, stack, secondary)) <= old(Unreached(g, Now(top0, stack0, secondary)))
        invariant Unreached(g, Now(top, stack, secondary)) == old(Unreached(g, Now(top0, stack0, secondary)))
          ==> stack == stack0
        decreases Unreached(g, Now(top, stack, secondary))
      {
        var spawn := UsersOf(users, top, alg, cur)[0];
        FirstInCone(g, on0, alg, Now(top, stack, secondary), spawn);
        if inst[spawn] == alg {
          return true, top, stack;
        }
        top, stack := Visit(g, on0, alg, cur, spawn, top, stack, secondary);
        cur := inst[spawn];
        CurrentListed(g, on0, alg, Now(top, stack, secondary));
      }
    }

    /** The do-while of crypto_remove_spawns: the walk over everything that depends on alg. */
    method Walkthrough(ghost g: Graph, ghost on0: map<nat, Option<nat>>, alg: nat, top0: seq<nat>)
      returns (bug: bool, secondary: seq<nat>)
      requires g.inst == inst && Linked(g, on0) && WalkInv(g, on0, alg, Now(top0, [], []))
      modifies this`users, this`on
      ensures bug <==> Depends(g, alg, alg)
      ensures !bug ==> Detached(g, on0, alg, Now([], [], secondary))
    {
      hide WalkInv, Linked, InCone, Unreached, UsersOf, Depends, Detached;
      var top, stack := top0, [];
      secondary := [];
      var cur, more := alg, true;
      while more
        invariant WalkInv(g, on0, alg, Now(top, stack, secondary))
        invariant more ==> cur == Current(g, Now(top, stack, secondary), alg)
        invariant !more ==> stack == [] && top == []
        decreases Unreached(g, Now(top, stack, secondary)), |stack|, more
      {
        bug, top, stack := Descend(g, on0, alg, cur, top, stack, secondary);
        if bug {
          return;
        }
        if stack == [] {
          more := false;
          EmptyTop(alg, users, top);
        } else {
          ghost var w := Now(top, stack, secondary);
          PopKeeps(g, on0, alg, w);
          PopReaches(g, w);
          secondary, stack := [stack[0]] + secondary, stack[1..];
          assert Now(top, stack, secondary) == Pop(w);
          StackInstances(g, on0, alg, Now(top, stack, secondary));
          cur := if stack == [] then alg else inst[stack[0]];
        }
      }
      WalkDone(g, on0, alg, Now(top, stack, secondary));
      bug := false;
    }

    ghost function Books(list: seq<nat>): (b: Status)
      reads this
    {
      Status(dead, registered, hashed, list)
    }

    /** crypto_remove_spawns with no replacement algorithm. */
    method RemoveSpawns(alg: nat, pinned: set<nat>, list: seq<nat>) returns (bug: bool, now: seq<nat>)
      requires Valid() && alg in users && NoDup(list) && forall x :: x in list ==> x in dead
      modifies this
      ensures bug <==> old(Depends(Graph(users, inst), alg, alg))
      ensures !bug ==> Valid() && CutLoose(old(Graph(users, inst)), old(on), alg, users, on)
      ensures !bug ==> NoDup(now) && Pruned(old(Graph(users, inst)), alg, pinned, old(Books(list)), Books(now))
    {
      ghost var g, on0, st0 := Graph(users, inst), on, Books(list);
      var top := TakeUsers(alg);
      WalkStarts(g, on0, alg, Now(top, [], []));
      hide Linked, Depends, InCone, NoDup, Detached, CutLoose, Pruned;
      var secondary: seq<nat>;
      bug, secondary := Walkthrough(g, on0, alg, top);
      if bug {
        return true, list;
      }
      Detaching(g, on0, alg, Now([], [], secondary));
      bug, now := RemoveAll(secondary, pinned, list);
      Pruning(g, on0, alg, Walk(users, on, [], [], secondary), pinned, st0, Books(now));
    }

    /** crypto_remove_alg; missing stands for -ENOENT. */
    method RemoveAlg(alg: nat, pinned: set<nat>) returns (missing: bool, bug: bool, list: seq<nat>)
      requires Valid() && alg in users
      modifies this
      ensures missing <==> alg !in old(registered)
      ensures missing ==> unchanged(this) && list == [] && !bug
      ensures !missing ==> (bug <==> old(Depends(Graph(users, inst), alg, alg)))
      ensures !missing && !bug ==> Valid() && CutLoose(old(Graph(users, inst)), old(on), alg, users, on)
      ensures !missing && !bug ==> NoDup(list) && alg in dead && alg !in registered
      ensures !missing && !bug ==>
        Pruned(old(Graph(users, inst)), alg, pinned,
               Status(old(dead) + {alg}, old(registered) - {alg}, old(hashed), []), Books(list))
    {
      if alg !in registered {
        return true, false, [];
      }
      missing := false;
      dead := dead + {alg};
      registered := registered - {alg};
      bug, list := RemoveSpawns(alg, pinned, []);
    }
  }

  /** The algorithms that are marked dead, registered, and on a template's list; and the list to destroy. */
  datatype Status = Status(dead: set<nat>, registered: set<nat>, hashed: set<nat>, list: seq<nat>)

  /**
   The users lists of alg and of its dependents are empty and their spawns name no algorithm; the rest is
   untouched.
   */
  ghost predicate CutLoose(g: Graph, on0: map<nat, Option<nat>>, alg: nat, users: map<nat, seq<nat>>,
                           on: map<nat, Option<nat>>)
  {
    && users.Keys == g.users.Keys && on.Keys == on0.Keys
    && (forall a :: a in g.users ==> users[a] == if a == alg || Depends(g, alg, a) then [] else g.users[a])
    && (forall s :: s in on0 ==> on[s] == if InCone(g, alg, s) then None else on0[s])
  }

  /** A dependent that was alive and listed by a template that can be held. */
  ghost predicate Freed(g: Graph, alg: nat, pinned: set<nat>, st: Status, a: nat) {
    Depends(g, alg, a) && a !in st.dead && a in st.hashed && a in pinned
  }

  /** Exactly the dependents of alg die, and exactly the freed ones move to the list to destroy. */
  ghost predicate Pruned(g: Graph, alg: nat, pinned: set<nat>, was: Status, now: Status) {
    && (forall a :: a in now.dead <==> a in was.dead || Depends(g, alg, a))
    && (forall a :: a in now.hashed <==> a in was.hashed && !Freed(g, alg, pinned, was, a))
    && (forall a :: a in now.registered <==> a in was.registered && !Freed(g, alg, pinned, was, a))
    && (forall a :: a in now.list <==> a in was.list || Freed(g, alg, pinned, was, a))
  }

  lemma Detaching(g: Graph, on: map<nat, Option<nat>>, alg: nat, w: Walk)
    requires Linked(g, on) && Detached(g, on, alg, w)
    ensures CutLoose(g, on, alg, w.users, w.on) && Linked(Graph(w.users, g.inst), w.on)
    ensures forall s :: s in w.secondary ==> s in g.inst && g.inst[s] in w.users && w.users[g.inst[s]] == []
  {
    forall a, s | a in w.users && s in w.users[a]
      ensures w.on[s] == Some(a)
    {
      assert s in g.users[a];
      if InCone(g, alg, s) {
        ConeEnds(g, on, alg, a, s);
      }
    }
    hide InCone, Path;
    forall s | s in w.secondary
      ensures w.users[g.inst[s]] == []
    {
      assert Depends(g, alg, g.inst[s]);
    }
    assert forall a :: a in w.users ==> NoDup(w.users[a]);
  }

  /** A spawn in the cone uses alg or one of its dependents. */
  lemma ConeEnds(g: Graph, on: map<nat, Option<nat>>, alg: nat, a: nat, s: nat)
    requires Linked(g, on) && a in g.users && s in g.users[a] && InCone(g, alg, s)
    ensures a == alg || Depends(g, alg, a)
  {
    var p :| Path(g, alg, p) && p[|p| - 1] == s;
    if |p| == 1 {
      assert on[s] == Some(alg);
    } else {
      var q := p[..|p| - 1];
      assert Path(g, alg, q) && q[|q| - 1] == p[|p| - 2];
      assert InCone(g, alg, p[|p| - 2]);
      assert on[s] == Some(g.inst[p[|p| - 2]]);
    }
  }

  lemma Pruning(g: Graph, on: map<nat, Option<nat>>, alg: nat, w: Walk, pinned: set<nat>, was: Status, now: Status)
    requires Detached(g, on, alg, w)
    requires var all := Behind(g.inst, w.secondary, |w.secondary|);
      var freed := (all - was.dead) * was.hashed * pinned;
      && now.dead == was.dead + all
      && now.hashed == was.hashed - freed && now.registered == was.registered - freed
      && (forall x :: x in now.list <==> x in was.list || x in freed)
    ensures Pruned(g, alg, pinned, was, now)
  {
    hide InCone;
    var all := Behind(g.inst, w.secondary, |w.secondary|);
    forall a
      ensures a in all <==> Depends(g, alg, a)
    {
      if Depends(g, alg, a) {
        var s :| InCone(g, alg, s) && s in g.inst && g.inst[s] == a;
        assert s in w.secondary;
      }
    }
    hide Depends, Behind;
    assert forall a :: Freed(g, alg, pinned, was, a) <==> a in (all - was.dead) * was.hashed * pinned;
  }

  lemma CurrentListed(g: Graph, on: map<nat, Option<nat>>, alg: nat, w: Walk)
    requires Linked(g, on) && WalkInv(g, on, alg, w)
    ensures Current(g, w, alg) in w.users
  {
    hide InCone;
    if w.stack != [] {
      assert Visited(w, w.stack[0]);
    }
  }

  lemma FirstInCone(g: Graph, on: map<nat, Option<nat>>, alg: nat, w: Walk, s: nat)
    requires Linked(g, on) && WalkInv(g, on, alg, w) && Takes(g, alg, w, s)
    ensures s in g.inst && InCone(g, alg, s) && (g.inst[s] == alg ==> Depends(g, alg, alg))
  {
    PushShape(g, on, alg, w, s);
    CurrentInCone(g, on, alg, w, s);
    hide InCone;
  }

  /** Nothing is left to descend into: the list of alg itself has run empty. */
  lemma EmptyTop(alg: nat, users: map<nat, seq<nat>>, top: seq<nat>)
    requires alg in users && UsersOf(users, top, alg, alg) == []
    ensures top == []
  {
  }

  lemma StackInstances(g: Graph, on: map<nat, Option<nat>>, alg: nat, w: Walk)
    requires Linked(g, on) && WalkInv(g, on, alg, w)
    ensures w.stack != [] ==> w.stack[0] in g.inst
  {
    hide InCone;
    assert w.stack != [] ==> Visited(w, w.stack[0]);
  }

  lemma WalkStarts(g: Graph, on: map<nat, Option<nat>>, alg: nat, w: Walk)
    requires Linked(g, on) && alg in g.users
    requires w.users == g.users[alg := []] && w.on == on && w.stack == [] && w.secondary == []
    requires NoDup(w.top) && forall s :: s in w.top <==> s in g.users[alg]
    ensures WalkInv(g, on, alg, w)
  {
    hide InCone;
    assert forall s :: !Visited(w, s);
  }
}
