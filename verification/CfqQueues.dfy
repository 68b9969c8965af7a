/**
 The walks along new_cfqq chains as cfq-iosched.c performs them, each proved against the
 operations of CfqForest.
 */
module CfqQueues {
  import opened Lists
  import opened CfqForest
  import L = CfqLinks

  lemma ChainStep(queues: Queues, x: nat)
    requires Acyclic(queues) && x in queues
    ensures queues[x].next.None? ==> Chain(queues, x) == {x}
    ensures queues[x].next.Some? ==> Chain(queues, x) == {x} + Chain(queues, queues[x].next.value)
    ensures queues[x].next.Some? ==> x !in Chain(queues, queues[x].next.value)
  {
    forall q: nat
      ensures Reaches(queues, x, q) <==> x == q || (queues[x].next.Some? && Reaches(queues, queues[x].next.value, q))
    {
      ReachesStep(queues, x, q);
    }
    if queues[x].next.Some? && Reaches(queues, queues[x].next.value, x) {
      var rank :| Ranks(queues, rank);
      ReachesRank(queues, rank, queues[x].next.value, x);
    }
    hide Reaches;
  }

  lemma PutTwice(queues: Queues, S: set<nat>, T: set<nat>)
    requires S !! T
    ensures PutAll(PutAll(queues, S), T) == PutAll(queues, S + T)
  {
  }

  lemma PutOther(queues: Queues, S: set<nat>, q: nat)
    requires q in queues && q !in S
    ensures q in PutAll(queues, S) && PutAll(queues, S)[q] == queues[q]
  {
  }

  lemma PutNone(queues: Queues)
    ensures PutAll(queues, {}) == queues
  {
  }

  /** The next queue of a whole chain is in memory and on the chain. */
  lemma WalkOn(queues: Queues, a: nat, q: nat)
    requires Whole(queues, a) && Reaches(queues, a, q)
    ensures q in queues
    ensures queues[q].next.Some? ==> queues[q].next.value in queues && Reaches(queues, a, queues[q].next.value)
  {
    if queues[q].next.Some? {
      var y := queues[q].next.value;
      ReachesSelf(queues, y);
      ReachesStep(queues, q, y);
      ReachesTrans(queues, a, q, y);
    }
  }

  class CfqData {
    var queues: Queues
    var cic: map<nat, nat>
    var rqs: map<nat, nat>

    ghost function View(): (s: Cfq)
      reads this
    {
      Cfq(queues, cic, rqs, false)
    }

    /** cfq_put_queue */
    method PutQueue(q: nat)
      requires q in queues
      modifies this`queues
      ensures queues == PutAll(old(queues), {q})
    {
      if queues[q].ref == 1 {
        queues := map x | x in queues && x != q :: queues[x];
      } else {
        queues := queues[q := queues[q].(ref := queues[q].ref - 1)];
      }
    }

    /**
     cfq_put_cooperator: read the link before the reference is dropped, because the queue
     may be gone afterwards.
     */
    method PutCooperator(a: nat)
      requires Acyclic(queues) && a in queues && Whole(queues, a)
      modifies this`queues
      ensures queues == PutAll(old(queues), Chain(old(queues), a) - {a})
    {
      hide Reaches, Chain, PutAll, Whole, Acyclic;
      ghost var all := queues;
      ghost var below := Chain(all, a) - {a};
      ChainStep(all, a);
      ReachesSelf(all, a);
      WalkOn(all, a, a);
      PutNone(all);
      var at := queues[a].next;
      ghost var gone := {};
      while at.Some?
        invariant queues == PutAll(all, gone)
        invariant below == gone + (if at.Some? then Chain(all, at.value) else {})
        invariant at.Some? ==> at.value in all && Reaches(all, a, at.value) && gone !! Chain(all, at.value)
        decreases if at.Some? then Chain(all, at.value) else {}, at.Some?
      {
        var q := at.value;
        ChainStep(all, q);
        WalkOn(all, a, q);
        PutOther(all, gone, q);
        var next := queues[q].next;
        PutQueue(q);
        PutTwice(all, gone, {q});
        at := next;
        gone := gone + {q};
      }
      assert gone == below;
    }

    /** cfq_exit_cfqq, and split_cfqq for a queue with other processes left */
    method ExitQueue(c: nat)
      requires Inv(View()) && c in cic
      modifies this
      ensures View() == Drop(old(View()), c) && Inv(View())
    {
      hide Reaches, Chain, PutAll, Whole, Acyclic, RefsCounted;
      ghost var s := View();
      DropKeeps(s, c);
      var a := cic[c];
      cic := cic - {c};
      PutCooperator(a);
      ghost var below := Chain(s.queues, a) - {a};
      PutOther(s.queues, below, a);
      PutQueue(a);
      PutTwice(s.queues, below, {a});
      ChainStep(s.queues, a);
      assert below + {a} == Chain(s.queues, a);
      DropResult(s, c);
    }

    /** cfq_setup_merge, for an active queue a that is not scheduled to merge yet */
    method SetupMergeWith(a: nat, b: nat) returns (ghost root: nat)
      requires Inv(View()) && a in queues && b in queues && a != b && queues[a].next.None?
      modifies this`queues
      ensures Enabled(old(View()), ESetupMerge(a, b, root))
      ensures View() == Step(old(View()), ESetupMerge(a, b, root)) && Inv(View())
      ensures old(L.Processes(View(), a) == 0 || L.Processes(View(), b) == 0) || root == a <==> View() == old(View())
      ensures View() != old(View()) ==>
                if old(L.Processes(View(), a)) <= old(L.Processes(View(), root))
                then L.Redirected(old(View()), View(), a, root)
                else L.Redirected(old(View()), View(), root, a)
    {
      hide Reaches, Chain, Whole, Acyclic, RefsCounted, Link;
      ghost var s := View();
      ProcessChainIsWhole(s, a);
      ProcessChainIsWhole(s, b);
      root := b;
      if ProcessRefs(queues[b]) == 0 {
        SetupMergeKeeps(s, a, b, b);
        L.MergesLesserWork(s, a, b, b);
        return;
      }
      var at := b;
      ReachesSelf(queues, b);
      ChainStep(queues, b);
      while queues[at].next.Some? && queues[at].next.value != a
        invariant queues == s.queues && at in queues && at != a && Reaches(queues, b, at)
        decreases Chain(queues, at)
      {
        ChainStep(queues, at);
        WalkOn(queues, b, at);
        at := queues[at].next.value;
        ChainStep(queues, at);
      }
      WalkOn(queues, b, at);
      root := if queues[at].next.Some? then a else at;
      SetupMergeKeeps(s, a, b, root);
      L.MergesLesserWork(s, a, b, root);
      hide L.Processes, L.Redirected;
      if queues[at].next.Some? { return; }
      ProcessChainIsWhole(s, at);
      var refs, newRefs := ProcessRefs(queues[a]), ProcessRefs(queues[at]);
      if refs == 0 || newRefs == 0 { return; }
      if newRefs >= refs {
        LinkTo(a, at, refs);
      } else {
        LinkTo(at, a, newRefs);
      }
    }

    method LinkTo(from: nat, to: nat, n: int)
      requires from in queues && to in queues
      modifies this`queues
      ensures View() == Link(old(View()), from, to, n)
    {
      queues := queues[from := queues[from].(next := Some(to))];
      queues := queues[to := queues[to].(ref := queues[to].ref + n)];
    }
  }

  lemma DropResult(s: Cfq, c: nat)
    requires Inv(s) && c in s.cic
    ensures Drop(s, c).queues == PutAll(s.queues, Chain(s.queues, s.cic[c]))
    ensures Drop(s, c) == Cfq(Drop(s, c).queues, s.cic - {c}, s.rqs, false)
  {
    DropKeeps(s, c);
  }

  /**
   Why cfq_setup_merge looks for process references before it follows a chain: a queue kept
   alive only by a request can have a link to a queue that has been freed.
   */
  lemma UnreferencedChainMayDangle() returns (states: seq<Cfq>, events: seq<Event>)
    ensures Run(states, events)
    ensures var queues := states[|events|].queues;
            10 in queues && ProcessRefs(queues[10]) == 0 && !Whole(queues, 10)
  {
    hide Drop, Whole, Enabled, Step;
    var s0, s1, s2, s3, s4 := FirstSteps();
    ExitTwo(s4);
    states := [s0, s1, s2, s3, s4, Drop(s4, 0), Drop(Drop(s4, 0), 1)];
    events := [EAllocate(0, 10), EAllocate(1, 11), ESetupMerge(10, 11, 11), EGet(5, 0), EExit(0), EExit(1)];
    Dangles(states[6].queues);
  }

  lemma FirstSteps() returns (s0: Cfq, s1: Cfq, s2: Cfq, s3: Cfq, s4: Cfq)
    ensures s0 == Cfq(map[], map[], map[], false)
    ensures Next(s0, EAllocate(0, 10), s1) && Next(s1, EAllocate(1, 11), s2)
    ensures Next(s2, ESetupMerge(10, 11, 11), s3) && Next(s3, EGet(5, 0), s4)
    ensures s4 == Cfq(map[10 := Cfqq(2, 1, Some(11)), 11 := Cfqq(2, 0, None)],
                   map[0 := 10, 1 := 11], map[5 := 10], false)
  {
    s0 := Cfq(map[], map[], map[], false);
    s1 := Cfq(map[10 := Cfqq(1, 0, None)], map[0 := 10], map[], false);
    s2 := Cfq(map[10 := Cfqq(1, 0, None), 11 := Cfqq(1, 0, None)], map[0 := 10, 1 := 11], map[], false);
    s3 := Cfq(map[10 := Cfqq(1, 0, Some(11)), 11 := Cfqq(2, 0, None)], map[0 := 10, 1 := 11], map[], false);
    s4 := Cfq(map[10 := Cfqq(2, 1, Some(11)), 11 := Cfqq(2, 0, None)], map[0 := 10, 1 := 11], map[5 := 10], false);
    AllocateTwo(s0, s1, s2);
    LinkTwo(s2, s3, s4);
    hide Next;
  }

  ghost predicate Next(s: Cfq, e: Event, s': Cfq) { Enabled(s, e) && s' == Step(s, e) }

  lemma AllocateTwo(s0: Cfq, s1: Cfq, s2: Cfq)
    requires s0 == Cfq(map[], map[], map[], false)
    requires s1 == Cfq(map[10 := Cfqq(1, 0, None)], map[0 := 10], map[], false)
    requires s2 == Cfq(map[10 := Cfqq(1, 0, None), 11 := Cfqq(1, 0, None)], map[0 := 10, 1 := 11], map[], false)
    ensures Next(s0, EAllocate(0, 10), s1) && Next(s1, EAllocate(1, 11), s2)
  {
  }

  lemma LinkTwo(s2: Cfq, s3: Cfq, s4: Cfq)
    requires s2 == Cfq(map[10 := Cfqq(1, 0, None), 11 := Cfqq(1, 0, None)], map[0 := 10, 1 := 11], map[], false)
    requires s3 == Cfq(map[10 := Cfqq(1, 0, Some(11)), 11 := Cfqq(2, 0, None)], map[0 := 10, 1 := 11], map[], false)
    requires s4 == Cfq(map[10 := Cfqq(2, 1, Some(11)), 11 := Cfqq(2, 0, None)],
                    map[0 := 10, 1 := 11], map[5 := 10], false)
    ensures Next(s2, ESetupMerge(10, 11, 11), s3) && Next(s3, EGet(5, 0), s4)
  {
    AllocatedTwo(s2);
    LinkedTwo(s2, s3, s4);
    hide SetupMerge, GetRequest, Whole, Reaches;
  }

  lemma ExitTwo(s4: Cfq)
    requires s4 == Cfq(map[10 := Cfqq(2, 1, Some(11)), 11 := Cfqq(2, 0, None)],
                    map[0 := 10, 1 := 11], map[5 := 10], false)
    ensures Next(s4, EExit(0), Drop(s4, 0)) && Drop(s4, 0).cic == map[1 := 11]
    ensures Next(Drop(s4, 0), EExit(1), Drop(Drop(s4, 0), 1))
    ensures Drop(Drop(s4, 0), 1) == Cfq(map[10 := Cfqq(1, 1, Some(11))], map[], map[5 := 10], false)
  {
    FirstExit(s4);
    SecondExit(Drop(s4, 0));
    hide Drop;
  }

  lemma Dangles(queues: Queues)
    requires 10 in queues && queues[10].next == Some(11) && 11 !in queues
    ensures !Whole(queues, 10)
  {
    ReachesSelf(queues, 10);
  }

  lemma LinkedTwo(s2: Cfq, s3: Cfq, s4: Cfq)
    requires s2 == Cfq(map[10 := Cfqq(1, 0, None), 11 := Cfqq(1, 0, None)], map[0 := 10, 1 := 11], map[], false)
    requires s3 == Cfq(map[10 := Cfqq(1, 0, Some(11)), 11 := Cfqq(2, 0, None)], map[0 := 10, 1 := 11], map[], false)
    requires s4 == Cfq(map[10 := Cfqq(2, 1, Some(11)), 11 := Cfqq(2, 0, None)],
                    map[0 := 10, 1 := 11], map[5 := 10], false)
    ensures SetupMerge(s2, 10, 11, 11) == s3 && GetRequest(s3, 5, 0) == s4
  {
  }

  lemma AllocatedTwo(s: Cfq)
    requires s.queues == map[10 := Cfqq(1, 0, None), 11 := Cfqq(1, 0, None)]
    ensures Whole(s.queues, 11) && Reaches(s.queues, 11, 11)
  {
    WholeAlone(s.queues, 11);
    ReachesSelf(s.queues, 11);
  }

  lemma FirstExit(s: Cfq)
    requires s == Cfq(map[10 := Cfqq(2, 1, Some(11)), 11 := Cfqq(2, 0, None)],
                    map[0 := 10, 1 := 11], map[5 := 10], false)
    ensures Drop(s, 0) == Cfq(map[10 := Cfqq(1, 1, Some(11)), 11 := Cfqq(1, 0, None)],
                           map[1 := 11], map[5 := 10], false)
  {
    FirstChain(s.queues);
    hide Reaches, Chain, Whole;
  }

  lemma FirstChain(queues: Queues)
    requires queues == map[10 := Cfqq(2, 1, Some(11)), 11 := Cfqq(2, 0, None)]
    ensures Chain(queues, 10) == {10, 11} && Whole(queues, 10)
  {
    assert Ranks(queues, map[10 := 0, 11 := 1]);
    ChainStep(queues, 10);
    ChainStep(queues, 11);
    hide Reaches, Chain;
    assert Chain(queues, 10) == {10, 11};
  }

  lemma SecondExit(s: Cfq)
    requires s == Cfq(map[10 := Cfqq(1, 1, Some(11)), 11 := Cfqq(1, 0, None)], map[1 := 11], map[5 := 10], false)
    ensures Drop(s, 1) == Cfq(map[10 := Cfqq(1, 1, Some(11))], map[], map[5 := 10], false)
  {
    assert Ranks(s.queues, map[10 := 0, 11 := 1]);
    ChainStep(s.queues, 11);
    WholeAlone(s.queues, 11);
    hide Reaches, Chain;
    assert Chain(s.queues, 11) == {11};
  }
}
