/**
 Which way two queues are merged, and what the events of CFQ's cooperating queues do to the io
 contexts.  Together with the exact reference counts of CfqForest this fixes every event.
 */
module CfqLinks {
  import opened Lists
  import opened CfqForest

  /** The processes that use q, or are on their way to it. */
  ghost function Processes(s: Cfq, q: nat): (n: nat) { |Upstream(s.queues, s.cic, q)| }

  /** from is redirected to `to`, which takes a reference for every process of from; nothing else changes. */
  ghost predicate Redirected(s: Cfq, s': Cfq, from: nat, to: nat) {
    && from in s.queues && to in s.queues && from != to && s.queues[from].next.None?
    && s' == s.(queues := s.queues[from := s.queues[from].(next := Some(to))]
                                  [to := s.queues[to].(ref := s.queues[to].ref + Processes(s, from))])
  }

  lemma ProcessesAre(s: Cfq, q: nat)
    requires Inv(s) && q in s.queues
    ensures ProcessRefs(s.queues[q]) == Processes(s, q)
  {
    hide Upstream, Holding, Acyclic, Alive;
  }

  /** A queue passes its processes on to everything further down its chain. */
  lemma DownstreamHasMore(s: Cfq, b: nat, root: nat)
    requires Reaches(s.queues, b, root)
    ensures Processes(s, b) <= Processes(s, root)
  {
    hide Reaches;
    forall c | c in Upstream(s.queues, s.cic, b)
      ensures c in Upstream(s.queues, s.cic, root)
    {
      ReachesTrans(s.queues, s.cic[c], b, root);
    }
    SubsetSize(Upstream(s.queues, s.cic, b), Upstream(s.queues, s.cic, root));
  }

  lemma {:induction false} SubsetSize(a: set<nat>, b: set<nat>)
    requires a <= b
    ensures |a| <= |b|
    decreases a
  {
    if a != {} {
      var x :| x in a;
      SubsetSize(a - {x}, b - {x});
    }
  }

  /** The three outcomes of SetupMerge, in terms of the reference counts it reads. */
  lemma SetupShape(s: Cfq, a: nat, b: nat, root: nat)
    requires a in s.queues && b in s.queues && root in s.queues && !s.bug && s.queues[a].next.None?
    requires ProcessRefs(s.queues[a]) >= 0 && ProcessRefs(s.queues[root]) >= 0 && s.queues[root].next.None?
    ensures var s' := SetupMerge(s, a, b, root);
            var (pa, pr) := (ProcessRefs(s.queues[a]), ProcessRefs(s.queues[root]));
            var linked := ProcessRefs(s.queues[b]) != 0 && root != a && pa > 0 && pr > 0;
      && (!linked ==> s' == s)
      && (linked && pa <= pr ==> s' == Link(s, a, root, pa) && s'.queues[a].next == Some(root))
      && (linked && pa > pr ==> s' == Link(s, root, a, pr) && s'.queues[root].next == Some(a))
  {
    assert s.(bug := s.bug || ProcessRefs(s.queues[a]) < 0 || ProcessRefs(s.queues[root]) < 0) == s;
  }

  lemma LinkRedirects(s: Cfq, from: nat, to: nat)
    requires from in s.queues && to in s.queues && from != to && s.queues[from].next.None?
    ensures Redirected(s, Link(s, from, to, Processes(s, from)), from, to)
  {
    hide Upstream;
  }

  /**
   cfq_setup_merge: nothing happens exactly if one of the two queues has no process left or the chain
   of the other leads to a; otherwise the one with fewer processes is redirected, and a on a tie.
   */
  lemma MergesLesserWork(s: Cfq, a: nat, b: nat, root: nat)
    requires Inv(s) && Enabled(s, ESetupMerge(a, b, root))
    ensures var s' := Step(s, ESetupMerge(a, b, root));
            var linked := Processes(s, a) > 0 && Processes(s, b) > 0 && root != a;
      && (s' != s <==> linked)
      && (linked && Processes(s, a) <= Processes(s, root) ==> Redirected(s, s', a, root))
      && (linked && Processes(s, a) > Processes(s, root) ==> Redirected(s, s', root, a))
  {
    ProcessChainIsWhole(s, b);
    assert !s.bug;
    hide Whole, Inv, Processes, ProcessRefs, Redirected, Link, SetupMerge, Reaches;
    ProcessesAre(s, a);
    ProcessesAre(s, b);
    assert s.(bug := s.bug || (ProcessRefs(s.queues[b]) != 0 && !Whole(s.queues, b))) == s;
    if Processes(s, b) > 0 {
      RootMerge(s, a, b, root);
    } else {
      NoMerge(s, a, b, root);
    }
  }

  lemma NoMerge(s: Cfq, a: nat, b: nat, root: nat)
    requires a in s.queues && b in s.queues && root in s.queues && ProcessRefs(s.queues[b]) == 0
    ensures SetupMerge(s, a, b, root) == s
  {
  }

  lemma RootMerge(s: Cfq, a: nat, b: nat, root: nat)
    requires Inv(s) && a in s.queues && b in s.queues && root in s.queues && Processes(s, b) > 0
    requires s.queues[a].next.None? && s.queues[root].next.None? && Reaches(s.queues, b, root)
    ensures var s' := SetupMerge(s, a, b, root);
            var linked := Processes(s, a) > 0 && Processes(s, b) > 0 && root != a;
      && (s' != s <==> linked)
      && (linked && Processes(s, a) <= Processes(s, root) ==> Redirected(s, s', a, root))
      && (linked && Processes(s, a) > Processes(s, root) ==> Redirected(s, s', root, a))
  {
    assert !s.bug;
    DownstreamHasMore(s, b, root);
    hide Inv, Processes, ProcessRefs, Redirected, Link, SetupMerge, Reaches;
    ProcessesAre(s, a);
    ProcessesAre(s, b);
    ProcessesAre(s, root);
    SetupShape(s, a, b, root);
    if a != root {
      LinkRedirects(s, a, root);
      LinkRedirects(s, root, a);
    }
  }

  // ----- where the other events leave the io contexts and requests -----

  lemma MergeMoves(s: Cfq, c: nat)
    requires Inv(s) && Enabled(s, EMerge(c))
    ensures var s' := Step(s, EMerge(c));
      && s.cic[c] in s.queues && s.queues[s.cic[c]].next.Some?
      && s'.cic == s.cic[c := s.queues[s.cic[c]].next.value] && s'.rqs == s.rqs
  {
    hide PutAll, BadPut, Whole, Acyclic, RefsCounted;
  }

  lemma ExitLeaves(s: Cfq, c: nat)
    requires Inv(s) && Enabled(s, EExit(c))
    ensures var s' := Step(s, EExit(c)); s'.cic == s.cic - {c} && s'.rqs == s.rqs
  {
    hide PutAll, BadPut, Whole, Acyclic, RefsCounted, Chain;
  }

  /** split_cfqq lets the only process of a queue keep it and takes any other off. */
  lemma SplitLeaves(s: Cfq, c: nat)
    requires Inv(s) && Enabled(s, ESplit(c))
    ensures var s' := Step(s, ESplit(c)); var alone := Upstream(s.queues, s.cic, s.cic[c]) == {c};
      && (alone ==> s' == s) && (!alone ==> s'.cic == s.cic - {c} && s'.rqs == s.rqs)
  {
    var a := s.cic[c];
    ProcessesAre(s, a);
    ReachesSelf(s.queues, a);
    OnlyOne(Upstream(s.queues, s.cic, a), c);
    hide Drop, Whole, Acyclic, RefsCounted, Upstream;
    if ProcessRefs(s.queues[a]) != 1 { ExitLeaves(s, c); }
  }

  lemma OnlyOne(up: set<nat>, c: nat)
    requires c in up
    ensures |up| == 1 <==> up == {c}
  {
    assert |up - {c}| == |up| - 1;
    assert up == (up - {c}) + {c};
  }

  lemma RequestMoves(s: Cfq, r: nat, c: nat)
    requires Inv(s)
    ensures Enabled(s, EGet(r, c)) ==>
              Step(s, EGet(r, c)).rqs == s.rqs[r := s.cic[c]] && Step(s, EGet(r, c)).cic == s.cic
    ensures Enabled(s, EPut(r)) ==> Step(s, EPut(r)).rqs == s.rqs - {r} && Step(s, EPut(r)).cic == s.cic
  {
    hide PutAll, BadPut, Whole, Acyclic, RefsCounted;
  }
}
