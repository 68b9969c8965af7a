/**
 Cooperating queues of the CFQ scheduler (cfq-iosched.c).

 Queues of processes that read close to each other are scheduled to merge: new_cfqq links
 make a forest, and each process reference on a queue is duplicated on everything further
 down its chain.  A queue is freed when its last reference is dropped, and links to freed
 queues may dangle.  Identifiers stand for addresses, so a freed one may be allocated again.
 */
module CfqForest {
  import opened Lists

  /** ref, allocated[READ] + allocated[WRITE], new_cfqq */
  datatype Cfqq = Cfqq(ref: int, held: int, next: Option<nat>)

  type Queues = map<nat, Cfqq>

  datatype Cfq = Cfq(
    queues: Queues,       // sync queues that have not been freed
    cic: map<nat, nat>,   // sync queue of each io context that has one
    rqs: map<nat, nat>,   // queue of each request holding elevator data
    bug: bool)            // a BUG_ON fired or a freed queue was followed

  /** The queue n links down from x, if the links lead that far over queues in memory. */
  ghost function At(queues: Queues, x: nat, n: nat): (q: Option<nat>)
    decreases n
  {
    if x !in queues then None
    else if n == 0 then Some(x)
    else if queues[x].next.None? then None
    else At(queues, queues[x].next.value, n - 1)
  }

  ghost predicate Reaches(queues: Queues, x: nat, q: nat) {
    x in queues && q in queues && exists n: nat :: At(queues, x, n) == Some(q)
  }

  /** Io contexts at or upstream of q. */
  ghost function Upstream(queues: Queues, cic: map<nat, nat>, q: nat): (cs: set<nat>) {
    set c | c in cic && Reaches(queues, cic[c], q)
  }

  ghost function Holding(rqs: map<nat, nat>, q: nat): (rs: set<nat>) {
    set r | r in rqs && rqs[r] == q
  }

  function ProcessRefs(c: Cfqq): (n: int) { c.ref - c.held }

  /** cfq_put_queue on every queue of S */
  function PutAll(queues: Queues, S: set<nat>): (qs: Queues) {
    map q | q in queues && !(q in S && queues[q].ref == 1) ::
      if q in S then queues[q].(ref := queues[q].ref - 1) else queues[q]
  }

  /** A put that would fire a BUG_ON: no reference left, or freeing with requests allocated. */
  predicate BadPut(queues: Queues, S: set<nat>) {
    exists q :: q in S && (q !in queues || queues[q].ref <= 0 || (queues[q].ref == 1 && queues[q].held != 0))
  }

  function Put(s: Cfq, S: set<nat>): (s': Cfq) {
    s.(queues := PutAll(s.queues, S), bug := s.bug || BadPut(s.queues, S))
  }

  /** cfq_get_queue for an io context without a queue; f is the address of the new one. */
  function Allocate(s: Cfq, c: nat, f: nat): (s': Cfq) {
    s.(queues := s.queues[f := Cfqq(1, 0, None)], cic := s.cic[c := f])
  }

  /** The links of a chain lead over queues in memory only. */
  ghost predicate Whole(queues: Queues, x: nat) {
    forall q :: Reaches(queues, x, q) && queues[q].next.Some? ==> queues[q].next.value in queues
  }

  /**
   cfq_setup_merge(a, b); root is where the walk along new_cfqq from b ends.
   The caller has checked that a has no new_cfqq yet.
   */
  function SetupMerge(s: Cfq, a: nat, b: nat, root: nat): (s': Cfq)
    requires a in s.queues && b in s.queues && root in s.queues
  {
    if ProcessRefs(s.queues[b]) == 0 || root == a then s
    else
      var pa, pr := ProcessRefs(s.queues[a]), ProcessRefs(s.queues[root]);
      var s1 := s.(bug := s.bug || pa < 0 || pr < 0);
      if pa == 0 || pr == 0 then s1
      else if pr >= pa then Link(s1, a, root, pa)
      else Link(s1, root, a, pr)
  }

  /** from->new_cfqq = to, with n more references on to */
  function Link(s: Cfq, from: nat, to: nat, n: int): (s': Cfq)
    requires from in s.queues && to in s.queues
  {
    var qs := s.queues[from := s.queues[from].(next := Some(to))];
    s.(queues := qs[to := qs[to].(ref := qs[to].ref + n)])
  }

  /** cfq_merge_cfqqs: the io context moves one link down. */
  function MergeCic(s: Cfq, c: nat): (s': Cfq)
    requires c in s.cic && s.cic[c] in s.queues && s.queues[s.cic[c]].next.Some?
  {
    var a := s.cic[c];
    Put(s.(cic := s.cic[c := s.queues[a].next.value]), {a})
  }

  /** cfq_exit_cfqq, or the second half of split_cfqq: drop c's references along its whole chain. */
  ghost function Drop(s: Cfq, c: nat): (s': Cfq)
    requires c in s.cic
  {
    var a := s.cic[c];
    var s1 := s.(cic := s.cic - {c}, bug := s.bug || !Whole(s.queues, a));
    Put(s1, Chain(s.queues, a))
  }

  ghost function Chain(queues: Queues, a: nat): (qs: set<nat>) {
    set q | q in queues && Reaches(queues, a, q)
  }

  /** split_cfqq: the last process keeps the queue. */
  ghost function Split(s: Cfq, c: nat): (s': Cfq)
    requires c in s.cic && s.cic[c] in s.queues
  {
    if ProcessRefs(s.queues[s.cic[c]]) == 1 then s else Drop(s, c)
  }

  /** The end of cfq_set_request: a request takes a reference on its io context's queue. */
  function GetRequest(s: Cfq, r: nat, c: nat): (s': Cfq)
    requires c in s.cic && s.cic[c] in s.queues
  {
    var a := s.cic[c];
    var q := s.queues[a];
    s.(queues := s.queues[a := q.(ref := q.ref + 1, held := q.held + 1)], rqs := s.rqs[r := a])
  }

  /** cfq_put_request */
  function PutRequest(s: Cfq, r: nat): (s': Cfq)
    requires r in s.rqs && s.rqs[r] in s.queues
  {
    var a := s.rqs[r];
    var q := s.queues[a];
    Put(s.(queues := s.queues[a := q.(held := q.held - 1)], rqs := s.rqs - {r},
           bug := s.bug || q.held <= 0), {a})
  }

  datatype Event =
    | EAllocate(c: nat, f: nat)
    | ESetupMerge(a: nat, b: nat, root: nat)
    | EMerge(c: nat)
    | ESplit(c: nat)
    | EExit(c: nat)
    | EGet(r: nat, c: nat)
    | EPut(r: nat)

  /** When the scheduler performs an operation; memory safety is not among the conditions. */
  ghost predicate Enabled(s: Cfq, e: Event) {
    match e
    case EAllocate(c, f) => c !in s.cic && f !in s.queues
    case ESetupMerge(a, b, root) =>
      && a in s.queues && b in s.queues && a != b && s.queues[a].next.None?
      && (if ProcessRefs(s.queues[b]) == 0 || !Whole(s.queues, b) then root == b
          else Reaches(s.queues, b, root) && s.queues[root].next.None?)
    case EMerge(c) => c in s.cic && (s.cic[c] in s.queues ==> s.queues[s.cic[c]].next.Some?)
    case ESplit(c) => c in s.cic
    case EExit(c) => c in s.cic
    case EGet(r, c) => c in s.cic && r !in s.rqs
    case EPut(r) => r in s.rqs
  }

  ghost function Step(s: Cfq, e: Event): (s': Cfq)
    requires Enabled(s, e)
  {
    match e
    case EAllocate(c, f) => Allocate(s, c, f)
    case ESetupMerge(a, b, root) =>
      var s1 := s.(bug := s.bug || (ProcessRefs(s.queues[b]) != 0 && !Whole(s.queues, b)));
      SetupMerge(s1, a, b, root)
    case EMerge(c) => if s.cic[c] in s.queues then MergeCic(s, c) else s.(bug := true)
    case ESplit(c) => if s.cic[c] in s.queues then Split(s, c) else s.(bug := true)
    case EExit(c) => if s.cic[c] in s.queues then Drop(s, c) else s.(bug := true)
    case EGet(r, c) => if s.cic[c] in s.queues then GetRequest(s, r, c) else s.(bug := true)
    case EPut(r) => if s.rqs[r] in s.queues then PutRequest(s, r) else s.(bug := true)
  }

  /** A numbering that grows along every link between queues in memory. */
  ghost predicate Ranks(queues: Queues, rank: map<nat, nat>) {
    && queues.Keys <= rank.Keys
    && forall q :: q in queues && queues[q].next.Some? && queues[q].next.value in queues ==>
         rank[q] < rank[queues[q].next.value]
  }

  ghost predicate Acyclic(queues: Queues) { exists rank :: Ranks(queues, rank) }

  /** Each reference is an allocated request, or a process at or upstream of the queue. */
  ghost predicate RefsCounted(s: Cfq) {
    forall q :: q in s.queues ==>
      && s.queues[q].held == |Holding(s.rqs, q)|
      && s.queues[q].ref == s.queues[q].held + |Upstream(s.queues, s.cic, q)|
      && s.queues[q].ref > 0
  }

  /** Chains that start at an io context stay in memory; so do the queues of requests. */
  ghost predicate Alive(s: Cfq) {
    && (forall c :: c in s.cic ==> s.cic[c] in s.queues && Whole(s.queues, s.cic[c]))
    && (forall r :: r in s.rqs ==> s.rqs[r] in s.queues)
  }

  ghost predicate Inv(s: Cfq) { !s.bug && Acyclic(s.queues) && RefsCounted(s) && Alive(s) }

  // ---- Chains ----

  lemma ReachesSelf(queues: Queues, x: nat)
    requires x in queues
    ensures Reaches(queues, x, x)
  {
    assert At(queues, x, 0) == Some(x);
  }

  lemma {:induction false} AtIsLive(queues: Queues, x: nat, n: nat)
    ensures At(queues, x, n).Some? ==> x in queues && At(queues, x, n).value in queues
    decreases n
  {
    if x in queues && n > 0 && queues[x].next.Some? { AtIsLive(queues, queues[x].next.value, n - 1); }
  }

  /** Reachability, one link at a time. */
  lemma ReachesStep(queues: Queues, x: nat, q: nat)
    ensures Reaches(queues, x, q) <==>
            x in queues && (x == q || (queues[x].next.Some? && Reaches(queues, queues[x].next.value, q)))
  {
    if Reaches(queues, x, q) {
      var n: nat :| At(queues, x, n) == Some(q);
      if n > 0 {
        assert At(queues, queues[x].next.value, n - 1) == Some(q);
        AtIsLive(queues, queues[x].next.value, n - 1);
      }
    }
    if x in queues {
      if x == q {
        ReachesSelf(queues, x);
      } else if queues[x].next.Some? && Reaches(queues, queues[x].next.value, q) {
        var n: nat :| At(queues, queues[x].next.value, n) == Some(q);
        assert At(queues, x, n + 1) == Some(q);
      }
    }
  }

  lemma {:induction false} AtRank(queues: Queues, rank: map<nat, nat>, x: nat, n: nat)
    requires Ranks(queues, rank) && At(queues, x, n).Some?
    ensures var q := At(queues, x, n).value;
            x in rank && q in rank && rank[x] <= rank[q] && (n > 0 ==> rank[x] < rank[q])
    decreases n
  {
    if n > 0 {
      AtIsLive(queues, queues[x].next.value, n - 1);
      AtRank(queues, rank, queues[x].next.value, n - 1);
    }
  }

  /** A chain never comes back. */
  lemma ReachesRank(queues: Queues, rank: map<nat, nat>, x: nat, q: nat)
    requires Ranks(queues, rank) && Reaches(queues, x, q)
    ensures x in rank && q in rank && (x == q || rank[x] < rank[q])
  {
    var n: nat :| At(queues, x, n) == Some(q);
    AtRank(queues, rank, x, n);
  }

  /** Chains depend only on which queues exist and where they link. */
  ghost predicate SameLinks(queues: Queues, queues': Queues) {
    queues.Keys == queues'.Keys && forall q :: q in queues ==> queues'[q].next == queues[q].next
  }

  lemma {:induction false} AtFrame(queues: Queues, queues': Queues, x: nat, n: nat)
    requires SameLinks(queues, queues')
    ensures At(queues', x, n) == At(queues, x, n)
    decreases n
  {
    if x in queues && n > 0 && queues[x].next.Some? { AtFrame(queues, queues', queues[x].next.value, n - 1); }
  }

  lemma ReachesFrame(queues: Queues, queues': Queues)
    requires SameLinks(queues, queues')
    ensures forall x: nat, q: nat :: Reaches(queues', x, q) <==> Reaches(queues, x, q)
    ensures forall x: nat :: Whole(queues', x) <==> Whole(queues, x)
    ensures forall rank :: Ranks(queues', rank) <==> Ranks(queues, rank)
  {
    forall x: nat, q: nat ensures Reaches(queues', x, q) <==> Reaches(queues, x, q) {
      if Reaches(queues', x, q) {
        var n: nat :| At(queues', x, n) == Some(q);
        AtFrame(queues, queues', x, n);
      }
      if Reaches(queues, x, q) {
        var n: nat :| At(queues, x, n) == Some(q);
        AtFrame(queues, queues', x, n);
      }
    }
  }

  lemma {:induction false} AtAppend(queues: Queues, x: nat, n: nat)
    requires At(queues, x, n).Some?
    ensures var a := At(queues, x, n).value;
            && a in queues
            && At(queues, x, n + 1) ==
                 (if queues[a].next.Some? && queues[a].next.value in queues then queues[a].next else None)
    decreases n
  {
    AtIsLive(queues, x, n);
    if n > 0 { AtAppend(queues, queues[x].next.value, n - 1); }
  }

  /** Two ends of chains from the same queue are the same end. */
  lemma RootIsUnique(queues: Queues, x: nat, a: nat, b: nat)
    requires Reaches(queues, x, a) && Reaches(queues, x, b)
    requires queues[a].next.None? && queues[b].next.None?
    ensures a == b
  {
    var m: nat :| At(queues, x, m) == Some(a);
    var n: nat :| At(queues, x, n) == Some(b);
    AtEnds(queues, x, m, n);
    AtEnds(queues, x, n, m);
  }

  lemma {:induction false} AtEnds(queues: Queues, x: nat, m: nat, n: nat)
    requires At(queues, x, m).Some? && At(queues, x, m).value in queues
    requires queues[At(queues, x, m).value].next.None?
    ensures m < n ==> At(queues, x, n).None?
    decreases m
  {
    if m > 0 && n > 0 { AtEnds(queues, queues[x].next.value, m - 1, n - 1); }
  }

  // ---- cfq_setup_merge ----

  ghost predicate Linked(queues: Queues, queues': Queues, from: nat, to: nat) {
    && from in queues && to in queues && from != to && queues[from].next.None? && queues[to].next.None?
    && SameLinks(queues[from := queues[from].(next := Some(to))], queues')
  }

  lemma {:induction false} AtLinked(queues: Queues, queues': Queues, from: nat, to: nat, x: nat, n: nat)
    requires Linked(queues, queues', from, to)
    ensures At(queues, x, n).Some? ==> At(queues', x, n) == At(queues, x, n)
    ensures At(queues', x, n).Some? ==>
              At(queues, x, n) == At(queues', x, n) || (At(queues', x, n) == Some(to) && Reaches(queues, x, from))
    decreases n
  {
    if x in queues && n > 0 {
      ReachesSelf(queues, x);
      if x == from {
        assert n > 1 ==> At(queues', to, n - 1).None?;
      } else if queues[x].next.Some? {
        var y := queues[x].next.value;
        AtLinked(queues, queues', from, to, y, n - 1);
        ReachesStep(queues, x, from);
      }
    }
  }

  lemma ReachesLinked(queues: Queues, queues': Queues, from: nat, to: nat, x: nat, q: nat)
    requires Linked(queues, queues', from, to)
    ensures Reaches(queues', x, q) <==> Reaches(queues, x, q) || (Reaches(queues, x, from) && q == to)
  {
    if Reaches(queues', x, q) {
      var n: nat :| At(queues', x, n) == Some(q);
      AtLinked(queues, queues', from, to, x, n);
    }
    if Reaches(queues, x, q) {
      var n: nat :| At(queues, x, n) == Some(q);
      AtLinked(queues, queues', from, to, x, n);
    }
    if Reaches(queues, x, from) && q == to {
      var n: nat :| At(queues, x, n) == Some(from);
      AtLinked(queues, queues', from, to, x, n);
      AtAppend(queues', x, n);
      assert At(queues', x, n + 1) == Some(to);
    }
  }

  lemma RanksLinked(queues: Queues, queues': Queues, from: nat, to: nat)
    requires Linked(queues, queues', from, to) && Acyclic(queues)
    ensures Acyclic(queues')
  {
    var rank :| Ranks(queues, rank);
    var rank' := rank[to := if rank[to] > rank[from] then rank[to] else rank[from] + 1];
    assert Ranks(queues', rank');
  }

  lemma UpstreamLinked(queues: Queues, queues': Queues, cic: map<nat, nat>, from: nat, to: nat, q: nat)
    requires Linked(queues, queues', from, to)
    ensures Upstream(queues', cic, q) == if q == to then Upstream(queues, cic, to) + Upstream(queues, cic, from)
                                         else Upstream(queues, cic, q)
    ensures Upstream(queues, cic, to) !! Upstream(queues, cic, from)
  {
    forall c | c in cic
      ensures Reaches(queues', cic[c], q) <==> Reaches(queues, cic[c], q) || (Reaches(queues, cic[c], from) && q == to)
      ensures !(Reaches(queues, cic[c], to) && Reaches(queues, cic[c], from))
    {
      ReachesLinked(queues, queues', from, to, cic[c], q);
      if Reaches(queues, cic[c], to) && Reaches(queues, cic[c], from) { RootIsUnique(queues, cic[c], from, to); }
    }
    hide Reaches;
  }

  lemma WholeLinked(queues: Queues, queues': Queues, from: nat, to: nat, x: nat)
    requires Linked(queues, queues', from, to) && Whole(queues, x)
    ensures Whole(queues', x)
  {
    hide At;
    forall q | Reaches(queues', x, q) && queues'[q].next.Some? ensures queues'[q].next.value in queues' {
      ReachesLinked(queues, queues', from, to, x, q);
    }
  }

  /** The references added to the target are exactly the processes that now lie upstream of it. */
  lemma LinkKeeps(s: Cfq, from: nat, to: nat)
    requires Inv(s) && from in s.queues && to in s.queues && from != to
    requires s.queues[from].next.None? && s.queues[to].next.None?
    ensures Inv(Link(s, from, to, ProcessRefs(s.queues[from])))
  {
    hide Reaches, Upstream, Acyclic, Holding, Whole;
    var s' := Link(s, from, to, ProcessRefs(s.queues[from]));
    assert Linked(s.queues, s'.queues, from, to);
    RanksLinked(s.queues, s'.queues, from, to);
    forall q: nat
      ensures Upstream(s'.queues, s.cic, q) ==
        if q == to then Upstream(s.queues, s.cic, to) + Upstream(s.queues, s.cic, from)
                                               else Upstream(s.queues, s.cic, q)
    {
      UpstreamLinked(s.queues, s'.queues, s.cic, from, to, q);
    }
    UpstreamLinked(s.queues, s'.queues, s.cic, from, to, to);
    forall c | c in s.cic ensures Whole(s'.queues, s.cic[c]) {
      WholeLinked(s.queues, s'.queues, from, to, s.cic[c]);
    }
  }

  lemma LinkingKeeps(s: Cfq, a: nat, b: nat, root: nat)
    requires Inv(s) && a in s.queues && b in s.queues && root in s.queues && s.queues[a].next.None?
    requires ProcessRefs(s.queues[b]) != 0 ==> s.queues[root].next.None?
    ensures Inv(SetupMerge(s, a, b, root))
  {
    hide Reaches, Upstream, Holding, Whole, Acyclic, Link;
    if ProcessRefs(s.queues[b]) != 0 && root != a {
      ProcessChainIsWhole(s, a);
      ProcessChainIsWhole(s, root);
      LinkKeeps(s, a, root);
      LinkKeeps(s, root, a);
      hide RefsCounted, Alive;
      assert s.(bug := s.bug || ProcessRefs(s.queues[a]) < 0 || ProcessRefs(s.queues[root]) < 0) == s;
    }
  }

  lemma SetupMergeKeeps(s: Cfq, a: nat, b: nat, root: nat)
    requires Inv(s) && Enabled(s, ESetupMerge(a, b, root))
    ensures Inv(Step(s, ESetupMerge(a, b, root)))
  {
    ProcessChainIsWhole(s, b);
    LinkingKeeps(s, a, b, root);
    assert !s.bug;
    hide Whole, Inv, SetupMerge;
    assert s.(bug := s.bug || (ProcessRefs(s.queues[b]) != 0 && !Whole(s.queues, b))) == s;
  }

  /** A queue with a process reference has its whole chain in memory. */
  lemma ProcessChainIsWhole(s: Cfq, b: nat)
    requires Inv(s) && b in s.queues
    ensures ProcessRefs(s.queues[b]) >= 0
    ensures ProcessRefs(s.queues[b]) > 0 ==> Whole(s.queues, b)
  {
    hide At, Acyclic, Holding;
    if ProcessRefs(s.queues[b]) > 0 {
      assert |Upstream(s.queues, s.cic, b)| > 0;
      var c :| c in Upstream(s.queues, s.cic, b);
      forall q | Reaches(s.queues, b, q) && s.queues[q].next.Some? ensures s.queues[q].next.value in s.queues {
        ReachesTrans(s.queues, s.cic[c], b, q);
      }
    }
  }

  lemma ReachesTrans(queues: Queues, x: nat, y: nat, z: nat)
    requires Reaches(queues, x, y) && Reaches(queues, y, z)
    ensures Reaches(queues, x, z)
  {
    var m: nat :| At(queues, x, m) == Some(y);
    var n: nat :| At(queues, y, n) == Some(z);
    AtPlus(queues, x, m, n);
  }

  lemma {:induction false} AtPlus(queues: Queues, x: nat, m: nat, n: nat)
    requires At(queues, x, m).Some?
    ensures At(queues, x, m + n) == At(queues, At(queues, x, m).value, n)
    decreases m
  {
    if m > 0 { AtPlus(queues, queues[x].next.value, m - 1, n); }
  }

  // ---- Dropping references ----

  /** Counts are right except that each queue of S has one reference too many. */
  ghost predicate Surplus(s: Cfq, S: set<nat>) {
    forall q :: q in s.queues ==>
      && s.queues[q].held == |Holding(s.rqs, q)|
      && s.queues[q].ref == s.queues[q].held + |Upstream(s.queues, s.cic, q)| + (if q in S then 1 else 0)
      && s.queues[q].ref > 0
  }

  /** The chain from x does not meet the freed queues. */
  lemma {:induction false} AtRemoved(queues: Queues, queues': Queues, x: nat, n: nat)
    requires queues'.Keys <= queues.Keys && (forall q :: q in queues' ==> queues'[q].next == queues[q].next)
    requires forall q :: Reaches(queues, x, q) ==> q in queues'
    ensures At(queues', x, n) == At(queues, x, n)
    decreases n
  {
    if x in queues {
      ReachesSelf(queues, x);
      if n > 0 && queues[x].next.Some? {
        var y := queues[x].next.value;
        forall q | Reaches(queues, y, q) ensures q in queues' { ReachesStep(queues, x, q); }
        AtRemoved(queues, queues', y, n - 1);
      }
    }
  }

  lemma ReachesRemoved(queues: Queues, queues': Queues, x: nat, q: nat)
    requires queues'.Keys <= queues.Keys && (forall q :: q in queues' ==> queues'[q].next == queues[q].next)
    requires forall q :: Reaches(queues, x, q) ==> q in queues'
    ensures Reaches(queues', x, q) <==> Reaches(queues, x, q)
  {
    if Reaches(queues', x, q) {
      var n: nat :| At(queues', x, n) == Some(q);
      AtRemoved(queues, queues', x, n);
    }
    if Reaches(queues, x, q) {
      var n: nat :| At(queues, x, n) == Some(q);
      AtRemoved(queues, queues', x, n);
    }
  }

  lemma FreedIsUnused(s: Cfq, S: set<nat>, f: nat)
    requires Surplus(s, S) && f in S && f in s.queues && s.queues[f].ref == 1
    ensures s.queues[f].held == 0 && Upstream(s.queues, s.cic, f) == {} && Holding(s.rqs, f) == {}
  {
    hide Reaches;
  }

  lemma ChainSurvives(s: Cfq, S: set<nat>, c: nat, q: nat)
    requires Surplus(s, S) && c in s.cic && Reaches(s.queues, s.cic[c], q)
    ensures q in PutAll(s.queues, S)
  {
    hide At;
    assert c in Upstream(s.queues, s.cic, q);
    if q in S && s.queues[q].ref == 1 { FreedIsUnused(s, S, q); }
  }

  lemma PutReaches(s: Cfq, S: set<nat>, c: nat, q: nat)
    requires Surplus(s, S) && c in s.cic
    ensures Reaches(PutAll(s.queues, S), s.cic[c], q) <==> Reaches(s.queues, s.cic[c], q)
  {
    forall q | Reaches(s.queues, s.cic[c], q) ensures q in PutAll(s.queues, S) { ChainSurvives(s, S, c, q); }
    hide Surplus, At;
    ReachesRemoved(s.queues, PutAll(s.queues, S), s.cic[c], q);
  }

  lemma PutUpstream(s: Cfq, S: set<nat>, q: nat)
    requires Surplus(s, S)
    ensures Upstream(PutAll(s.queues, S), s.cic, q) == Upstream(s.queues, s.cic, q)
  {
    hide Surplus, Reaches;
    forall c | c in s.cic ensures Reaches(PutAll(s.queues, S), s.cic[c], q) <==> Reaches(s.queues, s.cic[c], q) {
      PutReaches(s, S, c, q);
    }
  }

  lemma PutWhole(s: Cfq, S: set<nat>, c: nat)
    requires Surplus(s, S) && c in s.cic && Whole(s.queues, s.cic[c]) && s.cic[c] in s.queues
    ensures s.cic[c] in PutAll(s.queues, S) && Whole(PutAll(s.queues, S), s.cic[c])
  {
    hide Surplus, At;
    var x, qs := s.cic[c], PutAll(s.queues, S);
    ReachesSelf(s.queues, x);
    ChainSurvives(s, S, c, x);
    forall q | Reaches(qs, x, q) && qs[q].next.Some? ensures qs[q].next.value in qs {
      PutReaches(s, S, c, q);
      var y := qs[q].next.value;
      ReachesSelf(s.queues, y);
      ReachesStep(s.queues, q, y);
      ReachesTrans(s.queues, x, q, y);
      ChainSurvives(s, S, c, y);
    }
  }

  lemma PutAcyclic(queues: Queues, S: set<nat>)
    requires Acyclic(queues)
    ensures Acyclic(PutAll(queues, S))
  {
    var rank :| Ranks(queues, rank);
    assert Ranks(PutAll(queues, S), rank);
  }

  lemma PutIsGood(s: Cfq, S: set<nat>)
    requires Surplus(s, S) && S <= s.queues.Keys
    ensures !BadPut(s.queues, S)
    ensures forall r :: r in s.rqs && s.rqs[r] in s.queues ==> s.rqs[r] in PutAll(s.queues, S)
  {
    forall f | f in S && s.queues[f].ref == 1 ensures s.queues[f].held == 0 && Holding(s.rqs, f) == {} {
      FreedIsUnused(s, S, f);
    }
    hide Upstream;
    forall r | r in s.rqs && s.rqs[r] in s.queues ensures s.rqs[r] in PutAll(s.queues, S) {
      assert r in Holding(s.rqs, s.rqs[r]);
    }
  }

  lemma PutCounts(s: Cfq, S: set<nat>)
    requires Acyclic(s.queues) && Alive(s) && Surplus(s, S) && S <= s.queues.Keys
    ensures RefsCounted(Put(s, S))
  {
    var s' := Put(s, S);
    hide Acyclic, Whole, BadPut, Alive;
    forall q: nat ensures Upstream(s'.queues, s.cic, q) == Upstream(s.queues, s.cic, q) { PutUpstream(s, S, q); }
    hide Upstream, Holding;
  }

  lemma PutAlive(s: Cfq, S: set<nat>)
    requires Acyclic(s.queues) && Alive(s) && Surplus(s, S) && S <= s.queues.Keys
    ensures Alive(Put(s, S))
  {
    var s' := Put(s, S);
    PutIsGood(s, S);
    forall c | c in s.cic ensures s.cic[c] in s'.queues && Whole(s'.queues, s.cic[c]) { PutWhole(s, S, c); }
    hide Acyclic, Upstream, Whole, Holding, BadPut, Surplus, PutAll;
  }

  /** cfq_put_queue frees only queues nothing leads to any more. */
  lemma PutKeeps(s: Cfq, S: set<nat>)
    requires !s.bug && Acyclic(s.queues) && Alive(s) && Surplus(s, S) && S <= s.queues.Keys
    ensures Inv(Put(s, S))
  {
    hide Acyclic, Alive, Surplus, RefsCounted, BadPut, PutAll;
    PutAcyclic(s.queues, S);
    PutIsGood(s, S);
    PutCounts(s, S);
    PutAlive(s, S);
  }

  // ---- The other steps ----

  lemma {:induction false} AtAllocated(queues: Queues, f: nat, k: Cfqq, x: nat, n: nat)
    requires f !in queues && x in queues && Whole(queues, x)
    ensures At(queues[f := k], x, n) == At(queues, x, n)
    decreases n
  {
    if n > 0 && queues[x].next.Some? {
      var y := queues[x].next.value;
      ReachesSelf(queues, x);
      forall q | Reaches(queues, y, q) ensures queues[q].next.Some? ==> queues[q].next.value in queues {
        ReachesStep(queues, x, q);
      }
      AtAllocated(queues, f, k, y, n - 1);
    }
  }

  /** No chain that starts at a process leads to the new queue. */
  lemma ReachesAllocated(queues: Queues, f: nat, k: Cfqq, x: nat, q: nat)
    requires f !in queues && x in queues && Whole(queues, x)
    ensures Reaches(queues[f := k], x, q) <==> Reaches(queues, x, q)
  {
    if Reaches(queues[f := k], x, q) {
      var n: nat :| At(queues[f := k], x, n) == Some(q);
      AtAllocated(queues, f, k, x, n);
      AtIsLive(queues, x, n);
    }
    if Reaches(queues, x, q) {
      var n: nat :| At(queues, x, n) == Some(q);
      AtAllocated(queues, f, k, x, n);
    }
  }

  lemma {:induction false} RankBound(keys: set<nat>, rank: map<nat, nat>) returns (b: nat)
    requires keys <= rank.Keys
    ensures forall q :: q in keys ==> rank[q] < b
    decreases keys
  {
    if keys == {} {
      b := 0;
    } else {
      var q :| q in keys;
      b := RankBound(keys - {q}, rank);
      if b <= rank[q] { b := rank[q] + 1; }
    }
  }

  lemma AcyclicAllocated(queues: Queues, f: nat, k: Cfqq)
    requires Acyclic(queues) && f !in queues && k.next.None?
    ensures Acyclic(queues[f := k])
  {
    var rank :| Ranks(queues, rank);
    var b := RankBound(queues.Keys, rank);
    assert Ranks(queues[f := k], rank[f := b]);
  }

  lemma UpstreamAllocated(s: Cfq, c: nat, f: nat, q: nat)
    requires Alive(s) && c !in s.cic && f !in s.queues
    ensures var s' := Allocate(s, c, f);
            Upstream(s'.queues, s'.cic, q) == if q == f then {c} else Upstream(s.queues, s.cic, q)
  {
    var s' := Allocate(s, c, f);
    forall d | d in s.cic ensures Reaches(s'.queues, s.cic[d], q) <==> Reaches(s.queues, s.cic[d], q) {
      ReachesAllocated(s.queues, f, Cfqq(1, 0, None), s.cic[d], q);
    }
    ReachesStep(s'.queues, f, q);
    hide At;
  }

  lemma WholeAllocated(queues: Queues, f: nat, k: Cfqq, x: nat)
    requires f !in queues && x in queues && Whole(queues, x)
    ensures Whole(queues[f := k], x)
  {
    hide At;
    var qs := queues[f := k];
    forall q | Reaches(qs, x, q) && qs[q].next.Some?
      ensures qs[q].next.value in qs
    {
      ReachesAllocated(queues, f, k, x, q);
    }
  }

  lemma WholeAlone(queues: Queues, f: nat)
    requires f in queues && queues[f].next.None?
    ensures Whole(queues, f)
  {
    hide At;
    forall q | Reaches(queues, f, q) ensures q == f { ReachesStep(queues, f, q); }
  }

  lemma NothingHeld(s: Cfq, f: nat)
    requires Alive(s) && f !in s.queues
    ensures Holding(s.rqs, f) == {}
  {
  }

  lemma AllocateKeeps(s: Cfq, c: nat, f: nat)
    requires Inv(s) && c !in s.cic && f !in s.queues
    ensures Inv(Allocate(s, c, f))
  {
    hide Reaches, Upstream, Holding, Whole, Acyclic;
    var s' := Allocate(s, c, f);
    AcyclicAllocated(s.queues, f, Cfqq(1, 0, None));
    NothingHeld(s, f);
    forall d | d in s.cic
      ensures Whole(s'.queues, s.cic[d])
    {
      WholeAllocated(s.queues, f, Cfqq(1, 0, None), s.cic[d]);
    }
    WholeAlone(s'.queues, f);
    forall q: nat ensures Upstream(s'.queues, s'.cic, q) == if q == f then {c} else Upstream(s.queues, s.cic, q) {
      UpstreamAllocated(s, c, f, q);
    }
  }

  lemma MoveUpstream(queues: Queues, cic: map<nat, nat>, c: nat, b: nat, q: nat)
    requires Acyclic(queues) && c in cic && cic[c] in queues && queues[cic[c]].next == Some(b) && b in queues
    ensures Upstream(queues, cic[c := b], q) ==
      if q == cic[c] then Upstream(queues, cic, q) - {c} else Upstream(queues, cic, q)
    ensures q == cic[c] ==> c in Upstream(queues, cic, q)
  {
    var a := cic[c];
    var rank :| Ranks(queues, rank);
    ReachesStep(queues, a, q);
    if Reaches(queues, b, a) { ReachesRank(queues, rank, b, a); }
    hide Reaches;
  }

  lemma WholeBelow(queues: Queues, a: nat, b: nat)
    requires a in queues && queues[a].next == Some(b) && Whole(queues, a)
    ensures b in queues && Whole(queues, b)
  {
    ReachesSelf(queues, a);
    hide At;
    forall q | Reaches(queues, b, q) && queues[q].next.Some? ensures queues[q].next.value in queues {
      ReachesStep(queues, a, q);
    }
  }

  /** An io context that moves down a link leaves exactly one queue's upstream. */
  lemma MergeCicKeeps(s: Cfq, c: nat)
    requires Inv(s) && c in s.cic && s.queues[s.cic[c]].next.Some?
    ensures Inv(MergeCic(s, c))
  {
    hide Reaches, Upstream, Holding, Whole, Acyclic;
    var a := s.cic[c];
    var b := s.queues[a].next.value;
    var s1 := s.(cic := s.cic[c := b]);
    WholeBelow(s.queues, a, b);
    forall q: nat
      ensures Upstream(s.queues, s1.cic, q) ==
        if q == a then Upstream(s.queues, s.cic, a) - {c} else Upstream(s.queues, s.cic, q)
      ensures q == a ==> c in Upstream(s.queues, s.cic, q)
    {
      MoveUpstream(s.queues, s.cic, c, b, q);
    }
    PutKeeps(s1, {a});
  }

  lemma DropUpstream(queues: Queues, cic: map<nat, nat>, c: nat, q: nat)
    requires c in cic
    ensures Upstream(queues, cic - {c}, q) == Upstream(queues, cic, q) - {c}
    ensures c in Upstream(queues, cic, q) <==> q in Chain(queues, cic[c])
  {
    assert Reaches(queues, cic[c], q) ==> q in queues;
    hide Reaches;
  }

  /** A process that leaves takes its reference off every queue of its chain. */
  lemma DropKeeps(s: Cfq, c: nat)
    requires Inv(s) && c in s.cic
    ensures Inv(Drop(s, c))
  {
    hide Reaches, Upstream, Holding, Whole, Acyclic;
    var S := Chain(s.queues, s.cic[c]);
    var s1 := s.(cic := s.cic - {c});
    forall q: nat
      ensures Upstream(s.queues, s1.cic, q) == Upstream(s.queues, s.cic, q) - {c}
      ensures c in Upstream(s.queues, s.cic, q) <==> q in S
    {
      DropUpstream(s.queues, s.cic, c, q);
    }
    assert S <= s.queues.Keys;
    hide Chain;
    PutKeeps(s1, S);
  }

  lemma HoldingChange(rqs: map<nat, nat>, r: nat, a: nat, q: nat)
    ensures r !in rqs ==> Holding(rqs[r := a], q) == if q == a then Holding(rqs, q) + {r} else Holding(rqs, q)
    ensures r !in rqs ==> r !in Holding(rqs, q)
    ensures r in rqs ==> Holding(rqs - {r}, q) == if q == rqs[r] then Holding(rqs, q) - {r} else Holding(rqs, q)
    ensures r in rqs && q == rqs[r] ==> r in Holding(rqs, q)
  {
  }

  /** Counters may change as long as the links do not. */
  lemma UpstreamFrame(queues: Queues, queues': Queues, cic: map<nat, nat>)
    requires SameLinks(queues, queues')
    ensures forall q: nat :: Upstream(queues', cic, q) == Upstream(queues, cic, q)
    ensures forall x: nat :: Whole(queues', x) <==> Whole(queues, x)
    ensures Acyclic(queues') <==> Acyclic(queues)
  {
    ReachesFrame(queues, queues');
    hide Reaches, Ranks;
    assert Acyclic(queues) ==> Acyclic(queues') by {
      if Acyclic(queues) { var rank :| Ranks(queues, rank); assert Ranks(queues', rank); }
    }
    assert Acyclic(queues') ==> Acyclic(queues) by {
      if Acyclic(queues') { var rank :| Ranks(queues', rank); assert Ranks(queues, rank); }
    }
  }

  lemma GetRequestKeeps(s: Cfq, r: nat, c: nat)
    requires Inv(s) && c in s.cic && r !in s.rqs
    ensures Inv(GetRequest(s, r, c))
  {
    hide Reaches, Upstream, Holding, Whole, Acyclic;
    var s' := GetRequest(s, r, c);
    UpstreamFrame(s.queues, s'.queues, s.cic);
    forall q: nat ensures Holding(s'.rqs, q) == if q == s.cic[c] then Holding(s.rqs, q) + {r} else Holding(s.rqs, q)
                  ensures r !in Holding(s.rqs, q)
    {
      HoldingChange(s.rqs, r, s.cic[c], q);
    }
  }

  lemma PutRequestKeeps(s: Cfq, r: nat)
    requires Inv(s) && r in s.rqs
    ensures Inv(PutRequest(s, r))
  {
    hide Reaches, Upstream, Holding, Whole, Acyclic;
    var a := s.rqs[r];
    var q0 := s.queues[a];
    var s1 := s.(queues := s.queues[a := q0.(held := q0.held - 1)], rqs := s.rqs - {r});
    UpstreamFrame(s.queues, s1.queues, s.cic);
    forall q: nat ensures Holding(s1.rqs, q) == if q == a then Holding(s.rqs, q) - {r} else Holding(s.rqs, q)
                  ensures q == a ==> r in Holding(s.rqs, q)
    {
      HoldingChange(s.rqs, r, a, q);
    }
    assert q0.held > 0 by { assert r in Holding(s.rqs, a); }
    PutKeeps(s1, {a});
  }

  lemma StepKeeps(s: Cfq, e: Event)
    requires Inv(s) && Enabled(s, e)
    ensures Inv(Step(s, e))
  {
    hide Reaches, Upstream, Holding, Whole, Acyclic, RefsCounted, Drop, SetupMerge, MergeCic, GetRequest, PutRequest;
    match e
    case EAllocate(c, f) => AllocateKeeps(s, c, f);
    case ESetupMerge(a, b, root) => SetupMergeKeeps(s, a, b, root);
    case EMerge(c) => MergeCicKeeps(s, c);
    case ESplit(c) => DropKeeps(s, c);
    case EExit(c) => DropKeeps(s, c);
    case EGet(r, c) => GetRequestKeeps(s, r, c);
    case EPut(r) => PutRequestKeeps(s, r);
  }

  ghost predicate Run(states: seq<Cfq>, events: seq<Event>) {
    && |states| == |events| + 1
    && states[0] == Cfq(map[], map[], map[], false)
    && forall i :: 0 <= i < |events| ==> Enabled(states[i], events[i]) && states[i + 1] == Step(states[i], events[i])
  }

  /**
   Over every run: the links stay acyclic, every reference count is exact, no BUG_ON fires,
   and no chain walk meets a freed queue.
   */
  lemma {:induction false} ForestIsSound(states: seq<Cfq>, events: seq<Event>, n: nat)
    requires Run(states, events) && n < |states|
    ensures Acyclic(states[n].queues) && RefsCounted(states[n]) && Alive(states[n]) && !states[n].bug
    ensures forall b :: b in states[n].queues && ProcessRefs(states[n].queues[b]) > 0 ==> Whole(states[n].queues, b)
  {
    if n == 0 {
      assert Ranks(states[0].queues, map[]);
    } else {
      ForestIsSound(states, events, n - 1);
      hide Acyclic, RefsCounted, Whole;
      StepKeeps(states[n - 1], events[n - 1]);
      forall b | b in states[n].queues && ProcessRefs(states[n].queues[b]) > 0 ensures Whole(states[n].queues, b) {
        ProcessChainIsWhole(states[n], b);
      }
    }
  }
}
