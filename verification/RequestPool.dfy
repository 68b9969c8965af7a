/**
 All requests of a queue over time: bios come in, start requests or join them, requests merge,
 and drivers complete requests piece by piece, with or without an error.
 */
module RequestPool {
  import opened Lists
  import opened BioChain
  import opened Completion

  /** submitted: the bios handed in so far; hurt: those of which some part has failed. */
  datatype State = State(reqs: map<nat, Req>, ended: seq<End>, submitted: set<nat>, hurt: set<nat>)

  datatype Event =
    | Submit(rq: nat, bio: Bio)
    | Back(rq: nat, bio: Bio)
    | Front(rq: nat, bio: Bio)
    | Merge(rq: nat, next: nat)
    | Complete(rq: nat, bytes: nat, error: int)

  /** A data bio that was not handed in before. */
  ghost predicate Fresh(s: State, b: Bio) { BioOk(b) && b.uptodate && b.id !in s.submitted }

  /** What elv_rq_merge_ok asks of a bio and a request. */
  predicate MergeOk(r: Req, b: Bio) {
    && r.route.write == b.route.write && r.route.disk == b.route.disk
    && r.route.direct == b.route.direct && r.route.integrity == b.route.integrity
  }

  /** What attempt_merge asks of two requests. */
  predicate JoinOk(r: Req, next: Req) {
    && r.route.write == next.route.write && r.route.disk == next.route.disk
    && r.route.direct == next.route.direct && r.route.integrity == next.route.integrity
  }

  ghost predicate Enabled(s: State, e: Event) {
    match e
    case Submit(rq, b) => rq !in s.reqs && Fresh(s, b)
    case Back(rq, b) =>
      rq in s.reqs && Fresh(s, b) && MergeOk(s.reqs[rq], b) && b.sector == s.reqs[rq].sector + s.reqs[rq].len / 512
    case Front(rq, b) =>
      rq in s.reqs && Fresh(s, b) && MergeOk(s.reqs[rq], b) && b.sector + b.size / 512 == s.reqs[rq].sector
    case Merge(rq, next) =>
      && rq in s.reqs && next in s.reqs && rq != next
      && s.reqs[next].sector == s.reqs[rq].sector + s.reqs[rq].len / 512
      && JoinOk(s.reqs[rq], s.reqs[next])
    case Complete(rq, bytes, error) => rq in s.reqs && bytes % 512 == 0
  }

  /** The bios of which at least one of the first n bytes is part. */
  function Touched(bios: seq<Bio>, n: nat): (t: set<nat>) {
    if bios == [] || n == 0 then {}
    else if n >= bios[0].size then {bios[0].id} + Touched(bios[1..], n - bios[0].size)
    else {bios[0].id}
  }

  function Step(s: State, e: Event): (t: State)
    requires Enabled(s, e)
  {
    match e
    case Submit(rq, b) => s.(reqs := s.reqs[rq := Start(b)], submitted := s.submitted + {b.id})
    case Back(rq, b) => s.(reqs := s.reqs[rq := BackMerge(s.reqs[rq], b)], submitted := s.submitted + {b.id})
    case Front(rq, b) => s.(reqs := s.reqs[rq := FrontMerge(s.reqs[rq], b)], submitted := s.submitted + {b.id})
    case Merge(rq, next) => s.(reqs := (s.reqs - {next})[rq := MergeReqs(s.reqs[rq], s.reqs[next])])
    case Complete(rq, bytes, error) =>
      var r := Update(s.reqs[rq], bytes, error);
      s.(reqs := if r.bios == [] then s.reqs - {rq} else s.reqs[rq := r],
         ended := s.ended + Ends(s.reqs[rq].bios, bytes, error),
         hurt := Hurt(s.hurt, s.reqs[rq].bios, bytes, error))
  }

  ghost predicate Init(s: State) {
    s.reqs == map[] && s.ended == [] && s.submitted == {} && s.hurt == {}
  }

  ghost predicate Run(states: seq<State>, events: seq<Event>) {
    && |states| == |events| + 1 && Init(states[0])
    && forall i :: 0 <= i < |events| ==> Enabled(states[i], events[i]) && states[i + 1] == Step(states[i], events[i])
  }

  // ----- every bio is in one place -----

  function Ids(bios: seq<Bio>): (r: seq<nat>)
    ensures |r| == |bios| && forall i :: 0 <= i < |r| ==> r[i] == bios[i].id
  {
    seq(|bios|, i requires 0 <= i < |bios| => bios[i].id)
  }

  function EndedIds(ended: seq<End>): (r: seq<nat>)
    ensures |r| == |ended| && forall i :: 0 <= i < |r| ==> r[i] == ended[i].id
  {
    seq(|ended|, i requires 0 <= i < |ended| => ended[i].id)
  }

  predicate Apart(s: seq<nat>, t: seq<nat>) {
    forall x :: x in s ==> x !in t
  }

  lemma NoDupAppend(s: seq<nat>, t: seq<nat>)
    requires NoDup(s) && NoDup(t) && Apart(s, t)
    ensures NoDup(s + t)
  {
    var u := s + t;
    forall i, j | 0 <= i < j < |u|
      ensures u[i] != u[j]
    {
      if i < |s| <= j {
        assert u[i] in s && u[j] in t;
      }
    }
  }

  ghost predicate Sound(s: State) {
    forall rq :: rq in s.reqs ==>
      s.reqs[rq].bios != [] && Tiled(s.reqs[rq]) && Mixing(s.reqs[rq]) && Uniform(s.reqs[rq])
  }

  /** The bios of every request, by name. */
  ghost function Names(reqs: map<nat, Req>): (n: map<nat, seq<nat>>) {
    map rq | rq in reqs :: Ids(reqs[rq].bios)
  }

  /** Every bio handed in is in exactly one place, and there once: in a request or among the ended. */
  ghost predicate Placed(names: map<nat, seq<nat>>, done: seq<nat>, all: set<nat>) {
    && NoDup(done)
    && (forall rq :: rq in names ==> NoDup(names[rq]) && Apart(names[rq], done))
    && (forall p, q :: p in names && q in names && p != q ==> Apart(names[p], names[q]))
    && (forall x :: x in all <==> x in done || Somewhere(names, x))
  }

  ghost predicate Somewhere(names: map<nat, seq<nat>>, x: nat) {
    exists rq :: rq in names && x in names[rq]
  }

  /** No bio is in two requests, twice in one, ended twice, or ended and still in a request; none is lost. */
  ghost predicate Conserved(s: State) {
    Placed(Names(s.reqs), EndedIds(s.ended), s.submitted)
  }

  /** A bio ended with an error exactly if some part of it failed; one that remains remembers its failures. */
  ghost predicate Blamed(s: State) {
    && Just(s.ended, s.hurt)
    && (forall rq :: rq in s.reqs ==> Remembers(s.reqs[rq].bios, s.hurt))
    && s.hurt <= s.submitted
  }

  ghost predicate Remembers(bios: seq<Bio>, hurt: set<nat>) {
    forall i :: 0 <= i < |bios| ==> (!bios[i].uptodate <==> bios[i].id in hurt)
  }

  // ----- merging keeps the books -----

  lemma MergeNames(r: Req, next: Req, b: Bio)
    ensures Ids(Start(b).bios) == [b.id]
    ensures Ids(BackMerge(r, b).bios) == Ids(r.bios) + [b.id]
    ensures Ids(FrontMerge(r, b).bios) == [b.id] + Ids(r.bios)
    ensures Ids(MergeReqs(r, next).bios) == Ids(r.bios) + Ids(next.bios)
  {
  }

  lemma MergeRemembers(r: Req, next: Req, b: Bio, hurt: set<nat>)
    requires Remembers(r.bios, hurt)
    ensures b.uptodate && b.id !in hurt ==>
      Remembers(Start(b).bios, hurt) && Remembers(BackMerge(r, b).bios, hurt) && Remembers(FrontMerge(r, b).bios, hurt)
    ensures Remembers(next.bios, hurt) ==> Remembers(MergeReqs(r, next).bios, hurt)
  {
  }

  /** A new bio joins a request, at either end. */
  lemma PlacedJoin(names: map<nat, seq<nat>>, done: seq<nat>, all: set<nat>, rq: nat, ids: seq<nat>, x: nat)
    requires Placed(names, done, all) && x !in all
    requires ids == [x] || (rq in names && (ids == names[rq] + [x] || ids == [x] + names[rq]))
    requires ids == [x] ==> rq !in names || names[rq] == []
    ensures Placed(names[rq := ids], done, all + {x})
  {
    var was := if rq in names then names[rq] else [];
    var now := names[rq := ids];
    assert forall y :: y in ids <==> y == x || y in was;
    assert x !in done && !Somewhere(names, x);
    assert NoDup(ids);
    forall y
      ensures Somewhere(now, y) <==> y == x || Somewhere(names, y)
    {
      if y == x {
        assert x in now[rq];
      } else if Somewhere(names, y) {
        var p :| p in names && y in names[p];
        assert y in now[p];
      }
    }
  }

  /** The bios of one request go over to another. */
  lemma PlacedMerge(names: map<nat, seq<nat>>, done: seq<nat>, all: set<nat>, rq: nat, next: nat)
    requires Placed(names, done, all) && rq in names && next in names && rq != next
    ensures Placed((names - {next})[rq := names[rq] + names[next]], done, all)
  {
    var ids := names[rq] + names[next];
    var now := (names - {next})[rq := ids];
    assert forall y :: y in ids <==> y in names[rq] || y in names[next];
    NoDupAppend(names[rq], names[next]);
    forall y
      ensures Somewhere(now, y) <==> Somewhere(names, y)
    {
      if Somewhere(names, y) {
        var p :| p in names && y in names[p];
        assert p == next || p == rq ==> y in now[rq];
        assert p != next && p != rq ==> y in now[p];
      }
    }
  }

  /** The first bios of a request end. */
  lemma PlacedEnd(names: map<nat, seq<nat>>, done: seq<nat>, all: set<nat>, rq: nat, k: nat)
    requires Placed(names, done, all) && rq in names && k <= |names[rq]|
    ensures Placed(names[rq := names[rq][k..]], done + names[rq][..k], all)
  {
    var ids := names[rq];
    var now := names[rq := ids[k..]];
    assert ids == ids[..k] + ids[k..];
    assert forall y :: y in ids <==> y in ids[..k] || y in ids[k..];
    assert Apart(ids[k..], ids[..k]);
    assert NoDup(ids[..k]) && Apart(done, ids[..k]);
    NoDupAppend(done, ids[..k]);
    forall y
      ensures Somewhere(names, y) <==> Somewhere(now, y) || y in ids[..k]
    {
      if Somewhere(names, y) {
        var p :| p in names && y in names[p];
        assert p == rq && y in ids[k..] ==> y in now[rq];
        assert p != rq ==> y in now[p];
      }
      if y in ids[..k] {
        assert y in names[rq];
      }
    }
  }

  lemma PlacedDrop(names: map<nat, seq<nat>>, done: seq<nat>, all: set<nat>, rq: nat)
    requires Placed(names, done, all) && rq in names && names[rq] == []
    ensures Placed(names - {rq}, done, all)
  {
    var now := names - {rq};
    forall y
      ensures Somewhere(now, y) <==> Somewhere(names, y)
    {
      if Somewhere(names, y) {
        var p :| p in names && y in names[p];
        assert y in now[p];
      }
    }
  }

  // ----- completing keeps the books -----

  lemma CompleteNames(bios: seq<Bio>, n: nat, error: int)
    ensures var k := |Ends(bios, n, error)|;
      && k <= |bios|
      && EndedIds(Ends(bios, n, error)) == Ids(bios)[..k]
      && Ids(Advance(bios, n, error)) == Ids(bios)[k..]
  {
    AdvanceConserves(bios, n, error);
    hide Advance, Ends;
  }

  lemma {:induction false} TouchedIds(bios: seq<Bio>, n: nat)
    ensures forall x :: x in Touched(bios, n) ==> x in Ids(bios)
  {
    if bios != [] && n > 0 && n >= bios[0].size {
      TouchedIds(bios[1..], n - bios[0].size);
      assert Ids(bios)[1..] == Ids(bios[1..]);
    }
  }

  /** The verdicts are right. */
  ghost predicate Just(ends: seq<End>, hurt: set<nat>) {
    forall i :: 0 <= i < |ends| ==> (ends[i].error != 0 <==> ends[i].id in hurt)
  }

  function Hurt(hurt: set<nat>, bios: seq<Bio>, n: nat, error: int): (h: set<nat>) {
    if error != 0 then hurt + Touched(bios, n) else hurt
  }

  /** The verdicts of one completion, and what the remaining bios remember. */
  lemma {:induction false} CompleteBlames(bios: seq<Bio>, n: nat, error: int, hurt: set<nat>)
    requires BiosOk(bios) && NoDup(Ids(bios)) && Remembers(bios, hurt)
    ensures Remembers(Advance(bios, n, error), Hurt(hurt, bios, n, error))
    ensures Just(Ends(bios, n, error), Hurt(hurt, bios, n, error))
  {
    if bios != [] {
      var b := bios[0];
      var rest := bios[1..];
      assert BioOk(b);
      assert Ids(bios) == [b.id] + Ids(rest);
      assert b.id !in Ids(rest);
      if n >= b.size {
        assert NoDup(Ids(rest));
        CompleteBlames(rest, n - b.size, error, hurt);
        BlameWhole(bios, n, error, hurt);
      } else {
        BlamePart(bios, n, error, hurt);
      }
    }
  }

  lemma BlameWhole(bios: seq<Bio>, n: nat, error: int, hurt: set<nat>)
    requires bios != [] && BioOk(bios[0]) && n >= bios[0].size && bios[0].id !in Ids(bios[1..])
    requires !bios[0].uptodate <==> bios[0].id in hurt
    requires var h := Hurt(hurt, bios[1..], n - bios[0].size, error);
      Remembers(Advance(bios[1..], n - bios[0].size, error), h) && Just(Ends(bios[1..], n - bios[0].size, error), h)
    ensures Remembers(Advance(bios, n, error), Hurt(hurt, bios, n, error))
    ensures Just(Ends(bios, n, error), Hurt(hurt, bios, n, error))
  {
    var b := bios[0];
    var m := n - b.size;
    var left := Advance(bios[1..], m, error);
    var ends := Ends(bios[1..], m, error);
    var h := Hurt(hurt, bios[1..], m, error);
    assert Advance(bios, n, error) == left && Ends(bios, n, error) == [End(b.id, Verdict(b, error))] + ends;
    assert Hurt(hurt, bios, n, error) == if error != 0 then h + {b.id} else h;
    TouchedIds(bios[1..], m);
    CompleteNames(bios[1..], m, error);
    assert b.id !in Ids(left) && b.id !in EndedIds(ends);
    hide Advance, Ends, Touched, BioOk;
    RememberMore(left, h, b.id);
    JustMore(ends, h, b.id);
  }

  lemma JustMore(ends: seq<End>, hurt: set<nat>, x: nat)
    requires Just(ends, hurt) && x !in EndedIds(ends)
    ensures Just(ends, hurt + {x})
  {
    assert forall i :: 0 <= i < |ends| ==> ends[i].id == EndedIds(ends)[i];
  }

  lemma BlamePart(bios: seq<Bio>, n: nat, error: int, hurt: set<nat>)
    requires bios != [] && n < bios[0].size && bios[0].id !in Ids(bios[1..]) && Remembers(bios, hurt)
    ensures Remembers(Advance(bios, n, error), Hurt(hurt, bios, n, error))
    ensures Just(Ends(bios, n, error), Hurt(hurt, bios, n, error))
  {
    var rest := bios[1..];
    assert Remembers(rest, hurt);
    RememberMore(rest, hurt, bios[0].id);
    var c := Trim(bios[0], n, error);
    assert Advance(bios, n, error) == [c] + rest;
    hide Advance, TrimVecs;
  }

  lemma RememberMore(bios: seq<Bio>, hurt: set<nat>, x: nat)
    requires Remembers(bios, hurt) && x !in Ids(bios)
    ensures Remembers(bios, hurt + {x})
  {
    assert forall i :: 0 <= i < |bios| ==> bios[i].id == Ids(bios)[i];
  }

  // ----- whole runs -----

  lemma SoundStep(s: State, e: Event)
    requires Sound(s) && Enabled(s, e)
    ensures Sound(Step(s, e))
  {
    hide Tiled, Mixing, Uniform, BioOk, Advance;
    match e
    case Submit(rq, b) =>
      StartTiles(b);
      StartUniform(b);
    case Back(rq, b) =>
      BackMergeTiles(s.reqs[rq], b);
      BackMergeMixes(s.reqs[rq], b);
      BioMergeUniform(s.reqs[rq], b);
    case Front(rq, b) =>
      FrontMergeTiles(s.reqs[rq], b);
      FrontMergeMixes(s.reqs[rq], b);
      BioMergeUniform(s.reqs[rq], b);
    case Merge(rq, next) =>
      MergeReqsTiles(s.reqs[rq], s.reqs[next]);
      MergeReqsMixes(s.reqs[rq], s.reqs[next]);
      MergeReqsUniform(s.reqs[rq], s.reqs[next]);
    case Complete(rq, n, error) =>
      UpdateTiles(s.reqs[rq], n, error);
      UpdateMixes(s.reqs[rq], n, error);
      UpdateUniform(s.reqs[rq], n, error);
  }

  lemma NamesUpdate(reqs: map<nat, Req>, rq: nat, r: Req)
    ensures Names(reqs[rq := r]) == Names(reqs)[rq := Ids(r.bios)]
  {
  }

  lemma NamesDrop(reqs: map<nat, Req>, rq: nat)
    ensures Names(reqs - {rq}) == Names(reqs) - {rq}
  {
  }

  lemma ConservedStep(s: State, e: Event)
    requires Sound(s) && Conserved(s) && Enabled(s, e)
    ensures Conserved(Step(s, e))
  {
    var names := Names(s.reqs);
    assert names.Keys == s.reqs.Keys && forall rq :: rq in s.reqs ==> names[rq] == Ids(s.reqs[rq].bios);
    hide Placed, Names, Start, BackMerge, FrontMerge, MergeReqs, Tiled, Mixing;
    match e
    case Submit(rq, b) =>
      MergeNames(Start(b), Start(b), b);
      NamesUpdate(s.reqs, rq, Start(b));
      PlacedJoin(names, EndedIds(s.ended), s.submitted, rq, [b.id], b.id);
    case Back(rq, b) =>
      MergeNames(s.reqs[rq], s.reqs[rq], b);
      NamesUpdate(s.reqs, rq, BackMerge(s.reqs[rq], b));
      PlacedJoin(names, EndedIds(s.ended), s.submitted, rq, names[rq] + [b.id], b.id);
    case Front(rq, b) =>
      MergeNames(s.reqs[rq], s.reqs[rq], b);
      NamesUpdate(s.reqs, rq, FrontMerge(s.reqs[rq], b));
      PlacedJoin(names, EndedIds(s.ended), s.submitted, rq, [b.id] + names[rq], b.id);
    case Merge(rq, next) =>
      MergeNames(s.reqs[rq], s.reqs[next], s.reqs[rq].bios[0]);
      NamesDrop(s.reqs, next);
      NamesUpdate(s.reqs - {next}, rq, MergeReqs(s.reqs[rq], s.reqs[next]));
      PlacedMerge(names, EndedIds(s.ended), s.submitted, rq, next);
    case Complete(rq, n, error) => ConservedComplete(s, rq, n, error);
  }

  lemma ConservedComplete(s: State, rq: nat, n: nat, error: int)
    requires Sound(s) && Conserved(s) && Enabled(s, Complete(rq, n, error))
    ensures Conserved(Step(s, Complete(rq, n, error)))
  {
    hide Placed, Tiled, Mixing, Uniform, Advance, Ends, Hurt, BioOk;
    var names := Names(s.reqs);
    var t := Step(s, Complete(rq, n, error));
    var bios := s.reqs[rq].bios;
    var r := Update(s.reqs[rq], n, error);
    assert r.bios == Advance(bios, n, error) && names[rq] == Ids(bios);
    hide Names, Update, Sound;
    CompleteNames(bios, n, error);
    var ends := Ends(bios, n, error);
    PlacedEnd(names, EndedIds(s.ended), s.submitted, rq, |ends|);
    assert EndedIds(s.ended + ends) == EndedIds(s.ended) + EndedIds(ends);
    NamesUpdate(s.reqs, rq, r);
    if r.bios == [] {
      PlacedDrop(names[rq := Ids(r.bios)], EndedIds(t.ended), s.submitted, rq);
      NamesDrop(s.reqs, rq);
      assert names[rq := Ids(r.bios)] - {rq} == names - {rq};
    }
  }

  lemma BlamedStep(s: State, e: Event)
    requires Sound(s) && Conserved(s) && Blamed(s) && Enabled(s, e)
    ensures Blamed(Step(s, e))
  {
    hide Start, BackMerge, FrontMerge, MergeReqs, Tiled, Mixing, Placed, Remembers;
    match e
    case Submit(rq, b) =>
      NothingRemembers(s.hurt);
      var none := Req([], 0, 0, false, b.ff, b.route);
      MergeRemembers(none, none, b, s.hurt);
    case Back(rq, b) => MergeRemembers(s.reqs[rq], s.reqs[rq], b, s.hurt);
    case Front(rq, b) => MergeRemembers(s.reqs[rq], s.reqs[rq], b, s.hurt);
    case Merge(rq, next) => MergeRemembers(s.reqs[rq], s.reqs[next], s.reqs[rq].bios[0], s.hurt);
    case Complete(rq, n, error) => BlamedComplete(s, rq, n, error);
  }

  lemma NothingRemembers(hurt: set<nat>)
    ensures Remembers([], hurt)
  {
  }

  lemma RememberApart(bios: seq<Bio>, hurt: set<nat>, more: set<nat>)
    requires Remembers(bios, hurt) && forall x :: x in Ids(bios) ==> x !in more
    ensures Remembers(bios, hurt + more)
  {
    assert forall i :: 0 <= i < |bios| ==> bios[i].id == Ids(bios)[i];
  }

  lemma JustApart(ends: seq<End>, hurt: set<nat>, more: set<nat>)
    requires Just(ends, hurt) && forall x :: x in EndedIds(ends) ==> x !in more
    ensures Just(ends, hurt + more)
  {
    assert forall i :: 0 <= i < |ends| ==> ends[i].id == EndedIds(ends)[i];
  }

  /** The bios of a request are handed in, not ended, and in no other request. */
  lemma OnlyThere(s: State, rq: nat, x: nat)
    requires Conserved(s) && rq in s.reqs && x in Ids(s.reqs[rq].bios)
    ensures x in s.submitted && x !in EndedIds(s.ended)
    ensures forall p :: p in s.reqs && p != rq ==> x !in Ids(s.reqs[p].bios)
  {
    var names := Names(s.reqs);
    assert x in names[rq] && Somewhere(names, x);
    forall p | p in s.reqs && p != rq
      ensures x !in Ids(s.reqs[p].bios)
    {
      assert Apart(names[rq], names[p]);
    }
  }

  lemma HurtApart(s: State, rq: nat, n: nat)
    requires Conserved(s) && rq in s.reqs
    ensures var more := Touched(s.reqs[rq].bios, n);
      && more <= s.submitted
      && (forall x :: x in EndedIds(s.ended) ==> x !in more)
      && (forall p :: p in s.reqs && p != rq ==> forall x :: x in Ids(s.reqs[p].bios) ==> x !in more)
  {
    var bios := s.reqs[rq].bios;
    TouchedIds(bios, n);
    hide Conserved, Touched;
    forall x | x in Touched(bios, n)
      ensures x in s.submitted && x !in EndedIds(s.ended)
      ensures forall p :: p in s.reqs && p != rq ==> x !in Ids(s.reqs[p].bios)
    {
      OnlyThere(s, rq, x);
    }
  }

  /** What was ended and what sits in other requests is not touched by the completion. */
  lemma OthersBlamed(s: State, rq: nat, n: nat, error: int)
    requires Conserved(s) && Blamed(s) && rq in s.reqs
    ensures var h := Hurt(s.hurt, s.reqs[rq].bios, n, error);
      && Just(s.ended, h) && h <= s.submitted
      && (forall p :: p in s.reqs && p != rq ==> Remembers(s.reqs[p].bios, h))
  {
    HurtApart(s, rq, n);
    hide Conserved, Just, Remembers, Touched;
    if error != 0 {
      var more := Touched(s.reqs[rq].bios, n);
      JustApart(s.ended, s.hurt, more);
      forall p | p in s.reqs && p != rq
        ensures Remembers(s.reqs[p].bios, s.hurt + more)
      {
        RememberApart(s.reqs[p].bios, s.hurt, more);
      }
    }
  }

  lemma OwnBios(s: State, rq: nat)
    requires Sound(s) && Conserved(s) && rq in s.reqs
    ensures BiosOk(s.reqs[rq].bios) && NoDup(Ids(s.reqs[rq].bios)) && s.reqs[rq].bios != []
  {
    assert Names(s.reqs)[rq] == Ids(s.reqs[rq].bios);
  }

  lemma BlamedComplete(s: State, rq: nat, n: nat, error: int)
    requires Sound(s) && Conserved(s) && Blamed(s) && Enabled(s, Complete(rq, n, error))
    ensures Blamed(Step(s, Complete(rq, n, error)))
  {
    hide Advance, Ends, Sound, Remembers, Just, Conserved, NoDup, Hurt, BiosOk, Ids;
    var bios := s.reqs[rq].bios;
    OwnBios(s, rq);
    OthersBlamed(s, rq, n, error);
    CompleteBlames(bios, n, error, s.hurt);
    JustAppend(s.ended, Ends(bios, n, error), Hurt(s.hurt, bios, n, error));
    assert Update(s.reqs[rq], n, error).bios == Advance(bios, n, error);
  }

  lemma JustAppend(s: seq<End>, t: seq<End>, hurt: set<nat>)
    requires Just(s, hurt) && Just(t, hurt)
    ensures Just(s + t, hurt)
  {
  }

  ghost predicate Inv(s: State) {
    Sound(s) && Conserved(s) && Blamed(s)
  }

  lemma {:induction false} RunKeeps(states: seq<State>, events: seq<Event>, n: nat)
    requires Run(states, events) && n < |states|
    ensures Inv(states[n])
    decreases n
  {
    hide Sound, Conserved, Blamed, Step, Enabled;
    if n == 0 {
      EmptyPool(states[0]);
    } else {
      RunKeeps(states, events, n - 1);
      SoundStep(states[n - 1], events[n - 1]);
      ConservedStep(states[n - 1], events[n - 1]);
      BlamedStep(states[n - 1], events[n - 1]);
    }
  }

  lemma EmptyPool(s: State)
    requires Init(s)
    ensures Inv(s)
  {
    assert Names(s.reqs) == map[];
    assert forall x :: !Somewhere(Names(s.reqs), x);
    assert NoDup(EndedIds(s.ended));
  }

  /**
   Through every mix of merges and whole-sector completions: requests are tiled by their bios and go where
   their bios go, every bio is in one place, and a bio ends with an error exactly if a part of it failed.
   */
  lemma PoolIsSound(states: seq<State>, events: seq<Event>)
    requires Run(states, events)
    ensures forall n :: 0 <= n < |states| ==> Sound(states[n]) && Conserved(states[n]) && Blamed(states[n])
  {
    forall n | 0 <= n < |states|
      ensures Inv(states[n])
    {
      RunKeeps(states, events, n);
    }
  }
}
