/**
 Requests as carriers of bios: merging bios and requests, completing a request piece by
 piece, and failing the part of it that may be failed at once.
 */
module Completion {
  import opened BioChain

  datatype Req = Req(bios: seq<Bio>, sector: nat, len: nat, mixed: bool, ff: Ff, route: Route)

  /** Every bio of the request goes where the request goes. */
  ghost predicate Uniform(r: Req) {
    forall i :: 0 <= i < |r.bios| ==> r.bios[i].route == r.route
  }

  function Union(a: Ff, b: Ff): (c: Ff) { Ff(a.dev || b.dev, a.transport || b.transport, a.driver || b.driver) }

  /** Every bit of a is set in b. */
  predicate Within(a: Ff, b: Ff) { (a.dev ==> b.dev) && (a.transport ==> b.transport) && (a.driver ==> b.driver) }

  /** REQ_FAILFAST_MASK */
  const MASK: Ff := Ff(true, true, true)

  // ----- the operations -----

  /** init_request_from_bio: a read-ahead bio makes its request fail fast in every way. */
  function Start(b: Bio): (r: Req) {
    var ff := if b.ahead then MASK else b.ff;
    Req([b.(claim := ff)], b.sector, b.size, false, ff, b.route)
  }

  function Mark(b: Bio, ff: Ff): (c: Bio) { b.(ff := Union(b.ff, ff)) }

  function MarkAll(bios: seq<Bio>, ff: Ff): (r: seq<Bio>)
    ensures |r| == |bios| && forall i :: 0 <= i < |r| ==> r[i] == Mark(bios[i], ff)
  {
    seq(|bios|, i requires 0 <= i < |bios| => Mark(bios[i], ff))
  }

  /** blk_rq_set_mixed_merge */
  function SetMixed(r: Req): (s: Req) {
    if r.mixed then r else r.(bios := MarkAll(r.bios, r.ff), mixed := true)
  }

  /** The back merge of __make_request. */
  function BackMerge(r: Req, b: Bio): (s: Req) {
    var m := if r.ff != b.ff then SetMixed(r) else r;
    m.(bios := m.bios + [b.(claim := b.ff)], len := m.len + b.size)
  }

  /** The front merge of __make_request. */
  function FrontMerge(r: Req, b: Bio): (s: Req) {
    var m := if r.ff != b.ff then SetMixed(r).(ff := b.ff) else r;
    m.(bios := [b.(claim := b.ff)] + m.bios, sector := b.sector, len := m.len + b.size)
  }

  /** attempt_merge, once the two requests are found to be contiguous. */
  function MergeReqs(r: Req, next: Req): (s: Req) {
    var mix := r.mixed || next.mixed || r.ff != next.ff;
    var m := if mix then SetMixed(r) else r;
    var n := if mix then SetMixed(next) else next;
    m.(bios := m.bios + n.bios, len := m.len + n.len)
  }

  /** blk_update_request */
  function Update(r: Req, n: nat, error: int): (s: Req) {
    var rest := Advance(r.bios, n, error);
    if r.bios == [] then r
    else if rest == [] then r.(bios := [], len := 0)
    else
      r.(bios := rest, len := if n <= r.len then r.len - n else 0, sector := r.sector + n / 512,
         ff := if r.mixed then rest[0].ff else r.ff)
  }

  /** The bytes blk_rq_err_bytes adds up: the bios in front that have all the bits of ff. */
  function EagerBytes(bios: seq<Bio>, ff: Ff): (n: nat) {
    if bios == [] || !Within(ff, bios[0].ff) then 0 else bios[0].size + EagerBytes(bios[1..], ff)
  }

  /** blk_rq_err_bytes */
  function ErrBytes(r: Req): (n: nat) {
    if r.mixed then EagerBytes(r.bios, r.ff) else r.len
  }

  // ----- the bios of a request go the same way -----

  lemma StartUniform(b: Bio)
    ensures Uniform(Start(b)) && Mixing(Start(b))
  {
  }

  lemma BioMergeUniform(r: Req, b: Bio)
    requires Uniform(r) && b.route == r.route
    ensures Uniform(BackMerge(r, b)) && Uniform(FrontMerge(r, b))
  {
  }

  lemma MergeReqsUniform(r: Req, next: Req)
    requires Uniform(r) && Uniform(next) && r.route == next.route
    ensures Uniform(MergeReqs(r, next))
  {
  }

  lemma {:induction false} AdvanceUniform(bios: seq<Bio>, n: nat, error: int, route: Route)
    requires forall i :: 0 <= i < |bios| ==> bios[i].route == route
    ensures forall i :: 0 <= i < |Advance(bios, n, error)| ==> Advance(bios, n, error)[i].route == route
  {
    if bios != [] && n >= bios[0].size { AdvanceUniform(bios[1..], n - bios[0].size, error, route); }
  }

  lemma UpdateUniform(r: Req, n: nat, error: int)
    requires Uniform(r)
    ensures Uniform(Update(r, n, error))
  {
    AdvanceUniform(r.bios, n, error, r.route);
    hide Advance;
  }

  // ----- completion is additive -----

  /** The request accounts for its bios. */
  ghost predicate Sized(r: Req) {
    BiosOk(r.bios) && r.len == Sizes(r.bios)
  }

  /** Something remains after n bytes. */
  ghost predicate Remains(r: Req, n: nat) { n < Sizes(r.bios) }

  /** A mixed request carries the fail-fast bits of its first bio. */
  ghost predicate Follows(r: Req) {
    r.mixed && r.bios != [] ==> r.ff == r.bios[0].ff
  }

  /**
   Completing m and then n bytes equals completing m + n bytes, but for the start sector and the
   fail-fast bits of a request of which nothing remains: the last call leaves them where the
   call before put them.
   */
  lemma UpdateAdds(r: Req, m: nat, n: nat, error: int)
    requires Sized(r) && Follows(r) && m % 512 == 0 && n % 512 == 0
    ensures var two := Update(Update(r, m, error), n, error); var one := Update(r, m + n, error);
      && two.(sector := one.sector, ff := one.ff) == one
      && (two == one <==> m == 0 || !Remains(r, m) || Remains(r, m + n))
    ensures Ends(r.bios, m, error) + Ends(Update(r, m, error).bios, n, error) == Ends(r.bios, m + n, error)
  {
    AdvanceOk(r.bios, m, error);
    AdvanceOk(r.bios, m + n, error);
    AdvanceAdds(r.bios, m, n, error);
    if m == 0 && r.bios != [] {
      assert BioOk(r.bios[0]);
      assert Advance(r.bios, 0, error) == r.bios;
    }
    hide Advance, Ends, BiosOk;
    if r.bios != [] {
      UpdateTwice(r, m, n, error);
      hide Sized, Follows, Sizes;
      assert Update(r, m, error).bios == Advance(r.bios, m, error);
      hide Update;
    }
  }

  /** The two calls of UpdateAdds, by what remains after each. */
  lemma UpdateTwice(r: Req, m: nat, n: nat, error: int)
    requires Sized(r) && Follows(r) && m % 512 == 0 && n % 512 == 0 && r.bios != []
    requires var rest, last := Advance(r.bios, m, error), Advance(r.bios, m + n, error);
      && Advance(rest, n, error) == last && (m == 0 ==> rest == r.bios)
      && (rest == [] <==> !Remains(r, m)) && (last == [] <==> !Remains(r, m + n))
    ensures var two := Update(Update(r, m, error), n, error); var one := Update(r, m + n, error);
      && two.(sector := one.sector, ff := one.ff) == one
      && (two == one <==> m == 0 || !Remains(r, m) || Remains(r, m + n))
  {
    hide Advance, BiosOk, Sizes;
    var mid := Update(r, m, error);
    if Remains(r, m) {
      assert mid.bios != [] && mid.len == r.len - m && mid.sector == r.sector + m / 512;
      assert (m + n) / 512 == m / 512 + n / 512;
    }
  }

  /** Two sectors completed one by one leave the start of the request a sector further than both at once. */
  lemma LastCallKeepsStart(id: nat, v: Vec, ff: Ff, route: Route, error: int)
    requires v.len == 1024
    ensures var r := Start(Bio(id, 0, 1024, [v], true, false, ff, ff, route));
      && Sized(r) && Follows(r)
      && Update(Update(r, 512, error), 512, error).sector == 1 && Update(r, 1024, error).sector == 0
  {
    var b := Bio(id, 0, 1024, [v], true, false, ff, ff, route);
    assert b.vecs[1..] == [] && Lens(b.vecs) == 1024;
    assert [b][1..] == [] && Sizes([b]) == 1024;
    var mid := Update(Start(b), 512, error);
    assert |mid.bios| == 1 && mid.bios[0].size == 512 && mid.sector == 1;
    assert mid.bios[1..] == [] && Advance(mid.bios[1..], 0, error) == [];
  }

  // ----- the bios tile the request -----

  /** The bios lie end to end, the first at the given sector. */
  ghost predicate Chained(sector: nat, bios: seq<Bio>)
    decreases |bios|
  {
    bios == [] || (bios[0].sector == sector && Chained(sector + bios[0].size / 512, bios[1..]))
  }

  /** The bios cover exactly the sectors of the request, in order. */
  ghost predicate Tiled(r: Req) {
    Sized(r) && Chained(r.sector, r.bios)
  }

  lemma {:induction false} WholeSectors(bios: seq<Bio>)
    requires BiosOk(bios)
    ensures Sizes(bios) % 512 == 0 && (bios != [] ==> Sizes(bios) > 0)
  {
    if bios != [] {
      assert BioOk(bios[0]);
      WholeSectors(bios[1..]);
    }
  }

  lemma {:induction false} ChainedAppend(sector: nat, s: seq<Bio>, t: seq<Bio>)
    requires BiosOk(s)
    ensures Chained(sector, s + t) <==> Chained(sector, s) && Chained(sector + Sizes(s) / 512, t)
    decreases |s|
  {
    if s == [] {
      assert s + t == t;
    } else {
      assert BioOk(s[0]);
      assert (s + t)[1..] == s[1..] + t;
      var next := sector + s[0].size / 512;
      ChainedAppend(next, s[1..], t);
      WholeSectors(s[1..]);
      WholeSectorsAdd(s[0].size, Sizes(s[1..]));
      assert sector + Sizes(s) / 512 == next + Sizes(s[1..]) / 512;
      hide BiosOk, BioOk, Sizes;
    }
  }

  lemma {:induction false} AdvanceChained(sector: nat, bios: seq<Bio>, n: nat, error: int)
    requires BiosOk(bios) && Chained(sector, bios) && n % 512 == 0 && n < Sizes(bios)
    ensures Chained(sector + n / 512, Advance(bios, n, error))
    decreases |bios|
  {
    assert BioOk(bios[0]);
    if n >= bios[0].size {
      AdvanceChained(sector + bios[0].size / 512, bios[1..], n - bios[0].size, error);
    } else {
      var r := Advance(bios, n, error);
      assert r[1..] == bios[1..];
    }
  }

  lemma {:induction false} MarkAllTiles(bios: seq<Bio>, ff: Ff, sector: nat)
    ensures Sizes(MarkAll(bios, ff)) == Sizes(bios)
    ensures Chained(sector, MarkAll(bios, ff)) <==> Chained(sector, bios)
    ensures BiosOk(MarkAll(bios, ff)) <==> BiosOk(bios)
  {
    if bios != [] {
      assert MarkAll(bios, ff)[1..] == MarkAll(bios[1..], ff);
      MarkAllTiles(bios[1..], ff, sector + bios[0].size / 512);
      var m := MarkAll(bios, ff);
      assert forall i :: 0 <= i < |bios| ==> (BioOk(m[i]) <==> BioOk(bios[i]));
    }
  }

  lemma SetMixedTiles(r: Req)
    ensures Tiled(SetMixed(r)) <==> Tiled(r)
    ensures Sizes(SetMixed(r).bios) == Sizes(r.bios)
  {
    MarkAllTiles(r.bios, r.ff, r.sector);
  }

  lemma StartTiles(b: Bio)
    requires BioOk(b)
    ensures Tiled(Start(b))
  {
    var c := Start(b).bios[0];
    assert Start(b).bios[1..] == [];
    assert BioOk(c);
  }

  lemma OneTiles(b: Bio, claim: Ff)
    requires BioOk(b)
    ensures BiosOk([b.(claim := claim)]) && Sizes([b.(claim := claim)]) == b.size
    ensures Chained(b.sector, [b.(claim := claim)])
  {
    var c := b.(claim := claim);
    assert BioOk(c);
    assert [c][1..] == [];
  }

  lemma BackMergeTiles(r: Req, b: Bio)
    requires Tiled(r) && BioOk(b) && b.sector == r.sector + r.len / 512
    ensures Tiled(BackMerge(r, b))
  {
    SetMixedTiles(r);
    OneTiles(b, b.ff);
    var m := if r.ff != b.ff then SetMixed(r) else r;
    hide SetMixed;
    ChainedAppend(r.sector, m.bios, [b.(claim := b.ff)]);
    SizesAppend(m.bios, [b.(claim := b.ff)]);
  }

  lemma FrontMergeTiles(r: Req, b: Bio)
    requires Tiled(r) && BioOk(b) && b.sector + b.size / 512 == r.sector
    ensures Tiled(FrontMerge(r, b))
  {
    SetMixedTiles(r);
    OneTiles(b, b.ff);
    var m := if r.ff != b.ff then SetMixed(r) else r;
    ChainedAppend(b.sector, [b.(claim := b.ff)], m.bios);
    SizesAppend([b.(claim := b.ff)], m.bios);
    assert m.sector == r.sector && m.len == r.len && BiosOk(m.bios);
    hide SetMixed, BioOk;
  }

  lemma MergeReqsTiles(r: Req, next: Req)
    requires Tiled(r) && Tiled(next) && next.sector == r.sector + r.len / 512
    ensures Tiled(MergeReqs(r, next))
  {
    hide BioOk, Chained, Sizes, MarkAll;
    SetMixedTiles(r);
    SetMixedTiles(next);
    var mix := r.mixed || next.mixed || r.ff != next.ff;
    var m := if mix then SetMixed(r) else r;
    var n := if mix then SetMixed(next) else next;
    ChainedAppend(r.sector, m.bios, n.bios);
    SizesAppend(m.bios, n.bios);
    assert BiosOk(m.bios + n.bios);
    hide SetMixed, BiosOk;
  }

  lemma UpdateTiles(r: Req, n: nat, error: int)
    requires Tiled(r) && n % 512 == 0
    ensures Tiled(Update(r, n, error))
  {
    AdvanceOk(r.bios, n, error);
    if n < Sizes(r.bios) {
      AdvanceChained(r.sector, r.bios, n, error);
    }
    hide Advance;
  }

  // ----- who may be failed together -----

  /**
   As long as a request is not mixed, every bio claims its bits; once it is mixed, every bio
   carries its own claim and the request follows the first.
   */
  ghost predicate Mixing(r: Req) {
    && Follows(r)
    && (r.mixed ==> forall i :: 0 <= i < |r.bios| ==> r.bios[i].ff == r.bios[i].claim)
    && (!r.mixed ==> forall i :: 0 <= i < |r.bios| ==> r.bios[i].claim == r.ff && Within(r.bios[i].ff, r.ff))
  }

  lemma SetMixedMixes(r: Req)
    requires Mixing(r)
    ensures Mixing(SetMixed(r)) && SetMixed(r).mixed && |SetMixed(r).bios| == |r.bios|
    ensures SetMixed(r).ff == r.ff
  {
  }

  lemma BackMergeMixes(r: Req, b: Bio)
    requires Mixing(r) && r.bios != []
    ensures Mixing(BackMerge(r, b))
  {
    SetMixedMixes(r);
    hide SetMixed;
  }

  lemma FrontMergeMixes(r: Req, b: Bio)
    requires Mixing(r) && r.bios != []
    ensures Mixing(FrontMerge(r, b))
  {
    SetMixedMixes(r);
    hide SetMixed;
  }

  lemma MergeReqsMixes(r: Req, next: Req)
    requires Mixing(r) && Mixing(next) && r.bios != []
    ensures Mixing(MergeReqs(r, next))
  {
    SetMixedMixes(r);
    SetMixedMixes(next);
    hide SetMixed;
  }

  lemma {:induction false} AdvanceBits(bios: seq<Bio>, n: nat, error: int)
    ensures var r := Advance(bios, n, error); var k := |bios| - |r|;
      k >= 0 && forall i :: 0 <= i < |r| ==> r[i].ff == bios[k + i].ff && r[i].claim == bios[k + i].claim
  {
    if bios != [] && n >= bios[0].size {
      AdvanceBits(bios[1..], n - bios[0].size, error);
    }
  }

  lemma UpdateMixes(r: Req, n: nat, error: int)
    requires Mixing(r)
    ensures Mixing(Update(r, n, error))
  {
    AdvanceBits(r.bios, n, error);
    hide Advance;
  }

  /** The bytes of the bios in front that are at least as eager to fail as claim says. */
  function ClaimBytes(bios: seq<Bio>, claim: Ff): (n: nat) {
    if bios == [] || !Within(claim, bios[0].claim) then 0 else bios[0].size + ClaimBytes(bios[1..], claim)
  }

  lemma {:induction false} EagerIsClaim(bios: seq<Bio>, ff: Ff)
    requires forall i :: 0 <= i < |bios| ==> bios[i].ff == bios[i].claim
    ensures EagerBytes(bios, ff) == ClaimBytes(bios, ff)
  {
    if bios != [] {
      EagerIsClaim(bios[1..], ff);
    }
  }

  lemma {:induction false} SameClaims(bios: seq<Bio>, ff: Ff)
    requires forall i :: 0 <= i < |bios| ==> bios[i].claim == ff
    ensures ClaimBytes(bios, ff) == Sizes(bios)
  {
    if bios != [] {
      SameClaims(bios[1..], ff);
    }
  }

  /** Failing that much ends whole bios, each at least as eager, and stops at the first that is not. */
  lemma {:induction false} ClaimBytesStop(bios: seq<Bio>, claim: Ff, error: int)
    requires BiosOk(bios)
    ensures var n := ClaimBytes(bios, claim); var k := |Ends(bios, n, error)|;
      && k <= |bios| && Advance(bios, n, error) == bios[k..]
      && (forall i :: 0 <= i < k ==> Within(claim, bios[i].claim))
      && (k < |bios| ==> !Within(claim, bios[k].claim))
  {
    if bios != [] {
      assert BioOk(bios[0]);
      ClaimBytesStop(bios[1..], claim, error);
      var n := ClaimBytes(bios, claim);
      if n > 0 {
        FirstEnds(bios, n, error);
        hide Advance, Ends, BiosOk, BioOk;
      }
    }
  }

  lemma {:induction false} ClaimBytesWhole(bios: seq<Bio>, claim: Ff)
    requires BiosOk(bios)
    ensures ClaimBytes(bios, claim) % 512 == 0 && ClaimBytes(bios, claim) <= Sizes(bios)
  {
    if bios != [] {
      assert BioOk(bios[0]);
      ClaimBytesWhole(bios[1..], claim);
      WholeSectorsAdd(bios[0].size, ClaimBytes(bios[1..], claim));
    }
  }

  /**
   blk_rq_err_bytes never returns nothing while bytes remain, and what it returns is the longest
   run of bios from the front that are all at least as eager to fail as the first one.
   */
  lemma ErrBytesIsEager(r: Req)
    requires Tiled(r) && Mixing(r) && r.bios != []
    ensures 0 < ErrBytes(r) <= r.len && ErrBytes(r) % 512 == 0
    ensures ErrBytes(r) == ClaimBytes(r.bios, r.bios[0].claim)
  {
    if r.mixed {
      EagerIsClaim(r.bios, r.ff);
    } else {
      SameClaims(r.bios, r.ff);
    }
    assert BioOk(r.bios[0]);
    ClaimBytesStop(r.bios, r.bios[0].claim, 0);
    ClaimBytesWhole(r.bios, r.bios[0].claim);
  }

  /** A read-ahead that fails takes no bio along that did not ask to fail fast in every way. */
  lemma ReadAheadFailsAlone(b: Bio, c: Bio)
    requires BioOk(b) && b.ahead && c.ff != MASK
    ensures ErrBytes(BackMerge(Start(b), c)) == b.size
  {
    var r := BackMerge(Start(b), c);
    assert r.mixed && r.ff == MASK && r.bios == [Mark(b.(claim := MASK), MASK), c.(claim := c.ff)];
    assert !Within(MASK, c.ff) && r.bios[1..] == [c.(claim := c.ff)];
    assert EagerBytes(r.bios[1..], MASK) == 0;
  }
}
