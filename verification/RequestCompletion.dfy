/**
 The routines that complete a request in place, against the functions they compute.
 */
module RequestCompletion {
  import opened Lists
  import opened BioChain
  import opened Completion
  import M = SegmentMerge
  import R = SegmentRest
  import S = Segments
  import W = SegmentWindow

  /** Skipping whole vectors and a part of the next one. */
  lemma {:induction false} TrimVecsAt(vecs: seq<Vec>, k: nat, r: nat)
    requires VecsOk(vecs) && k < |vecs| && r < vecs[k].len
    ensures TrimVecs(vecs, Lens(vecs[..k]) + r) == [Cut(vecs[k], r)] + vecs[k + 1..]
  {
    if k == 0 {
      if r == 0 {
        assert [vecs[0]] + vecs[1..] == vecs;
      }
    } else {
      assert vecs[..k][1..] == vecs[1..][..k - 1];
      TrimVecsAt(vecs[1..], k - 1, r);
      assert vecs[1..][k..] == vecs[k + 1..];
    }
  }

  lemma ShortenIs(bios: seq<Bio>, nr: nat, k: nat, error: int)
    requires BiosOk(bios) && bios != [] && k < |bios[0].vecs| && nr < bios[0].vecs[k].len
    requires var n := Lens(bios[0].vecs[..k]) + nr; 0 < n < bios[0].size
    ensures var b := bios[0]; var n := Lens(b.vecs[..k]) + nr; var v := b.vecs[k];
      Advance(bios, n, error) ==
        [b.(uptodate := b.uptodate && error == 0, size := b.size - n, sector := b.sector + n / 512,
            vecs := [Cut(v, nr)] + b.vecs[k + 1..])] + bios[1..]
  {
    assert BioOk(bios[0]);
    TrimVecsAt(bios[0].vecs, k, nr);
    hide TrimVecs, Lens, BiosOk, BioOk;
  }

  class Request {
    var bios: seq<Bio>
    var sector: nat
    var len: nat
    var mixed: bool
    var ff: Ff
    var errors: int
    var nrSegs: nat      // nr_phys_segments
    const q: S.Limits
    var mergeable: bool  // rq_mergeable
    var write: bool
    var disk: nat
    var special: bool
    var integrity: bool
    var direct: bool     // __REQ_DIRECTIO
    var ended: seq<End>

    ghost function View(): (r: Req)
      reads this
    {
      Req(bios, sector, len, mixed, ff, Route(write, disk, direct, integrity))
    }

    /**
     The loop of blk_update_request: ends whole bios and finds where the rest begins.
     dumped is the report of a bio that runs out of vectors.
     */
    method Scan(nrBytes: nat, error: int) returns (nr: nat, total: nat, bioBytes: nat, nextIdx: nat, dumped: bool)
      requires BiosOk(bios)
      modifies this`bios, this`ended
      ensures !dumped && BiosOk(bios)
      ensures ended == old(ended) + Ends(old(bios), nrBytes, error)
      ensures Advance(old(bios), nrBytes, error) == Advance(bios, bioBytes, error)
      ensures bios != [] ==>
        && total == nrBytes && bioBytes < bios[0].size
        && nextIdx < |bios[0].vecs| && nr < bios[0].vecs[nextIdx].len
        && bioBytes == Lens(bios[0].vecs[..nextIdx]) + nr
    {
      hide Advance, Ends, Verdict;
      nr, total, bioBytes, nextIdx, dumped := nrBytes, 0, 0, 0, false;
      assert ended + Ends(bios, nr, error) == old(ended) + Ends(old(bios), nrBytes, error);
      while bios != []
        invariant BiosOk(bios) && total + nr == nrBytes && !dumped
        invariant bios != [] ==> nextIdx <= |bios[0].vecs| && bioBytes == Lens(bios[0].vecs[..nextIdx])
        invariant nextIdx > 0 ==> bios != [] && bioBytes + nr < bios[0].size
        invariant nextIdx == 0 ==> bioBytes == 0
        invariant Advance(old(bios), nrBytes, error) == Advance(bios, bioBytes + nr, error)
        invariant ended + Ends(bios, bioBytes + nr, error) == old(ended) + Ends(old(bios), nrBytes, error)
        decreases |bios|, if bios != [] then |bios[0].vecs| - nextIdx else 0
      {
        var bio := bios[0];
        assert BioOk(bio);
        assert bio.vecs[..|bio.vecs|] == bio.vecs;
        var nbytes: nat;
        if nr >= bio.size {
          nbytes := bio.size;
          FirstEnds(bios, nr, error);
          ghost var tail := Ends(bios[1..], nr - nbytes, error);
          assert ended + ([End(bio.id, Verdict(bio, error))] + tail) ==
              (ended + [End(bio.id, Verdict(bio, error))]) + tail;
          bios := bios[1..];
          ended := ended + [End(bio.id, Verdict(bio, error))];
          nextIdx, bioBytes := 0, 0;
        } else {
          if nextIdx >= |bio.vecs| {
            dumped := true;
            break;
          }
          nbytes := bio.vecs[nextIdx].len;
          LensTake(bio.vecs, nextIdx);
          if nbytes > nr {
            bioBytes, total := bioBytes + nr, total + nr;
            break;
          }
          nextIdx, bioBytes := nextIdx + 1, bioBytes + nbytes;
        }
        total, nr := total + nbytes, nr - nbytes;
        if bios != [] && nr == 0 {
          break;
        }
      }
      if bios == [] {
        NoBios(bioBytes + nr, error);
        NoBios(bioBytes, error);
      } else {
        NoneEnds(bios, bioBytes, error);
      }
    }

    /** The partial completion of the first bio after the loop of blk_update_request. */
    method Shorten(nr: nat, bioBytes: nat, nextIdx: nat, error: int)
      requires BiosOk(bios) && bios != [] && bioBytes < bios[0].size
      requires nextIdx < |bios[0].vecs| && nr < bios[0].vecs[nextIdx].len
      requires bioBytes == Lens(bios[0].vecs[..nextIdx]) + nr
      modifies this`bios
      ensures bios == Advance(old(bios), bioBytes, error)
    {
      if bioBytes != 0 {
        var bio := bios[0];
        ShortenIs(bios, nr, nextIdx, error);
        hide BiosOk, Lens, Advance;
        var v := bio.vecs[nextIdx];
        bio := bio.(uptodate := bio.uptodate && error == 0, size := bio.size - bioBytes,
                    sector := bio.sector + bioBytes / 512,
                    vecs := [Cut(v, nr)] + bio.vecs[nextIdx + 1..]);
        bios := [bio] + bios[1..];
      } else {
        assert [bios[0]] + bios[1..] == bios;
      }
    }

    /** blk_update_request up to the recount: true while the request has more data; botched is its last sanity check. */
    method CompleteBytes(nrBytes: nat, error: int) returns (more: bool, dumped: bool, botched: bool)
      requires Sized(View()) && nrBytes % 512 == 0
      modifies this`bios, this`sector, this`len, this`ff, this`errors, this`ended
      ensures View() == Update(old(View()), nrBytes, error) && more == (bios != [])
      ensures errors == if old(bios) == [] then old(errors) else 0
      ensures ended == old(ended) + Ends(old(bios), nrBytes, error)
      ensures !dumped && !botched && Sized(View()) && bios == Advance(old(bios), nrBytes, error)
    {
      hide Advance, Ends, BiosOk, Sizes, Lens;
      more, dumped, botched := false, false, false;
      if bios == [] {
        NoBios(nrBytes, error);
        return;
      }
      errors := 0;
      AdvanceOk(bios, nrBytes, error);
      var nr, total, bioBytes, nextIdx;
      nr, total, bioBytes, nextIdx, dumped := Scan(nrBytes, error);
      if bios == [] {
        len := 0;
        NoBios(bioBytes, error);
        return;
      }
      SomeRemains(bios, bioBytes, error);
      botched := Settle(nr, total, bioBytes, nextIdx, error);
      more := true;
    }

    /** blk_update_request */
    method UpdateRequest(nrBytes: nat, error: int) returns (more: bool, dumped: bool, botched: bool)
      requires Sized(View()) && nrBytes % 512 == 0
      modifies this`bios, this`sector, this`len, this`ff, this`errors, this`nrSegs, this`ended
      ensures View() == Update(old(View()), nrBytes, error) && more == (bios != [])
      ensures errors == if old(bios) == [] then old(errors) else 0
      ensures ended == old(ended) + Ends(old(bios), nrBytes, error)
      ensures !dumped && !botched && Sized(View())
      ensures !more ==> nrSegs == old(nrSegs)
      ensures more ==>
                nrSegs == |S.Pack(q, R.Vectors(bios), true)| && |S.Pack(q, R.Vectors(bios), false)| <= nrSegs
      ensures more && W.LowBits(q.boundaryMask) ==>
                |S.Pack(q, R.Vectors(bios), false)| <= |S.Pack(q, R.Vectors(old(bios)), false)|
    {
      hide Advance, Ends, BiosOk, Update, S.Pack, R.Vectors, W.LowBits;
      if W.LowBits(q.boundaryMask) { R.RestFits(q, bios, nrBytes, error); }
      more, dumped, botched := CompleteBytes(nrBytes, error);
      if more { RecountSegments(); }
    }

    /** blk_update_request after the loop, for a request of which something remains. */
    method Settle(nr: nat, total: nat, bioBytes: nat, nextIdx: nat, error: int) returns (botched: bool)
      requires BiosOk(bios) && bios != [] && bioBytes < bios[0].size
      requires nextIdx < |bios[0].vecs| && nr < bios[0].vecs[nextIdx].len
      requires bioBytes == Lens(bios[0].vecs[..nextIdx]) + nr
      requires var rest := Advance(bios, bioBytes, error);
        BiosOk(rest) && rest != [] && len == total + Sizes(rest)
      modifies this`bios, this`sector, this`len, this`ff
      ensures bios == Advance(old(bios), bioBytes, error) && bios != []
      ensures len == old(len) - total && sector == old(sector) + total / 512 && !botched
      ensures ff == if mixed then bios[0].ff else old(ff)
    {
      hide Advance, BiosOk, Lens;
      Shorten(nr, bioBytes, nextIdx, error);
      len := len - total;
      sector := sector + total / 512;
      if mixed {
        ff := bios[0].ff;
      }
      FirstVec(bios);
      var cur := bios[0].vecs[0].len;
      botched := len < cur;
      len := Max(len, cur);
    }

    /** blk_recalc_rq_segments, without the sizes cached in the bios. */
    method RecountSegments()
      requires BiosOk(bios) && bios != []
      modifies this`nrSegs
      ensures nrSegs == |S.Pack(q, R.Vectors(bios), true)| && |S.Pack(q, R.Vectors(bios), false)| <= nrSegs
    {
      forall i | 0 <= i < |bios| ensures bios[i].vecs != [] {
        assert BioOk(bios[i]);
      }
      R.ChainVectors(bios);
      R.BounceCovers(q, R.Vectors(bios));
      hide S.Pack, S.Flatten, R.Vectors, BiosOk;
      var w := M.CountChain(q, R.Chain(bios), 0);
      nrSegs := w.segs;
    }

    /** blk_rq_set_mixed_merge */
    method SetMixedMerge()
      modifies this`bios, this`mixed
      ensures View() == SetMixed(old(View()))
    {
      if mixed {
        return;
      }
      var i := 0;
      while i < |bios|
        invariant 0 <= i <= |bios| == |old(bios)|
        invariant forall k :: 0 <= k < i ==> bios[k] == Mark(old(bios)[k], ff)
        invariant forall k :: i <= k < |bios| ==> bios[k] == old(bios)[k]
      {
        bios := bios[i := Mark(bios[i], ff)];
        i := i + 1;
      }
      mixed := true;
      assert bios == MarkAll(old(bios), ff);
    }

    /** The back merge of __make_request, for a bio that begins where the request ends. */
    method BackMergeBio(bio: Bio)
      requires Tiled(View()) && Mixing(View()) && bios != []
      requires BioOk(bio) && bio.sector == sector + len / 512
      modifies this`bios, this`mixed, this`len
      ensures View() == BackMerge(old(View()), bio) && Tiled(View()) && Mixing(View())
      ensures old(Uniform(View())) && bio.route == old(View()).route ==> Uniform(View())
    {
      hide Tiled, Mixing, SetMixed, Uniform, BioOk;
      BackMergeTiles(View(), bio);
      BackMergeMixes(View(), bio);
      if Uniform(View()) && bio.route == View().route { BioMergeUniform(View(), bio); }
      if ff != bio.ff {
        SetMixedMerge();
      }
      bios := bios + [bio.(claim := bio.ff)];
      len := len + bio.size;
    }

    /** The front merge of __make_request, for a bio that ends where the request begins. */
    method FrontMergeBio(bio: Bio)
      requires Tiled(View()) && Mixing(View()) && bios != []
      requires BioOk(bio) && bio.sector + bio.size / 512 == sector
      modifies this`bios, this`mixed, this`len, this`ff, this`sector
      ensures View() == FrontMerge(old(View()), bio) && Tiled(View()) && Mixing(View())
      ensures old(Uniform(View())) && bio.route == old(View()).route ==> Uniform(View())
    {
      hide Tiled, Mixing, SetMixed, Uniform, BioOk;
      FrontMergeTiles(View(), bio);
      FrontMergeMixes(View(), bio);
      if Uniform(View()) && bio.route == View().route { BioMergeUniform(View(), bio); }
      if ff != bio.ff {
        SetMixedMerge();
        ff := bio.ff;
      }
      bios := [bio.(claim := bio.ff)] + bios;
      sector := bio.sector;
      len := len + bio.size;
    }

    /** What attempt_merge asks of two requests before it looks at the limits of the queue. */
    predicate Joinable(next: Request)
      reads this, next
    {
      && mergeable && next.mergeable && sector + len / 512 == next.sector
      && write == next.write && disk == next.disk && !next.special && integrity == next.integrity
    }

    /**
     attempt_merge: the bios of a request that begins where this one ends pass over to this one.
     `fits` is the answer of ll_merge_requests_fn.
     */
    method MergeNext(next: Request, fits: bool) returns (ok: bool)
      requires next != this && Tiled(View()) && Mixing(View()) && bios != []
      requires Tiled(next.View()) && Mixing(next.View())
      modifies this`bios, this`mixed, this`len, next`bios, next`mixed
      ensures ok <==> old(Joinable(next)) && fits && direct == next.direct
      ensures ok ==> View() == MergeReqs(old(View()), old(next.View())) && next.bios == []
      ensures !ok ==> View() == old(View()) && next.View() == old(next.View())
      ensures Tiled(View()) && Mixing(View())
      ensures old(Uniform(View())) && (ok ==> old(Uniform(next.View()))) ==> Uniform(View())
    {
      hide Tiled, Mixing, SetMixed, Uniform;
      if !mergeable || !next.mergeable { return false; }
      if sector + len / 512 != next.sector { return false; }
      if write != next.write || disk != next.disk || next.special { return false; }
      if integrity != next.integrity { return false; }
      if !fits { return false; }
      if direct != next.direct { return false; }
      MergeReqsTiles(View(), next.View());
      MergeReqsMixes(View(), next.View());
      if Uniform(View()) && Uniform(next.View()) { MergeReqsUniform(View(), next.View()); }
      if mixed || next.mixed || ff != next.ff {
        SetMixedMerge();
        next.SetMixedMerge();
      }
      bios := bios + next.bios;
      len := len + next.len;
      next.bios := [];
      return true;
    }

    /** blk_rq_err_bytes; stuck is its BUG_ON against an endless loop of error completions. */
    method RqErrBytes() returns (bytes: nat, stuck: bool)
      requires Tiled(View()) && Mixing(View())
      ensures bytes == ErrBytes(View()) && !stuck
      ensures bios != [] ==> 0 < bytes && bytes == ClaimBytes(bios, bios[0].claim)
    {
      if bios != [] {
        ErrBytesIsEager(View());
      }
      if !mixed {
        return len, false;
      }
      bytes := 0;
      var i := 0;
      assert bios[0..] == bios;
      while i < |bios|
        invariant 0 <= i <= |bios|
        invariant bytes + EagerBytes(bios[i..], ff) == EagerBytes(bios, ff)
      {
        assert bios[i..][1..] == bios[i + 1..];
        if !Within(ff, bios[i].ff) {
          break;
        }
        bytes := bytes + bios[i].size;
        i := i + 1;
      }
      stuck := len != 0 && bytes == 0;
    }

    /** done bytes of the bios in all have failed and been logged after log. */
    ghost predicate FailedSoFar(all: seq<Bio>, log: seq<End>, done: nat, error: int)
      reads this
    {
      && Tiled(View()) && Mixing(View()) && done % 512 == 0 && done + Sizes(bios) == Sizes(all)
      && Advance(all, done, error) == bios && ended == log + Ends(all, done, error)
    }

    method FailOnce(ghost all: seq<Bio>, ghost log: seq<End>, ghost done: nat, error: int) returns (n: nat)
      requires BiosOk(all) && FailedSoFar(all, log, done, error) && bios != []
      modifies this`bios, this`sector, this`len, this`ff, this`errors, this`nrSegs, this`ended
      ensures n > 0 && FailedSoFar(all, log, done + n, error)
    {
      hide Advance, Ends, Tiled, Mixing, Update, ErrBytes, ClaimBytes, Sizes, BiosOk, Sized;
      ghost var was := View();
      var bytes, _ := RqErrBytes();
      n := bytes;
      FailSome(was, all, done, error);
      var _, _, _ := UpdateRequest(n, error);
      assert log + Ends(all, done, error) + Ends(was.bios, n, error)
          == log + (Ends(all, done, error) + Ends(was.bios, n, error));
    }

    /** A driver that keeps failing what may be failed: the bios end in order, each once and with the error. */
    method FailAll(error: int)
      requires Tiled(View()) && Mixing(View()) && error != 0
      modifies this`bios, this`sector, this`len, this`ff, this`errors, this`nrSegs, this`ended
      ensures bios == [] && |ended| == |old(ended)| + |old(bios)| && old(ended) <= ended
      ensures forall i :: 0 <= i < |old(bios)| ==> ended[|old(ended)| + i] == End(old(bios)[i].id, error)
    {
      AllFail(bios, error);
      ghost var done: nat := 0;
      FailNone(View(), error);
      while bios != []
        invariant FailedSoFar(old(bios), old(ended), done, error)
        decreases Sizes(old(bios)) - done
      {
        hide Advance, Ends, Tiled, Mixing, Sizes, BiosOk;
        var n := FailOnce(old(bios), old(ended), done, error);
        done := done + n;
      }
    }
  }

  /** Failing all bytes ends every bio, in order and with the error. */
  lemma {:induction false} AllFail(bios: seq<Bio>, error: int)
    requires error != 0
    ensures |Ends(bios, Sizes(bios), error)| == |bios|
    ensures forall i :: 0 <= i < |bios| ==> Ends(bios, Sizes(bios), error)[i] == End(bios[i].id, error)
  {
    if bios != [] {
      AllFail(bios[1..], error);
    }
  }

  lemma FailNone(r: Req, error: int)
    requires Tiled(r)
    ensures Advance(r.bios, 0, error) == r.bios && Ends(r.bios, 0, error) == []
    ensures Sizes([]) == 0
  {
    assert r.bios != [] ==> BioOk(r.bios[0]);
  }

  /** One failure of what may be failed, in a request of which done bytes have already failed. */
  lemma FailSome(r: Req, all: seq<Bio>, done: nat, error: int)
    requires Tiled(r) && Mixing(r) && r.bios != []
    requires BiosOk(all) && Advance(all, done, error) == r.bios && done % 512 == 0
    ensures var n := ErrBytes(r); var s := Update(r, n, error);
      && Sized(r) && n % 512 == 0 && (done + n) % 512 == 0 && Tiled(s) && Mixing(s)
      && Sizes(s.bios) == Sizes(r.bios) - n && 0 < n <= Sizes(r.bios)
      && Advance(all, done + n, error) == s.bios
      && Ends(all, done, error) + Ends(r.bios, n, error) == Ends(all, done + n, error)
  {
    ErrBytesIsEager(r);
    var n := ErrBytes(r);
    UpdateTiles(r, n, error);
    UpdateMixes(r, n, error);
    AdvanceOk(r.bios, n, error);
    AdvanceAdds(all, done, n, error);
    WholeSectorsAdd(done, n);
    hide Advance, Ends, ErrBytes, ClaimBytes, Mixing, BiosOk, Chained;
  }

  lemma NoBios(n: nat, error: int)
    ensures Advance([], n, error) == [] && Ends([], n, error) == []
  {
  }

  lemma SomeRemains(bios: seq<Bio>, n: nat, error: int)
    requires bios != [] && n < bios[0].size
    ensures Advance(bios, n, error) != []
  {
  }

  lemma NoneEnds(bios: seq<Bio>, n: nat, error: int)
    requires bios != [] && n < bios[0].size
    ensures Ends(bios, n, error) == []
  {
  }

  /** The first vector of a request that has data left is no longer than the data. */
  lemma FirstVec(bios: seq<Bio>)
    requires BiosOk(bios) && bios != []
    ensures |bios[0].vecs| > 0 && bios[0].vecs[0].len <= Sizes(bios)
  {
    assert BioOk(bios[0]);
  }
}
