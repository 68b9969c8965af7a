/**
 When bios and requests are merged, written out with the limits of the queue, and how large requests
 get by it.
 */
module SegmentLimits {
  import opened Lists
  import opened Segments
  import opened SegmentMerge

  // ----- when a merge is accepted -----

  /** The bio fits in: by size, by number of segments, and with the direct-I/O flag of last_merge. */
  ghost predicate BioFits(q: Limits, r: Req, bio: Bio, last: Option<bool>) {
    && (!r.pc ==> Sectors(r.bios) + bio.sectors <= q.maxSectors)
    && (r.pc ==> Sectors(r.bios) + bio.sectors <= q.maxHwSectors)
    && r.nr + |Pack(q, bio.vecs, true)| <= q.maxSegments
    && (last.None? || last.value == r.direct)
  }

  /** ll_back_merge_fn and ll_front_merge_fn accept exactly what fits; a refusal forbids further merging. */
  lemma BioMergeAccepts(q: Limits, r: Req, bio: Bio, last: Option<bool>)
    requires r.bios != [] && Accurate(q, bio)
    ensures BackMerge(q, r, bio, last).ok <==> BioFits(q, r, bio, last)
    ensures FrontMerge(q, r, bio, last).ok <==> BioFits(q, r, bio, last)
    ensures BackMerge(q, r, bio, last).ok ==>
              BackMerge(q, r, bio, last).r.nr == r.nr + |Pack(q, bio.vecs, true)|
    ensures FrontMerge(q, r, bio, last).ok ==>
              FrontMerge(q, r, bio, last).r.nr == r.nr + |Pack(q, bio.vecs, true)|
    ensures !BioFits(q, r, bio, last) ==>
              var (b, f) := (BackMerge(q, r, bio, last).r, FrontMerge(q, r, bio, last).r);
              b.noMerge && b.nr == r.nr && f.noMerge && f.nr == r.nr
  {
    RecountIsAccurate(q, bio);
    hide Pack, Accurate, Counted, Sectors;
  }

  /** The last segment of the one and the first of the other may be one segment of the device. */
  ghost predicate Touch(q: Limits, r: Req, next: Req)
    requires r.bios != [] && next.bios != [] && Last(r.bios).vecs != [] && next.bios[0].vecs != []
  {
    && q.cluster && Last(r.bios).back + next.bios[0].front <= q.maxSegmentSize
    && Joinable(q, Last(Last(r.bios).vecs), next.bios[0].vecs[0])
  }

  /** ll_merge_requests_fn accepts exactly what fits, and counts a shared segment once. */
  lemma JoinAccepts(q: Limits, r: Req, next: Req)
    requires r.bios != [] && next.bios != [] && Last(r.bios).vecs != [] && next.bios[0].vecs != []
    ensures var j := MergeRequests(q, r, next);
            var nr := r.nr + next.nr - if Touch(q, r, next) then 1 else 0;
      && (j.ok <==>
            && !r.special && !next.special && r.direct == next.direct
            && Sectors(r.bios) + Sectors(next.bios) <= q.maxSectors && nr <= q.maxSegments)
      && (j.ok ==> j.r.nr == nr) && (!j.ok ==> j.r.nr == r.nr && j.next.nr == next.nr)
  {
    hide Sectors, Joinable;
  }

  // ----- how large requests get -----

  /** A request of the file system is within max_sectors, a driver command within max_hw_sectors. */
  ghost predicate SizeOk(q: Limits, r: Req) {
    && (!r.pc ==> Sectors(r.bios) <= q.maxSectors)
    && (r.pc && q.maxSectors <= q.maxHwSectors ==> Sectors(r.bios) <= q.maxHwSectors)
  }

  lemma {:induction false} SectorsConcat(a: seq<Bio>, b: seq<Bio>)
    ensures Sectors(a + b) == Sectors(a) + Sectors(b)
  {
    if b == [] {
      assert a + b == a;
    } else {
      SectorsConcat(a, Front(b));
      assert Front(a + b) == a + Front(b) && Last(a + b) == Last(b);
    }
  }

  lemma {:induction false} SectorsFrame(a: seq<Bio>, b: seq<Bio>)
    requires |a| == |b| && forall i :: 0 <= i < |a| ==> a[i].sectors == b[i].sectors
    ensures Sectors(a) == Sectors(b)
  {
    if a != [] { SectorsFrame(Front(a), Front(b)); }
  }

  lemma SectorsOne(b: Bio)
    ensures Sectors([b]) == b.sectors
  {
    assert Front([b]) == [];
    assert Sectors([b]) == Sectors([]) + b.sectors;
  }

  lemma CountedSectors(q: Limits, b: Bio)
    ensures Counted(q, b).sectors == b.sectors
  {
  }

  /** A merged bio adds its sectors; a refused one adds nothing. */
  lemma BackMergeSectors(q: Limits, r: Req, bio: Bio, last: Option<bool>)
    requires r.bios != []
    ensures var m := BackMerge(q, r, bio, last);
      m.r.pc == r.pc && Sectors(m.r.bios) == Sectors(r.bios) + if m.ok then bio.sectors else 0
  {
    hide Counted, Sectors;
    var (b, c) := (Counted(q, bio), Counted(q, Last(r.bios)));
    CountedSectors(q, bio);
    CountedSectors(q, Last(r.bios));
    var tail := Front(r.bios) + [c];
    SectorsFrame(tail, r.bios);
    SectorsOne(b);
    SectorsConcat(tail, [b]);
    var m := BackMerge(q, r, bio, last);
    assert m.r.bios == if TooLarge(q, r, bio) then r.bios else if m.ok then tail + [b] else tail;
  }

  lemma FrontMergeSectors(q: Limits, r: Req, bio: Bio, last: Option<bool>)
    requires r.bios != []
    ensures var m := FrontMerge(q, r, bio, last);
      m.r.pc == r.pc && Sectors(m.r.bios) == Sectors(r.bios) + if m.ok then bio.sectors else 0
  {
    hide Counted, Sectors;
    var (b, c) := (Counted(q, bio), Counted(q, r.bios[0]));
    CountedSectors(q, bio);
    CountedSectors(q, r.bios[0]);
    var head := [c] + r.bios[1..];
    SectorsFrame(head, r.bios);
    SectorsOne(b);
    SectorsConcat([b], head);
    var m := FrontMerge(q, r, bio, last);
    assert m.r.bios == if TooLarge(q, r, bio) then r.bios else if m.ok then [b] + head else head;
  }

  /** A join only touches the caches of the bios. */
  lemma JoinShape(q: Limits, r: Req, next: Req) returns (front: seq<Bio>)
    requires r.bios != [] && next.bios != []
    ensures |front| == |r.bios| && forall i :: 0 <= i < |front| ==> front[i].sectors == r.bios[i].sectors
    ensures var j := MergeRequests(q, r, next);
      && |j.next.bios| == |next.bios|
      && (forall i :: 0 <= i < |next.bios| ==> j.next.bios[i].sectors == next.bios[i].sectors)
      && j.r.pc == r.pc && j.next.pc == next.pc && j.r.bios == if j.ok then front + j.next.bios else front
  {
    hide Sectors, ContigSegment;
    var j := MergeRequests(q, r, next);
    var size := Last(r.bios).back + next.bios[0].front;
    var (first, last) := (r.bios[0].(front := size), Last(next.bios).(back := size));
    assert j.next.bios == next.bios || j.next.bios == next.bios[|next.bios| - 1 := last];
    if j.ok {
      front := if ContigSegment(q, Last(r.bios), next.bios[0]) && r.nr == 1 then r.bios[0 := first] else r.bios;
    } else {
      front := j.r.bios;
      assert front == r.bios || front == r.bios[0 := first];
    }
  }

  lemma JoinSectors(q: Limits, r: Req, next: Req)
    requires r.bios != [] && next.bios != []
    ensures var j := MergeRequests(q, r, next);
      && j.r.pc == r.pc && j.next.pc == next.pc && Sectors(j.next.bios) == Sectors(next.bios)
      && Sectors(j.r.bios) == Sectors(r.bios) + if j.ok then Sectors(next.bios) else 0
  {
    hide Sectors, MergeRequests;
    var j := MergeRequests(q, r, next);
    var front := JoinShape(q, r, next);
    SectorsFrame(j.next.bios, next.bios);
    SectorsFrame(front, r.bios);
    SectorsConcat(front, j.next.bios);
  }

  /** Bios that start a request are within its limit. */
  ghost predicate StartsSmall(q: Limits, op: Op) {
    op.New? ==> op.bio.sectors <= if op.pc then q.maxHwSectors else q.maxSectors
  }

  ghost predicate AllSmall(q: Limits, pool: seq<Req>) { forall k :: 0 <= k < |pool| ==> SizeOk(q, pool[k]) }

  lemma SmallChanges(q: Limits, pool: seq<Req>, i: nat, r: Req)
    requires AllSmall(q, pool) && SizeOk(q, r)
    ensures AllSmall(q, pool + [r]) && (i < |pool| ==> AllSmall(q, pool[i := r]) && AllSmall(q, Remove(pool, i)))
  {
    hide SizeOk;
  }

  lemma BioMergeIsSmall(q: Limits, r: Req, bio: Bio, last: Option<bool>)
    requires Sound(q, r) && SizeOk(q, r) && Accurate(q, bio)
    ensures SizeOk(q, BackMerge(q, r, bio, last).r) && SizeOk(q, FrontMerge(q, r, bio, last).r)
  {
    assert r.bios != [];
    hide Sound, BackMerge, FrontMerge, Accurate, Sectors, Pack;
    BioMergeAccepts(q, r, bio, last);
    BackMergeSectors(q, r, bio, last);
    FrontMergeSectors(q, r, bio, last);
  }

  lemma ApplyIsSmall(q: Limits, pool: seq<Req>, op: Op)
    requires AllSound(q, pool) && AllSmall(q, pool) && Submitted(q, op) && StartsSmall(q, op)
    ensures (forall k :: 0 <= k < |pool| ==> pool[k].bios != []) && AllSmall(q, Apply(q, pool, op))
  {
    SoundIsNonEmpty(q, pool);
    hide Sound, BackMerge, FrontMerge, MergeRequests, Accurate, Counted, Sectors, Pack, Fits, Remove;
    match op
    case New(bio, pc, direct) =>
      CountedSectors(q, bio);
      SectorsOne(Counted(q, bio));
      SmallChanges(q, pool, 0, Req([Counted(q, bio)], Counted(q, bio).phys, false, false, pc, direct));
    case Back(i, bio, last) =>
      if i < |pool| {
        BioMergeIsSmall(q, pool[i], bio, last);
        SmallChanges(q, pool, i, BackMerge(q, pool[i], bio, last).r);
      }
    case Ahead(i, bio, last) =>
      if i < |pool| {
        BioMergeIsSmall(q, pool[i], bio, last);
        SmallChanges(q, pool, i, FrontMerge(q, pool[i], bio, last).r);
      }
    case Both(i, j) =>
      if i < |pool| && j < |pool| && i != j {
        JoinIsSmall(q, pool[i], pool[j]);
        var m := MergeRequests(q, pool[i], pool[j]);
        SmallChanges(q, pool, i, m.r);
        SmallChanges(q, pool[i := m.r], j, if m.ok then m.r else m.next);
      }
  }

  lemma JoinIsSmall(q: Limits, r: Req, next: Req)
    requires Sound(q, r) && Sound(q, next) && SizeOk(q, r) && SizeOk(q, next)
    ensures var j := MergeRequests(q, r, next); SizeOk(q, j.r) && (!j.ok ==> SizeOk(q, j.next))
  {
    JoinAccepts(q, r, next);
    JoinSectors(q, r, next);
    hide Backs, MergeRequests, Sectors;
  }

  /**
   After any sequence of submissions and merges every request is within its limit; for driver commands this
   takes queue limits with max_sectors within max_hw_sectors.
   */
  lemma {:induction false} SizesFitEveryRun(q: Limits, ops: seq<Op>)
    requires forall i :: 0 <= i < |ops| ==> Submitted(q, ops[i]) && StartsSmall(q, ops[i])
    ensures forall k :: 0 <= k < |Run(q, ops)| ==> SizeOk(q, Run(q, ops)[k])
  {
    if ops != [] {
      hide SizeOk, Apply, Submitted, StartsSmall;
      SizesFitEveryRun(q, Front(ops));
      ApplyIsSmall(q, Run(q, Front(ops)), Last(ops));
    }
  }
}
