/**
 Merging bios and requests with incremental segment counts (blk-merge.c), and the
 scatterlist that is built from the result.
 */
module SegmentMerge {
  import opened Lists
  import opened Segments

  /** A bio with data; the last four fields are the cached counts. */
  datatype Bio = Bio(vecs: seq<Vec>, sectors: nat, phys: nat, segValid: bool, front: nat, back: nat)

  /** direct is __REQ_DIRECTIO of CONFIG_BD_CACHE_ENABLED. */
  datatype Req = Req(bios: seq<Bio>, nr: int, noMerge: bool, special: bool, pc: bool, direct: bool)

  function Vecs(bios: seq<Bio>): (vs: seq<Vec>) {
    if bios == [] then [] else Vecs(Front(bios)) + Last(bios).vecs
  }

  function Sectors(bios: seq<Bio>): (n: nat) {
    if bios == [] then 0 else Sectors(Front(bios)) + Last(bios).sectors
  }

  function RaiseFront(bios: seq<Bio>, size: nat): (bs: seq<Bio>)
    requires bios != []
  {
    bios[0 := bios[0].(front := Max(bios[0].front, size))]
  }

  function RaiseBack(bios: seq<Bio>, size: nat): (bs: seq<Bio>)
    requires bios != []
  {
    bios[|bios| - 1 := Last(bios).(back := Max(Last(bios).back, size))]
  }

  /** __blk_recalc_rq_segments: the count and the cached sizes of the chain's two ends. */
  function Recalc(q: Limits, bios: seq<Bio>): (r: (nat, seq<Bio>)) {
    var p := Pack(q, Vecs(bios), true);
    if bios == [] || p == [] then (0, bios)
    else (|p|, RaiseBack(RaiseFront(bios, Size(p[0])), Size(Last(p))))
  }

  /** blk_recount_segments */
  function Recount(q: Limits, b: Bio): (b': Bio) {
    var (n, bs) := Recalc(q, [b]);
    if |bs| == 1 then bs[0].(phys := n, segValid := true) else b
  }

  function Counted(q: Limits, b: Bio): (b': Bio) { if b.segValid then b else Recount(q, b) }

  datatype Merge = Merge(r: Req, bio: Bio, ok: bool)

  /** ll_new_hw_segment; last is the direct-I/O flag of the queue's last_merge, if there is one. */
  function NewHwSegment(q: Limits, r: Req, bio: Bio, last: Option<bool>): (m: Merge) {
    if r.nr + bio.phys > q.maxSegments || (last.Some? && last.value != r.direct)
    then Merge(r.(noMerge := true), bio, false)
    else Merge(r.(nr := r.nr + bio.phys), bio, true)
  }

  predicate TooLarge(q: Limits, r: Req, bio: Bio) {
    Sectors(r.bios) + bio.sectors > if r.pc then q.maxHwSectors else q.maxSectors
  }

  /** ll_back_merge_fn, then __make_request links the bio to the tail */
  function BackMerge(q: Limits, r: Req, bio: Bio, last: Option<bool>): (m: Merge)
    requires r.bios != []
  {
    if TooLarge(q, r, bio) then Merge(r.(noMerge := true), bio, false)
    else
      var r1 := r.(bios := Front(r.bios) + [Counted(q, Last(r.bios))]);
      var m := NewHwSegment(q, r1, Counted(q, bio), last);
      if m.ok then m.(r := m.r.(bios := m.r.bios + [m.bio])) else m
  }

  /** ll_front_merge_fn, then __make_request puts the bio in front */
  function FrontMerge(q: Limits, r: Req, bio: Bio, last: Option<bool>): (m: Merge)
    requires r.bios != []
  {
    if TooLarge(q, r, bio) then Merge(r.(noMerge := true), bio, false)
    else
      var r1 := r.(bios := [Counted(q, r.bios[0])] + r.bios[1..]);
      var m := NewHwSegment(q, r1, Counted(q, bio), last);
      if m.ok then m.(r := m.r.(bios := [m.bio] + m.r.bios)) else m
  }

  /** blk_phys_contig_segment */
  predicate ContigSegment(q: Limits, b: Bio, next: Bio) {
    && q.cluster && b.back + next.front <= q.maxSegmentSize
    && (b.vecs != [] && next.vecs != [] ==> Joinable(q, Last(b.vecs), next.vecs[0]))
  }

  datatype Join = Join(r: Req, next: Req, ok: bool)

  /** ll_merge_requests_fn, then attempt_merge joins the chains */
  function MergeRequests(q: Limits, r: Req, next: Req): (j: Join)
    requires r.bios != [] && next.bios != []
  {
    if r.special || next.special || r.direct != next.direct || Sectors(r.bios) + Sectors(next.bios) > q.maxSectors
    then Join(r, next, false)
    else
      var size := Last(r.bios).back + next.bios[0].front;
      var contig := ContigSegment(q, Last(r.bios), next.bios[0]);
      var r1 := if contig && r.nr == 1 then r.(bios := r.bios[0 := r.bios[0].(front := size)]) else r;
      var n1 := if contig && next.nr == 1
                then next.(bios := next.bios[|next.bios| - 1 := Last(next.bios).(back := size)]) else next;
      var total := if contig then r.nr + next.nr - 1 else r.nr + next.nr;
      if total > q.maxSegments then Join(r1, n1, false)
      else Join(r1.(nr := total, bios := r1.bios + n1.bios), n1, true)
  }

  // ---- The invariant ----

  /** The caches of a bio describe its own vectors. */
  ghost predicate Accurate(q: Limits, b: Bio) {
    && b.vecs != []
    && (b.segValid ==> var p := Pack(q, b.vecs, true);
                       p != [] && b.phys == |p| && Size(p[0]) <= b.front && Size(Last(p)) <= b.back)
  }

  ghost predicate Fits(q: Limits, b: Bio) { |Pack(q, b.vecs, true)| <= q.maxSegments }

  /** p is a segmentation of the request with as many segments as the request claims. */
  ghost predicate Backs(q: Limits, r: Req, p: seq<seq<Vec>>)
    requires r.bios != []
  {
    && p != [] && |p| == r.nr <= q.maxSegments && Segmentation(q, p, Vecs(r.bios))
    && Size(p[0]) <= r.bios[0].front && Size(Last(p)) <= Last(r.bios).back
  }

  ghost predicate Sound(q: Limits, r: Req) {
    && r.bios != [] && (forall i :: 0 <= i < |r.bios| ==> r.bios[i].vecs != []) && r.nr > 0
    && exists p :: Backs(q, r, p)
  }

  /** What the invariant is for. */
  lemma SoundCountsSuffice(q: Limits, r: Req)
    requires Sound(q, r)
    ensures |Pack(q, Vecs(r.bios), false)| <= r.nr <= q.maxSegments
  {
    var p :| Backs(q, r, p);
    GreedyIsMinimal(q, Vecs(r.bios), p);
  }

  lemma VecsOne(b: Bio)
    ensures Vecs([b]) == b.vecs
  {
    assert Front([b]) == [];
    assert Vecs([b]) == Vecs([]) + b.vecs;
  }

  lemma {:induction false} VecsConcat(a: seq<Bio>, b: seq<Bio>)
    ensures Vecs(a + b) == Vecs(a) + Vecs(b)
  {
    if b == [] {
      assert a + b == a;
    } else {
      VecsConcat(a, Front(b));
      calc {
        Vecs(a + b);
        { assert Front(a + b) == a + Front(b) && Last(a + b) == Last(b); }
        Vecs(a + Front(b)) + Last(b).vecs;
        (Vecs(a) + Vecs(Front(b))) + Last(b).vecs;
        Vecs(a) + (Vecs(Front(b)) + Last(b).vecs);
      }
    }
  }

  /** Only the vectors of the chain matter, not the caches. */
  lemma {:induction false} VecsFrame(a: seq<Bio>, b: seq<Bio>)
    requires |a| == |b| && forall i :: 0 <= i < |a| ==> a[i].vecs == b[i].vecs
    ensures Vecs(a) == Vecs(b)
  {
    if a != [] { VecsFrame(Front(a), Front(b)); }
  }

  lemma RecountIsAccurate(q: Limits, b: Bio)
    requires Accurate(q, b)
    ensures var b' := Counted(q, b);
            && Accurate(q, b') && b'.segValid && b'.vecs == b.vecs && b'.sectors == b.sectors
            && b.front <= b'.front && b.back <= b'.back && b'.phys == |Pack(q, b.vecs, true)|
            && (!b.segValid ==> var p := Pack(q, b.vecs, true);
                  p != [] && b'.front == Max(b.front, Size(p[0])) && b'.back == Max(b.back, Size(Last(p))))
  {
    VecsOne(b);
    PackIsSegmentation(q, b.vecs, true);
  }

  /** Segmentations of two parts, one after the other. */
  lemma SegmentationConcat(q: Limits, p1: seq<seq<Vec>>, v1: seq<Vec>, p2: seq<seq<Vec>>, v2: seq<Vec>)
    requires Segmentation(q, p1, v1) && Segmentation(q, p2, v2)
    ensures Segmentation(q, p1 + p2, v1 + v2)
  {
    FlattenConcat(p1, p2);
  }

  /** Raising the caches at the ends keeps a request sound. */
  lemma SoundFrame(q: Limits, r: Req, r': Req)
    requires Sound(q, r) && r'.nr == r.nr && |r'.bios| == |r.bios|
    requires forall i :: 0 <= i < |r.bios| ==> r'.bios[i].vecs == r.bios[i].vecs
    requires r.bios[0].front <= r'.bios[0].front && Last(r.bios).back <= Last(r'.bios).back
    ensures Sound(q, r')
  {
    var p :| Backs(q, r, p);
    VecsFrame(r'.bios, r.bios);
    assert Backs(q, r', p);
  }

  lemma CountedOnlyRaises(q: Limits, b: Bio)
    ensures var b' := Counted(q, b); b'.vecs == b.vecs && b.front <= b'.front && b.back <= b'.back
  {
  }

  /** Two sound requests chained, with no segment across the seam. */
  lemma ChainIsSound(q: Limits, a: Req, b: Req, r: Req)
    requires Sound(q, a) && Sound(q, b) && a.nr + b.nr <= q.maxSegments
    requires r.nr == a.nr + b.nr && r.bios == a.bios + b.bios
    ensures Sound(q, r)
  {
    hide Pack, ValidSegment, Size;
    var p1 :| Backs(q, a, p1);
    var p2 :| Backs(q, b, p2);
    VecsConcat(a.bios, b.bios);
    SegmentationConcat(q, p1, Vecs(a.bios), p2, Vecs(b.bios));
    assert Last(p1 + p2) == Last(p2);
    assert Last(r.bios) == Last(b.bios);
    assert Backs(q, r, p1 + p2);
  }

  /** A counted bio is a sound request of its own. */
  lemma BioIsSound(q: Limits, b: Bio, r: Req)
    requires Accurate(q, b) && b.segValid && b.phys <= q.maxSegments && r.bios == [b] && r.nr == b.phys
    ensures Sound(q, r)
  {
    hide ValidSegment, Size;
    PackIsSegmentation(q, b.vecs, true);
    VecsOne(b);
    assert Backs(q, r, Pack(q, b.vecs, true));
  }

  lemma BackMergeIsSound(q: Limits, r: Req, bio: Bio, last: Option<bool>)
    requires Sound(q, r) && Accurate(q, bio)
    ensures var m := BackMerge(q, r, bio, last);
            Sound(q, m.r) && Vecs(m.r.bios) == if m.ok then Vecs(r.bios) + bio.vecs else Vecs(r.bios)
  {
    hide Pack, Backs, Accurate, Counted, Vecs;
    var m := BackMerge(q, r, bio, last);
    if TooLarge(q, r, bio) {
      SoundFrame(q, r, m.r);
    } else {
      var r1 := r.(bios := Front(r.bios) + [Counted(q, Last(r.bios))]);
      CountedOnlyRaises(q, Last(r.bios));
      SoundFrame(q, r, r1);
      VecsFrame(r1.bios, r.bios);
      RecountIsAccurate(q, bio);
      if m.ok {
        var b := Counted(q, bio);
        VecsConcat(r1.bios, [b]);
        VecsOne(b);
        var one := Req([b], b.phys, false, false, false, false);
        BioIsSound(q, b, one);
        ChainIsSound(q, r1, one, m.r);
      } else {
        SoundFrame(q, r1, m.r);
      }
    }
  }

  lemma FrontMergeIsSound(q: Limits, r: Req, bio: Bio, last: Option<bool>)
    requires Sound(q, r) && Accurate(q, bio)
    ensures var m := FrontMerge(q, r, bio, last);
            Sound(q, m.r) && Vecs(m.r.bios) == if m.ok then bio.vecs + Vecs(r.bios) else Vecs(r.bios)
  {
    hide Pack, Backs, Accurate, Counted, Vecs;
    var m := FrontMerge(q, r, bio, last);
    if TooLarge(q, r, bio) {
      SoundFrame(q, r, m.r);
    } else {
      var r1 := r.(bios := [Counted(q, r.bios[0])] + r.bios[1..]);
      CountedOnlyRaises(q, r.bios[0]);
      SoundFrame(q, r, r1);
      VecsFrame(r1.bios, r.bios);
      RecountIsAccurate(q, bio);
      if m.ok {
        var b := Counted(q, bio);
        VecsConcat([b], r1.bios);
        VecsOne(b);
        var one := Req([b], b.phys, false, false, false, false);
        BioIsSound(q, b, one);
        ChainIsSound(q, one, r1, m.r);
      } else {
        SoundFrame(q, r1, m.r);
      }
    }
  }

  /** The last segment of one request and the first of the next, made one. */
  function Weld(p1: seq<seq<Vec>>, p2: seq<seq<Vec>>): (p: seq<seq<Vec>>)
    requires p1 != [] && p2 != []
    ensures |p| == |p1| + |p2| - 1
  {
    Front(p1) + [Last(p1) + p2[0]] + p2[1..]
  }

  lemma WeldEnds(p1: seq<seq<Vec>>, p2: seq<seq<Vec>>)
    requires p1 != [] && p2 != []
    ensures Weld(p1, p2)[0] == if |p1| == 1 then Last(p1) + p2[0] else p1[0]
    ensures Last(Weld(p1, p2)) == if |p2| == 1 then Last(p1) + p2[0] else Last(p2)
  {
  }

  lemma WeldedSegmentIsValid(q: Limits, s1: seq<Vec>, s2: seq<Vec>)
    requires ValidSegment(q, s1) && ValidSegment(q, s2) && q.cluster
    requires Size(s1) + Size(s2) <= q.maxSegmentSize && Joinable(q, Last(s1), s2[0])
    ensures ValidSegment(q, s1 + s2)
  {
    SizeConcat(s1, s2);
  }

  lemma WeldIsSegmentation(q: Limits, p1: seq<seq<Vec>>, v1: seq<Vec>, p2: seq<seq<Vec>>, v2: seq<Vec>)
    requires Segmentation(q, p1, v1) && Segmentation(q, p2, v2) && p1 != [] && p2 != []
    requires ValidSegment(q, Last(p1) + p2[0])
    ensures Segmentation(q, Weld(p1, p2), v1 + v2)
  {
    hide ValidSegment;
    var mid := [Last(p1) + p2[0]];
    calc {
      Flatten(Weld(p1, p2));
      { FlattenConcat(Front(p1) + mid, p2[1..]); }
      Flatten(Front(p1) + mid) + Flatten(p2[1..]);
      { assert Front(Front(p1) + mid) == Front(p1); }
      (Flatten(Front(p1)) + (Last(p1) + p2[0])) + Flatten(p2[1..]);
      (Flatten(Front(p1)) + Last(p1)) + (p2[0] + Flatten(p2[1..]));
      { FlattenFirst(p2); }
      v1 + v2;
    }
  }

  lemma FlattenFirst(p: seq<seq<Vec>>)
    requires p != []
    ensures Flatten(p) == p[0] + Flatten(p[1..])
  {
    FlattenConcat([p[0]], p[1..]);
    assert [p[0]] + p[1..] == p && Front([p[0]]) == [];
    assert Flatten([p[0]]) == Flatten([]) + p[0];
  }

  lemma LastVec(q: Limits, bios: seq<Bio>, p: seq<seq<Vec>>)
    requires bios != [] && Last(bios).vecs != [] && Segmentation(q, p, Vecs(bios))
    ensures p != [] && Last(p) != [] && Last(Last(p)) == Last(Last(bios).vecs)
  {
    assert Last(Vecs(bios)) == Last(Last(bios).vecs);
    assert ValidSegment(q, Last(p));
    assert Last(Flatten(p)) == Last(Last(p));
  }

  lemma FirstVec(q: Limits, bios: seq<Bio>, p: seq<seq<Vec>>)
    requires bios != [] && bios[0].vecs != [] && Segmentation(q, p, Vecs(bios))
    ensures p != [] && p[0] != [] && p[0][0] == bios[0].vecs[0]
  {
    VecsConcat([bios[0]], bios[1..]);
    assert [bios[0]] + bios[1..] == bios;
    VecsOne(bios[0]);
    assert p != [] by { assert Flatten([]) == []; }
    FlattenFirst(p);
    assert ValidSegment(q, p[0]);
    assert Vecs(bios)[0] == bios[0].vecs[0] && Flatten(p)[0] == p[0][0];
  }

  /** Two sound requests whose seam is contiguous, with one segment across it. */
  lemma WeldIsSound(q: Limits, a: Req, b: Req, r: Req)
    requires Sound(q, a) && Sound(q, b) && ContigSegment(q, Last(a.bios), b.bios[0])
    requires r.nr == a.nr + b.nr - 1 <= q.maxSegments && |r.bios| == |a.bios| + |b.bios|
    requires forall i :: 0 <= i < |r.bios| ==> r.bios[i].vecs == (a.bios + b.bios)[i].vecs
    requires r.bios[0].front >= if a.nr == 1 then Last(a.bios).back + b.bios[0].front else a.bios[0].front
    requires Last(r.bios).back >= if b.nr == 1 then Last(a.bios).back + b.bios[0].front else Last(b.bios).back
    ensures Sound(q, r)
  {
    var p1 :| Backs(q, a, p1);
    var p2 :| Backs(q, b, p2);
    LastVec(q, a.bios, p1);
    FirstVec(q, b.bios, p2);
    hide Segmentation, Flatten, Vecs, Joinable, Pack;
    assert ValidSegment(q, Last(p1)) && ValidSegment(q, p2[0]) by {
      SegmentationParts(q, p1, Vecs(a.bios));
      SegmentationParts(q, p2, Vecs(b.bios));
    }
    WeldedSegmentIsValid(q, Last(p1), p2[0]);
    WeldIsSegmentation(q, p1, Vecs(a.bios), p2, Vecs(b.bios));
    VecsConcat(a.bios, b.bios);
    VecsFrame(r.bios, a.bios + b.bios);
    hide ValidSegment;
    SizeConcat(Last(p1), p2[0]);
    WeldEnds(p1, p2);
    hide Weld, Size;
    assert Backs(q, r, Weld(p1, p2));
  }

  lemma SegmentationParts(q: Limits, p: seq<seq<Vec>>, vs: seq<Vec>)
    requires Segmentation(q, p, vs)
    ensures forall i :: 0 <= i < |p| ==> ValidSegment(q, p[i])
  {
  }

  /** With a single segment, either cached end bounds it. */
  lemma SingleSegment(q: Limits, r: Req, r': Req)
    requires Sound(q, r) && r.nr == 1 && r'.nr == 1 && |r'.bios| == |r.bios|
    requires forall i :: 0 <= i < |r.bios| ==> r'.bios[i].vecs == r.bios[i].vecs
    requires r'.bios[0].front >= r.bios[0].front || r'.bios[0].front >= Last(r.bios).back
    requires Last(r'.bios).back >= Last(r.bios).back || Last(r'.bios).back >= r.bios[0].front
    ensures Sound(q, r')
  {
    hide Pack, Segmentation;
    var p :| Backs(q, r, p);
    VecsFrame(r'.bios, r.bios);
    assert Backs(q, r', p);
  }

  /** A refusal may come after the sizes at the seam were raised: they still bound the segments. */
  lemma RefusedIsSound(q: Limits, r: Req, next: Req)
    requires Sound(q, r) && Sound(q, next)
    ensures var j := MergeRequests(q, r, next); !j.ok ==> Sound(q, j.r) && Sound(q, j.next)
  {
    hide Pack, Segmentation, Backs, Vecs, ContigSegment, Sectors;
    var j := MergeRequests(q, r, next);
    if !j.ok {
      if r.nr == 1 { SingleSegment(q, r, j.r); }
      if next.nr == 1 { SingleSegment(q, next, j.next); }
    }
  }

  lemma MergeRequestsIsSound(q: Limits, r: Req, next: Req)
    requires Sound(q, r) && Sound(q, next)
    ensures var j := MergeRequests(q, r, next);
            && Sound(q, j.r) && (!j.ok ==> Sound(q, j.next))
            && Vecs(j.r.bios) == if j.ok then Vecs(r.bios) + Vecs(next.bios) else Vecs(r.bios)
  {
    hide Pack, Segmentation, Backs, Vecs, ContigSegment, Sectors;
    var j := MergeRequests(q, r, next);
    VecsConcat(r.bios, next.bios);
    VecsFrame(j.r.bios, if j.ok then r.bios + next.bios else r.bios);
    if !j.ok {
      RefusedIsSound(q, r, next);
    } else if ContigSegment(q, Last(r.bios), next.bios[0]) {
      WeldIsSound(q, r, next, j.r);
      hide Sound;
    } else {
      ChainIsSound(q, r, next, j.r);
      hide Sound;
    }
  }

  // ---- Runs ----

  datatype Op =
    | New(bio: Bio, pc: bool, direct: bool)
    | Back(i: nat, bio: Bio, last: Option<bool>)
    | Ahead(i: nat, bio: Bio, last: Option<bool>)
    | Both(i: nat, j: nat)

  /** Submitted bios have data, current counts and fit the device on their own. */
  ghost predicate Submitted(q: Limits, op: Op) {
    match op
    case New(bio, _, _) => Accurate(q, bio) && Fits(q, bio)
    case Back(_, bio, _) => Accurate(q, bio)
    case Ahead(_, bio, _) => Accurate(q, bio)
    case Both(_, _) => true
  }

  function Remove(pool: seq<Req>, j: nat): (pool': seq<Req>)
    requires j < |pool|
  {
    pool[..j] + pool[j + 1..]
  }

  /** One operation on the requests of a queue. */
  function Apply(q: Limits, pool: seq<Req>, op: Op): (pool': seq<Req>)
    requires forall k :: 0 <= k < |pool| ==> pool[k].bios != []
  {
    match op
    case New(bio, pc, direct) =>
      var b := Counted(q, bio);
      pool + [Req([b], b.phys, false, false, pc, direct)]
    case Back(i, bio, last) => if i < |pool| then pool[i := BackMerge(q, pool[i], bio, last).r] else pool
    case Ahead(i, bio, last) => if i < |pool| then pool[i := FrontMerge(q, pool[i], bio, last).r] else pool
    case Both(i, j) =>
      if i < |pool| && j < |pool| && i != j then
        var m := MergeRequests(q, pool[i], pool[j]);
        if m.ok then Remove(pool[i := m.r], j) else pool[i := m.r][j := m.next]
      else pool
  }

  ghost predicate AllSound(q: Limits, pool: seq<Req>) { forall k :: 0 <= k < |pool| ==> Sound(q, pool[k]) }

  lemma PoolChanges(q: Limits, pool: seq<Req>, i: nat, r: Req)
    requires AllSound(q, pool) && Sound(q, r)
    ensures AllSound(q, pool + [r]) && (i < |pool| ==> AllSound(q, pool[i := r]) && AllSound(q, Remove(pool, i)))
  {
    hide Sound;
  }

  lemma ApplyIsSound(q: Limits, pool: seq<Req>, op: Op)
    requires AllSound(q, pool) && Submitted(q, op)
    ensures (forall k :: 0 <= k < |pool| ==> pool[k].bios != []) && AllSound(q, Apply(q, pool, op))
  {
    SoundIsNonEmpty(q, pool);
    hide Sound, BackMerge, FrontMerge, MergeRequests, Accurate, Pack, Counted, Remove, Fits;
    match op
    case New(bio, pc, direct) =>
      NewIsSound(q, bio, pc, direct);
      PoolChanges(q, pool, 0, Req([Counted(q, bio)], Counted(q, bio).phys, false, false, pc, direct));
    case Back(i, bio, last) =>
      if i < |pool| {
        BackMergeIsSound(q, pool[i], bio, last);
        PoolChanges(q, pool, i, BackMerge(q, pool[i], bio, last).r);
      }
    case Ahead(i, bio, last) =>
      if i < |pool| {
        FrontMergeIsSound(q, pool[i], bio, last);
        PoolChanges(q, pool, i, FrontMerge(q, pool[i], bio, last).r);
      }
    case Both(i, j) =>
      if i < |pool| && j < |pool| && i != j {
        MergeRequestsIsSound(q, pool[i], pool[j]);
        var m := MergeRequests(q, pool[i], pool[j]);
        PoolChanges(q, pool, i, m.r);
        PoolChanges(q, pool[i := m.r], j, if m.ok then m.r else m.next);
      }
  }

  lemma SoundIsNonEmpty(q: Limits, pool: seq<Req>)
    requires AllSound(q, pool)
    ensures forall k :: 0 <= k < |pool| ==> pool[k].bios != []
  {
  }

  lemma NewIsSound(q: Limits, bio: Bio, pc: bool, direct: bool)
    requires Accurate(q, bio) && Fits(q, bio)
    ensures var b := Counted(q, bio); Sound(q, Req([b], b.phys, false, false, pc, direct))
  {
    RecountIsAccurate(q, bio);
    var b := Counted(q, bio);
    BioIsSound(q, b, Req([b], b.phys, false, false, pc, direct));
  }

  ghost function Run(q: Limits, ops: seq<Op>): (pool: seq<Req>)
    requires forall k :: 0 <= k < |ops| ==> Submitted(q, ops[k])
    ensures AllSound(q, pool)
  {
    if ops == [] then []
    else
      var pool := Run(q, Front(ops));
      SoundIsNonEmpty(q, pool);
      ApplyIsSound(q, pool, Last(ops));
      Apply(q, pool, Last(ops))
  }

  /**
   After any sequence of submissions and merges, the scatterlist of every request fits both
   the request's own count and the device, and transfers exactly the request's bytes.
   */
  lemma ScatterlistFitsEveryRun(q: Limits, ops: seq<Op>, k: nat)
    requires (forall i :: 0 <= i < |ops| ==> Submitted(q, ops[i])) && k < |Run(q, ops)|
    ensures var r := Run(q, ops)[k];
            var p := Pack(q, Vecs(r.bios), false);
            && |Entries(p)| <= r.nr <= q.maxSegments
            && EntryBytes(Entries(p)) == VecBytes(Vecs(r.bios))
  {
    var r := Run(q, ops)[k];
    var vs := Vecs(r.bios);
    SoundCountsSuffice(q, r);
    PackIsSegmentation(q, vs, false);
    EntriesCoverBytes(q, Pack(q, vs, false), vs);
  }

  // ---- The code as it runs ----

  lemma PackStep(q: Limits, vs: seq<Vec>, v: Vec, bounce: bool)
    ensures Pack(q, vs + [v], bounce) == Push(q, Pack(q, vs, bounce), v, bounce)
  {
    assert Front(vs + [v]) == vs;
  }

  lemma VecsStep(bios: seq<Bio>, i: nat)
    requires i < |bios|
    ensures Vecs(bios[..i + 1]) == Vecs(bios[..i]) + bios[i].vecs
  {
    assert Front(bios[..i + 1]) == bios[..i];
  }

  lemma SizeOne(v: Vec)
    ensures Size([v]) == v.len
  {
    assert [v][..0] == [];
  }

  /** What the counting loop remembers of the packing so far. */
  datatype Walk = Walk(segs: nat, segSize: nat, frontSize: nat, highPrev: bool, prev: Vec)

  ghost predicate Walked(p: seq<seq<Vec>>, w: Walk, front: nat)
    requires NoEmpty(p)
  {
    && w.segs == |p|
    && (p == [] ==> w.highPrev && w.frontSize == front)
    && (p != [] ==> && w.segSize == Size(Last(p)) && w.prev == Last(Last(p)) && w.highPrev == Last(p)[0].high
                    && w.frontSize == if |p| == 1 then front else Max(front, Size(p[0])))
  }

  /** One vector in the loop of __blk_recalc_rq_segments. */
  function CountStep(q: Limits, w: Walk, v: Vec): (w': Walk) {
    if !v.high && !w.highPrev && q.cluster && w.segSize + v.len <= q.maxSegmentSize && Joinable(q, w.prev, v) then
      w.(segSize := w.segSize + v.len, prev := v)
    else
      Walk(w.segs + 1, v.len, if w.segs == 1 && w.segSize > w.frontSize then w.segSize else w.frontSize, v.high, v)
  }

  lemma CountStepIsPush(q: Limits, p: seq<seq<Vec>>, w: Walk, v: Vec, front: nat)
    requires NoEmpty(p) && Walked(p, w, front)
    ensures Walked(Push(q, p, v, true), CountStep(q, w, v), front)
  {
    hide Joinable;
    SizeOne(v);
    if p != [] { SizeAppend(Last(p), v); }
    var p' := Push(q, p, v, true);
    assert p' != [] && Last(p') == if p != [] && Joins(q, Last(p), v, true) then Last(p) + [v] else [v];
  }

  /** One vector in the loop of blk_rq_map_sg. */
  function MapStep(q: Limits, sg: seq<Entry>, prev: Vec, v: Vec): (sg': seq<Entry>) {
    if sg != [] && q.cluster && Last(sg).len + v.len <= q.maxSegmentSize && Joinable(q, prev, v) then
      sg[|sg| - 1 := Last(sg).(len := Last(sg).len + v.len)]
    else sg + [Entry(v.phys, v.len)]
  }

  lemma MapStepIsPush(q: Limits, p: seq<seq<Vec>>, prev: Vec, v: Vec)
    requires NoEmpty(p) && (p != [] ==> prev == Last(Last(p)))
    ensures Entries(Push(q, p, v, false)) == MapStep(q, Entries(p), prev, v)
    ensures Last(Last(Push(q, p, v, false))) == v
  {
    hide Joinable;
    SizeOne(v);
    if p != [] { SizeAppend(Last(p), v); }
  }

  ghost predicate Mapped(q: Limits, vs: seq<Vec>, sg: seq<Entry>, prev: Vec) {
    var p := Pack(q, vs, false);
    sg == Entries(p) && (p != [] ==> prev == Last(Last(p)))
  }

  lemma MappedStep(q: Limits, vs: seq<Vec>, sg: seq<Entry>, prev: Vec, v: Vec)
    requires Mapped(q, vs, sg, prev)
    ensures Mapped(q, vs + [v], MapStep(q, sg, prev, v), v)
  {
    PackStep(q, vs, v, false);
    MapStepIsPush(q, Pack(q, vs, false), prev, v);
  }

  lemma StartOfWalk(q: Limits, w: Walk, front: nat)
    requires w.segs == 0 && w.highPrev && w.frontSize == front
    ensures Walked(Pack(q, [], true), w, front)
  {
  }

  /** After the loop the remembered sizes are those of the first and the last segment. */
  lemma EndOfWalk(q: Limits, bios: seq<Bio>, w: Walk)
    requires bios != [] && (forall i :: 0 <= i < |bios| ==> bios[i].vecs != [])
    requires Walked(Pack(q, Vecs(bios), true), w, bios[0].front)
    ensures var p := Pack(q, Vecs(bios), true);
            && p != [] && w.segs == |p| && w.segSize == Size(Last(p))
            && Max(bios[0].front, Size(p[0])) ==
                 if w.segs == 1 && w.segSize > w.frontSize then w.segSize else w.frontSize
  {
    assert Vecs(bios) != [];
  }

  /** The loops of __blk_recalc_rq_segments over the vectors of a chain of bios. */
  method CountChain(q: Limits, chain: seq<seq<Vec>>, front: nat) returns (w: Walk)
    requires chain != [] && NoEmpty(chain)
    ensures Walked(Pack(q, Flatten(chain), true), w, front)
  {
    hide Pack, CountStep, Walked;
    w := Walk(0, 0, front, true, chain[0][0]);
    StartOfWalk(q, w, front);
    assert Flatten(chain[..0]) == [];
    for i := 0 to |chain|
      invariant Walked(Pack(q, Flatten(chain[..i]), true), w, front)
    {
      var vecs := chain[i];
      ghost var before := Flatten(chain[..i]);
      assert before + vecs[..0] == before;
      for j := 0 to |vecs|
        invariant Walked(Pack(q, before + vecs[..j], true), w, front)
      {
        var v := vecs[j];
        assert before + vecs[..j + 1] == (before + vecs[..j]) + [v];
        PackStep(q, before + vecs[..j], v, true);
        CountStepIsPush(q, Pack(q, before + vecs[..j], true), w, v, front);
        w := CountStep(q, w, v);
      }
      assert vecs[..|vecs|] == vecs;
      assert Front(chain[..i + 1]) == chain[..i];
    }
    assert chain[..|chain|] == chain;
  }

  lemma {:induction false} ChainVecs(bios: seq<Bio>)
    ensures Flatten(Chain(bios)) == Vecs(bios)
  {
    if bios != [] {
      ChainVecs(Front(bios));
      assert Front(Chain(bios)) == Chain(Front(bios));
    }
  }

  function Chain(bios: seq<Bio>): (chain: seq<seq<Vec>>)
    ensures |chain| == |bios| && forall i :: 0 <= i < |bios| ==> chain[i] == bios[i].vecs
  {
    seq(|bios|, i requires 0 <= i < |bios| => bios[i].vecs)
  }

  class Request {
    var bios: seq<Bio>
    var nr: int
    var noMerge: bool
    var special: bool
    var pc: bool
    var direct: bool

    ghost function View(): (r: Req)
      reads this
    {
      Req(bios, nr, noMerge, special, pc, direct)
    }

    /** __blk_recalc_rq_segments: walk all vectors of all bios with the running segment size. */
    method RecalcSegments(q: Limits)
      requires bios != [] && forall i :: 0 <= i < |bios| ==> bios[i].vecs != []
      modifies this
      ensures (nr, bios) == Recalc(q, old(bios))
      ensures noMerge == old(noMerge) && special == old(special) && pc == old(pc) && direct == old(direct)
    {
      hide Pack, Walked, Flatten;
      ChainVecs(bios);
      var w := CountChain(q, Chain(bios), bios[0].front);
      var frontSize := if w.segs == 1 && w.segSize > w.frontSize then w.segSize else w.frontSize;
      EndOfWalk(q, bios, w);
      bios := bios[0 := bios[0].(front := frontSize)];
      var tail := bios[|bios| - 1];
      if w.segSize > tail.back { bios := bios[|bios| - 1 := tail.(back := w.segSize)]; }
      nr := w.segs;
      ghost var p := Pack(q, Vecs(old(bios)), true);
      assert bios == RaiseBack(RaiseFront(old(bios), Size(p[0])), Size(Last(p)));
    }

    /** blk_rq_map_sg up to the padding and drain entries. */
    method MapSg(q: Limits) returns (sg: seq<Entry>)
      ensures sg == Entries(Pack(q, Vecs(bios), false))
    {
      hide Entries, MapStep, Push;
      sg := [];
      assert Entries(Pack(q, Vecs(bios[..0]), false)) == [] by { assert Vecs(bios[..0]) == []; }
      var prev: Vec := Vec(0, 0, false);
      for i := 0 to |bios|
        invariant Mapped(q, Vecs(bios[..i]), sg, prev)
      {
        var vecs := bios[i].vecs;
        ghost var before := Vecs(bios[..i]);
        assert before + vecs[..0] == before;
        for j := 0 to |vecs|
          invariant Mapped(q, before + vecs[..j], sg, prev)
        {
          var v := vecs[j];
          assert before + vecs[..j + 1] == (before + vecs[..j]) + [v];
          MappedStep(q, before + vecs[..j], sg, prev, v);
          sg := MapStep(q, sg, prev, v);
          prev := v;
        }
        assert vecs[..|vecs|] == vecs;
        VecsStep(bios, i);
      }
      assert bios[..|bios|] == bios;
    }

    /** ll_back_merge_fn counts the segments of the last bio if that is not done yet. */
    method CountTail(q: Limits)
      requires bios != []
      modifies `bios
      ensures bios == Front(old(bios)) + [Counted(q, Last(old(bios)))]
    {
      var tail := bios[|bios| - 1];
      if !tail.segValid { bios := bios[|bios| - 1 := Recount(q, tail)]; }
    }

    /** __make_request, back merge */
    method TryBackMerge(q: Limits, bio: Bio, last: Option<bool>) returns (ok: bool)
      requires bios != []
      modifies `bios, `nr, `noMerge
      ensures var m := BackMerge(q, old(View()), bio, last); View() == m.r && ok == m.ok
      ensures ok <==>
                && (!pc ==> Sectors(old(bios)) + bio.sectors <= q.maxSectors)
                && (pc ==> Sectors(old(bios)) + bio.sectors <= q.maxHwSectors)
                && old(nr) + Counted(q, bio).phys <= q.maxSegments
                && (last.None? || last.value == direct)
      ensures !ok ==> noMerge && nr == old(nr)
    {
      hide Sectors, Recount;
      if Sectors(bios) + bio.sectors > (if pc then q.maxHwSectors else q.maxSectors) {
        noMerge := true;
        return false;
      }
      CountTail(q);
      var b := if bio.segValid then bio else Recount(q, bio);
      assert b == Counted(q, bio);
      hide Counted;
      ok := NewSegment(q, b.phys, last);
      if ok { bios := bios + [b]; }
    }

    /** ll_new_hw_segment */
    method NewSegment(q: Limits, phys: nat, last: Option<bool>) returns (ok: bool)
      modifies `nr, `noMerge
      ensures ok <==> old(nr) + phys <= q.maxSegments && (last.None? || last.value == direct)
      ensures ok ==> nr == old(nr) + phys && noMerge == old(noMerge)
      ensures !ok ==> nr == old(nr) && noMerge
    {
      if nr + phys > q.maxSegments {
        noMerge := true;
        return false;
      }
      if last.Some? && last.value != direct {
        noMerge := true;
        return false;
      }
      nr := nr + phys;
      return true;
    }

    /** ll_merge_requests_fn: on success this request takes over the bios of the next one */
    method TryMergeRequests(q: Limits, next: Request) returns (ok: bool)
      requires bios != [] && next.bios != [] && next != this
      modifies this, next
      ensures var j := MergeRequests(q, old(View()), old(next.View()));
              View() == j.r && next.View() == j.next && ok == j.ok
    {
      if special || next.special { return false; }
      if direct != next.direct { return false; }
      if Sectors(bios) + Sectors(next.bios) > q.maxSectors { return false; }
      var size := bios[|bios| - 1].back + next.bios[0].front;
      var total := nr + next.nr;
      if ContigSegment(q, bios[|bios| - 1], next.bios[0]) {
        if nr == 1 { bios := bios[0 := bios[0].(front := size)]; }
        if next.nr == 1 { next.bios := next.bios[|next.bios| - 1 := next.bios[|next.bios| - 1].(back := size)]; }
        total := total - 1;
      }
      if total > q.maxSegments { return false; }
      nr := total;
      bios := bios + next.bios;
      return true;
    }
  }
}
