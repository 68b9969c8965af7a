/**
 Physical segments of a request: blk-merge.c.

 A request's vectors are packed into segments greedily.  Merging adds up counts that were
 computed for the parts, which is cheap but never recounts.  The scatterlist built later
 recounts from scratch; it must fit the sum.
 */
module Segments {

  /** A bio_vec: physical address, length, and whether its page lies above the bounce limit. */
  datatype Vec = Vec(phys: nat, len: nat, high: bool)

  datatype Limits = Limits(cluster: bool, maxSegmentSize: nat, boundaryMask: nat, maxSegments: nat,
                           maxSectors: nat, maxHwSectors: nat)

  function BitOr(a: nat, b: nat): (r: nat)
    decreases a
  {
    if a == 0 then b
    else 2 * BitOr(a / 2, b / 2) + (if a % 2 == 1 || b % 2 == 1 then 1 else 0)
  }

  /** BIOVEC_PHYS_MERGEABLE */
  predicate Contiguous(a: Vec, b: Vec) { a.phys + a.len == b.phys }

  /** BIOVEC_SEG_BOUNDARY */
  predicate SameWindow(q: Limits, a: Vec, b: Vec) {
    var end := b.phys + b.len;
    end > 0 && BitOr(a.phys, q.boundaryMask) == BitOr(end - 1, q.boundaryMask)
  }

  predicate Joinable(q: Limits, a: Vec, b: Vec) { Contiguous(a, b) && SameWindow(q, a, b) }

  function Size(vs: seq<Vec>): (n: nat) {
    if vs == [] then 0 else Size(vs[..|vs| - 1]) + vs[|vs| - 1].len
  }

  function Last<T>(s: seq<T>): (x: T)
    requires s != []
  {
    s[|s| - 1]
  }

  function Front<T>(s: seq<T>): (x: seq<T>)
    requires s != []
  {
    s[..|s| - 1]
  }

  /** What the hardware accepts as one segment. */
  ghost predicate ValidSegment(q: Limits, seg: seq<Vec>) {
    && seg != []
    && (|seg| > 1 ==> q.cluster && Size(seg) <= q.maxSegmentSize)
    && (forall i :: 0 < i < |seg| ==> Joinable(q, seg[i - 1], seg[i]))
  }

  function Flatten(p: seq<seq<Vec>>): (vs: seq<Vec>) {
    if p == [] then [] else Flatten(Front(p)) + Last(p)
  }

  /** A division of vs into segments the hardware accepts. */
  ghost predicate Segmentation(q: Limits, p: seq<seq<Vec>>, vs: seq<Vec>) {
    && Flatten(p) == vs
    && (forall i :: 0 <= i < |p| ==> ValidSegment(q, p[i]))
  }

  /** Whether v goes into the open segment; `bounce` keeps high pages apart, as counting does. */
  predicate Joins(q: Limits, seg: seq<Vec>, v: Vec, bounce: bool)
    requires seg != []
  {
    && !(bounce && (v.high || seg[0].high))
    && q.cluster && Size(seg) + v.len <= q.maxSegmentSize && Joinable(q, Last(seg), v)
  }

  predicate NoEmpty(p: seq<seq<Vec>>) { forall i :: 0 <= i < |p| ==> p[i] != [] }

  function Push(q: Limits, p: seq<seq<Vec>>, v: Vec, bounce: bool): (p': seq<seq<Vec>>)
    requires NoEmpty(p)
    ensures NoEmpty(p')
  {
    if p != [] && Joins(q, Last(p), v, bounce) then Front(p) + [Last(p) + [v]] else p + [[v]]
  }

  /** The packing both loops of blk-merge.c produce. */
  function Pack(q: Limits, vs: seq<Vec>, bounce: bool): (p: seq<seq<Vec>>)
    ensures NoEmpty(p)
  {
    if vs == [] then [] else Push(q, Pack(q, Front(vs), bounce), Last(vs), bounce)
  }

  lemma SizeAppend(s: seq<Vec>, v: Vec)
    ensures Size(s + [v]) == Size(s) + v.len
  {
    assert (s + [v])[..|s|] == s;
  }

  lemma {:induction false} SizeConcat(s: seq<Vec>, t: seq<Vec>)
    ensures Size(s + t) == Size(s) + Size(t)
  {
    if t == [] {
      assert s + t == s;
    } else {
      assert (s + t)[..|s + t| - 1] == s + t[..|t| - 1];
      SizeConcat(s, t[..|t| - 1]);
    }
  }

  lemma SubrunSize(seg: seq<Vec>, i: nat, j: nat)
    requires i <= j <= |seg|
    ensures Size(seg[i..j]) <= Size(seg)
  {
    SizeConcat(seg[..i], seg[i..j]);
    SizeConcat(seg[..j], seg[j..]);
    assert seg[..i] + seg[i..j] == seg[..j] && seg[..j] + seg[j..] == seg;
  }

  /** Any run inside an acceptable segment is acceptable. */
  lemma SubrunIsValid(q: Limits, seg: seq<Vec>, i: nat, j: nat)
    requires ValidSegment(q, seg) && i < j <= |seg|
    ensures ValidSegment(q, seg[i..j])
  {
    hide Size, Joinable;
    SubrunSize(seg, i, j);
    var run := seg[i..j];
    forall k | 0 < k < |run| ensures Joinable(q, run[k - 1], run[k]) {
      assert Joinable(q, seg[i + k - 1], seg[i + k]);
    }
  }

  lemma {:induction false} FlattenConcat(p: seq<seq<Vec>>, r: seq<seq<Vec>>)
    ensures Flatten(p + r) == Flatten(p) + Flatten(r)
  {
    if r == [] {
      assert p + r == p;
    } else {
      FlattenConcat(p, Front(r));
      calc {
        Flatten(p + r);
        { assert Front(p + r) == p + Front(r) && Last(p + r) == Last(r); }
        Flatten(p + Front(r)) + Last(r);
        (Flatten(p) + Flatten(Front(r))) + Last(r);
        Flatten(p) + (Flatten(Front(r)) + Last(r));
      }
    }
  }

  lemma JoinedIsValid(q: Limits, seg: seq<Vec>, v: Vec, bounce: bool)
    requires seg != [] && ValidSegment(q, seg) && Joins(q, seg, v, bounce)
    ensures ValidSegment(q, seg + [v])
  {
    SizeAppend(seg, v);
    hide Size, Joinable;
  }

  lemma PushIsSegmentation(q: Limits, p: seq<seq<Vec>>, vs: seq<Vec>, v: Vec, bounce: bool)
    requires Segmentation(q, p, vs)
    ensures Segmentation(q, Push(q, p, v, bounce), vs + [v])
  {
    var p' := Push(q, p, v, bounce);
    if p != [] && Joins(q, Last(p), v, bounce) {
      assert Front(p') == Front(p) && Last(p') == Last(p) + [v];
      assert ValidSegment(q, Last(p));
      JoinedIsValid(q, Last(p), v, bounce);
      hide ValidSegment, Joins;
      assert Flatten(p') == Flatten(Front(p)) + (Last(p) + [v]);
    } else {
      assert Front(p') == p && Last(p') == [v];
      hide Joins, Size;
    }
  }

  /** A page that has to be bounced is a segment by itself. */
  ghost predicate LowOrAlone(seg: seq<Vec>) {
    |seg| == 1 || forall i :: 0 <= i < |seg| ==> !seg[i].high
  }

  ghost predicate AllLowOrAlone(p: seq<seq<Vec>>) { forall i :: 0 <= i < |p| ==> LowOrAlone(p[i]) }

  lemma PushAlone(q: Limits, p: seq<seq<Vec>>, v: Vec)
    requires NoEmpty(p) && AllLowOrAlone(p)
    ensures AllLowOrAlone(Push(q, p, v, true))
  {
    hide Size, Joinable;
    if p != [] && Joins(q, Last(p), v, true) {
      assert LowOrAlone(Last(p));
      assert LowOrAlone(Last(p) + [v]);
    } else {
      assert LowOrAlone([v]);
    }
  }

  /** Counting keeps pages above the bounce limit apart. */
  lemma {:induction false} BouncedAlone(q: Limits, vs: seq<Vec>)
    ensures AllLowOrAlone(Pack(q, vs, true))
  {
    if vs != [] {
      BouncedAlone(q, Front(vs));
      hide AllLowOrAlone, Push;
      PushAlone(q, Pack(q, Front(vs), true), Last(vs));
    }
  }


  /** The loops of blk-merge.c produce acceptable segments and lose nothing. */
  lemma {:induction false} PackIsSegmentation(q: Limits, vs: seq<Vec>, bounce: bool)
    ensures Segmentation(q, Pack(q, vs, bounce), vs)
  {
    if vs != [] {
      PackIsSegmentation(q, Front(vs), bounce);
      PushIsSegmentation(q, Pack(q, Front(vs), bounce), Front(vs), Last(vs), bounce);
      assert Front(vs) + [Last(vs)] == vs;
    }
  }

  /** How far the greedy packing g is ahead of another segmentation p of the same vectors. */
  ghost predicate Ahead(g: seq<seq<Vec>>, p: seq<seq<Vec>>) {
    || |g| < |p|
    || (|g| == |p| && (g != [] ==> |Last(g)| <= |Last(p)|))
  }

  /** A segmentation without its last vector. */
  function Shrink(p: seq<seq<Vec>>): (p': seq<seq<Vec>>)
    requires p != [] && Last(p) != []
  {
    if |Last(p)| == 1 then Front(p) else Front(p) + [Front(Last(p))]
  }

  lemma ShrinkIsSegmentation(q: Limits, p: seq<seq<Vec>>, vs: seq<Vec>)
    requires Segmentation(q, p, vs) && vs != []
    ensures p != [] && Last(p) != [] && Last(Last(p)) == Last(vs)
    ensures Segmentation(q, Shrink(p), Front(vs))
  {
    var p' := Shrink(p);
    assert ValidSegment(q, Last(p));
    assert vs == Flatten(Front(p)) + Last(p);
    if |Last(p)| == 1 {
      assert Front(vs) == Flatten(Front(p));
    } else {
      SubrunIsValid(q, Last(p), 0, |Last(p)| - 1);
      assert Front(p') == Front(p) && Last(p') == Front(Last(p));
      assert Front(vs) == Flatten(Front(p)) + Front(Last(p));
    }
  }

  /** If greedy's open segment is no longer than the other's, it can take what the other took. */
  lemma TakesToo(q: Limits, g: seq<Vec>, seg: seq<Vec>, vs: seq<Vec>)
    requires ValidSegment(q, seg) && |seg| > 1 && g != [] && |g| < |seg| <= |vs|
    requires vs[|vs| - |seg|..] == seg && g == vs[|vs| - 1 - |g|..|vs| - 1]
    ensures Joins(q, g, Last(vs), false)
  {
    var k := |seg| - 1 - |g|;
    SubrunIsValid(q, seg, k, |seg|);
    var t := seg[k..|seg|];
    assert t == g + [Last(vs)];
    SizeAppend(g, Last(vs));
    assert Joinable(q, t[|g| - 1], t[|g|]);
  }

  lemma LastIsSuffix(p: seq<seq<Vec>>)
    requires p != []
    ensures |Last(p)| <= |Flatten(p)| && Flatten(p)[|Flatten(p)| - |Last(p)|..] == Last(p)
  {
  }

  /** One vector more: greedy stays ahead of a segmentation whose open segment takes the vector or not. */
  lemma StaysAhead(q: Limits, vs: seq<Vec>, g: seq<seq<Vec>>, p: seq<seq<Vec>>)
    requires vs != [] && Segmentation(q, p, vs) && Segmentation(q, g, Front(vs)) && NoEmpty(g)
    requires p != [] && Last(p) != [] && Ahead(g, Shrink(p))
    ensures Ahead(Push(q, g, Last(vs), false), p)
  {
    hide Joins;
    if |Last(p)| > 1 && |g| == |p| {
      LastIsSuffix(p);
      LastIsSuffix(g);
      assert ValidSegment(q, Last(p));
      hide Flatten, Segmentation, ValidSegment;
      TakesToo(q, Last(g), Last(p), vs);
    } else {
      hide Flatten, Segmentation, ValidSegment;
    }
  }

  /** Greedy stays ahead of every other segmentation, vector by vector. */
  lemma {:induction false} GreedyStaysAhead(q: Limits, vs: seq<Vec>, p: seq<seq<Vec>>)
    requires Segmentation(q, p, vs)
    ensures Ahead(Pack(q, vs, false), p)
    decreases |vs|
  {
    if vs != [] {
      ShrinkIsSegmentation(q, p, vs);
      var g := Pack(q, Front(vs), false);
      GreedyStaysAhead(q, Front(vs), Shrink(p));
      PackIsSegmentation(q, Front(vs), false);
      StaysAhead(q, vs, g, p);
      hide Segmentation, Shrink, Ahead;
    }
  }

  /** Greedy packing is minimal among all segmentations. */
  lemma GreedyIsMinimal(q: Limits, vs: seq<Vec>, p: seq<seq<Vec>>)
    requires Segmentation(q, p, vs)
    ensures |Pack(q, vs, false)| <= |p|
  {
    GreedyStaysAhead(q, vs, p);
  }

  // ---- Scatterlist entries ----

  datatype Entry = Entry(phys: nat, len: nat)

  /** The entry blk_rq_map_sg fills in for a segment. */
  function EntryOf(seg: seq<Vec>): (e: Entry)
    requires seg != []
  {
    Entry(seg[0].phys, Size(seg))
  }

  function Entries(p: seq<seq<Vec>>): (es: seq<Entry>)
    requires NoEmpty(p)
    ensures |es| == |p|
  {
    seq(|p|, i requires 0 <= i < |p| => EntryOf(p[i]))
  }

  /** The addresses of the bytes of a range, in order. */
  function Range(phys: nat, len: nat): (bs: seq<nat>) {
    seq(len, i => phys + i)
  }

  function VecBytes(vs: seq<Vec>): (bs: seq<nat>) {
    if vs == [] then [] else VecBytes(Front(vs)) + Range(Last(vs).phys, Last(vs).len)
  }

  function EntryBytes(es: seq<Entry>): (bs: seq<nat>) {
    if es == [] then [] else EntryBytes(Front(es)) + Range(Last(es).phys, Last(es).len)
  }

  /** The vectors of a segment lie one behind the other in memory. */
  lemma {:induction false} SegmentIsRange(q: Limits, seg: seq<Vec>)
    requires ValidSegment(q, seg)
    ensures VecBytes(seg) == Range(seg[0].phys, Size(seg))
    ensures Last(seg).phys + Last(seg).len == seg[0].phys + Size(seg)
  {
    hide Range, SameWindow;
    if |seg| == 1 {
      assert Front(seg) == [];
      assert VecBytes(seg) == VecBytes([]) + Range(seg[0].phys, seg[0].len);
      assert Size(seg) == Size([]) + seg[0].len;
    } else {
      SubrunIsValid(q, seg, 0, |seg| - 1);
      assert seg[0..|seg| - 1] == Front(seg);
      SegmentIsRange(q, Front(seg));
      assert Joinable(q, seg[|seg| - 2], seg[|seg| - 1]);
      RangeSplit(seg[0].phys, Size(Front(seg)), Last(seg).len);
    }
  }

  lemma RangeSplit(phys: nat, m: nat, n: nat)
    ensures Range(phys, m + n) == Range(phys, m) + Range(phys + m, n)
  {
  }

  lemma {:induction false} VecBytesConcat(s: seq<Vec>, t: seq<Vec>)
    ensures VecBytes(s + t) == VecBytes(s) + VecBytes(t)
  {
    if t == [] {
      assert s + t == s;
    } else {
      VecBytesConcat(s, Front(t));
      var tail := Range(Last(t).phys, Last(t).len);
      calc {
        VecBytes(s + t);
        { assert Front(s + t) == s + Front(t) && Last(s + t) == Last(t); }
        VecBytes(s + Front(t)) + tail;
        (VecBytes(s) + VecBytes(Front(t))) + tail;
        VecBytes(s) + (VecBytes(Front(t)) + tail);
      }
    }
  }

  /** A scatterlist made from a segmentation transfers exactly the bytes of the vectors, in order. */
  lemma {:induction false} EntriesCoverBytes(q: Limits, p: seq<seq<Vec>>, vs: seq<Vec>)
    requires Segmentation(q, p, vs) && NoEmpty(p)
    ensures EntryBytes(Entries(p)) == VecBytes(vs)
    decreases |p|
  {
    hide ValidSegment, Range, Size;
    if p != [] {
      assert ValidSegment(q, Last(p)) && vs == Flatten(Front(p)) + Last(p);
      assert Segmentation(q, Front(p), Flatten(Front(p)));
      hide Segmentation, Flatten;
      EntriesCoverBytes(q, Front(p), Flatten(Front(p)));
      SegmentIsRange(q, Last(p));
      VecBytesConcat(Flatten(Front(p)), Last(p));
      hide VecBytes;
      assert Front(Entries(p)) == Entries(Front(p));
    }
  }
}
