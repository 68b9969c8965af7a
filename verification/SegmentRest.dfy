/**
 What a partial completion does to the segments of a request: the vectors that remain are recounted
 from scratch, and for the masks devices have, they never need more scatterlist entries than before.
 */
module SegmentRest {
  import opened Segments
  import opened SegmentWindow
  import C = BioChain

  /** The vectors of a chain of bios. */
  function Vectors(bios: seq<C.Bio>): (vs: seq<Vec>) {
    if bios == [] then [] else bios[0].vecs + Vectors(bios[1..])
  }

  function Chain(bios: seq<C.Bio>): (chain: seq<seq<Vec>>)
    ensures |chain| == |bios| && forall i :: 0 <= i < |bios| ==> chain[i] == bios[i].vecs
  {
    seq(|bios|, i requires 0 <= i < |bios| => bios[i].vecs)
  }

  lemma {:induction false} ChainVectors(bios: seq<C.Bio>)
    ensures Flatten(Chain(bios)) == Vectors(bios)
  {
    if bios != [] {
      ChainVectors(bios[1..]);
      assert Chain(bios) == [bios[0].vecs] + Chain(bios[1..]);
      FlattenHead(bios[0].vecs, Chain(bios[1..]));
    }
  }

  lemma FlattenHead(s: seq<Vec>, p: seq<seq<Vec>>)
    ensures Flatten([s] + p) == s + Flatten(p)
  {
    FlattenConcat([s], p);
    assert Front([s]) == [] && Flatten([s]) == Flatten([]) + s;
  }

  // ----- completing bytes is trimming vectors -----

  lemma {:induction false} TrimConcat(a: seq<Vec>, b: seq<Vec>, n: nat)
    requires C.VecsOk(a)
    ensures C.TrimVecs(a + b, n) ==
            if n < C.Lens(a) then C.TrimVecs(a, n) + b else C.TrimVecs(b, n - C.Lens(a))
  {
    if a == [] {
      assert a + b == b;
    } else {
      assert (a + b)[1..] == a[1..] + b;
      if n >= a[0].len {
        TrimConcat(a[1..], b, n - a[0].len);
      } else if n > 0 {
        assert [C.Cut(a[0], n)] + (a[1..] + b) == ([C.Cut(a[0], n)] + a[1..]) + b;
      }
    }
  }

  /** The vectors of what remains are those of the request without the bytes completed. */
  lemma {:induction false} AdvanceVectors(bios: seq<C.Bio>, n: nat, error: int)
    requires C.BiosOk(bios)
    ensures Vectors(C.Advance(bios, n, error)) == C.TrimVecs(Vectors(bios), n)
  {
    if bios != [] {
      var b := bios[0];
      assert C.BioOk(b);
      TrimConcat(b.vecs, Vectors(bios[1..]), n);
      if n >= b.size {
        AdvanceVectors(bios[1..], n - b.size, error);
      } else {
        var r := [C.Trim(b, n, error)] + bios[1..];
        assert r[0].vecs == C.TrimVecs(b.vecs, n) && r[1..] == bios[1..];
      }
    }
  }

  // ----- fewer bytes, no more segments -----

  /** The first segment of a segmentation begins with the first vector. */
  lemma FirstSegment(q: Limits, p: seq<seq<Vec>>, vs: seq<Vec>)
    requires Segmentation(q, p, vs) && vs != []
    ensures p != [] && ValidSegment(q, p[0]) && vs == p[0] + Flatten(p[1..]) && p[0][0] == vs[0]
    ensures Segmentation(q, p[1..], Flatten(p[1..]))
  {
    hide ValidSegment;
    assert p == [p[0]] + p[1..];
    FlattenHead(p[0], p[1..]);
    assert p[0] != [] by { NotEmpty(q, p[0]); }
  }

  lemma NotEmpty(q: Limits, seg: seq<Vec>)
    requires ValidSegment(q, seg)
    ensures seg != []
  {
  }

  lemma Prepend(q: Limits, seg: seq<Vec>, p: seq<seq<Vec>>, vs: seq<Vec>)
    requires ValidSegment(q, seg) && Segmentation(q, p, vs)
    ensures Segmentation(q, [seg] + p, seg + vs)
  {
    hide ValidSegment;
    FlattenHead(seg, p);
  }

  lemma DropFirst(q: Limits, vs: seq<Vec>)
    requires vs != []
    ensures |Pack(q, vs[1..], false)| <= |Pack(q, vs, false)|
  {
    var p := Pack(q, vs, false);
    PackIsSegmentation(q, vs, false);
    FirstSegment(q, p, vs);
    var (seg, rest) := (p[0], Flatten(p[1..]));
    hide ValidSegment, Segmentation, Pack, Flatten;
    if |seg| == 1 {
      assert vs[1..] == rest;
      GreedyIsMinimal(q, rest, p[1..]);
    } else {
      SubrunIsValid(q, seg, 1, |seg|);
      Prepend(q, seg[1..|seg|], p[1..], rest);
      assert vs[1..] == seg[1..|seg|] + rest;
      GreedyIsMinimal(q, vs[1..], [seg[1..|seg|]] + p[1..]);
    }
  }

  /** A segment may lose bytes at its front. */
  lemma CutSegment(q: Limits, seg: seq<Vec>, n: nat, k: nat)
    requires ValidSegment(q, seg) && NonEmpty(seg) && q.boundaryMask == Pow2(k) - 1 && n < seg[0].len
    ensures ValidSegment(q, [C.Cut(seg[0], n)] + seg[1..])
  {
    hide BitOr, Pow2;
    var cut := [C.Cut(seg[0], n)] + seg[1..];
    CutSize(seg, n);
    if |seg| > 1 {
      assert Joinable(q, seg[0], seg[1]);
      OrMonotone(seg[0].phys, seg[0].phys + n, k);
      OrMonotone(seg[0].phys + n, seg[1].phys + seg[1].len - 1, k);
      assert Joinable(q, cut[0], cut[1]);
    }
    forall i | 0 < i < |cut| ensures Joinable(q, cut[i - 1], cut[i]) {
      assert i > 1 ==> Joinable(q, seg[i - 1], seg[i]);
    }
    hide Joinable, Size;
  }

  lemma CutSize(seg: seq<Vec>, n: nat)
    requires seg != [] && n < seg[0].len
    ensures Size([C.Cut(seg[0], n)] + seg[1..]) == Size(seg) - n
  {
    assert seg == [seg[0]] + seg[1..];
    SizeConcat([seg[0]], seg[1..]);
    SizeConcat([C.Cut(seg[0], n)], seg[1..]);
    SizeAppend([], seg[0]);
    SizeAppend([], C.Cut(seg[0], n));
    assert [] + [seg[0]] == [seg[0]] && [] + [C.Cut(seg[0], n)] == [C.Cut(seg[0], n)];
  }

  lemma CutFirst(q: Limits, vs: seq<Vec>, n: nat, k: nat)
    requires vs != [] && NonEmpty(vs) && q.boundaryMask == Pow2(k) - 1 && n < vs[0].len
    ensures |Pack(q, [C.Cut(vs[0], n)] + vs[1..], false)| <= |Pack(q, vs, false)|
  {
    var p := Pack(q, vs, false);
    PackIsSegmentation(q, vs, false);
    FirstSegment(q, p, vs);
    var (seg, rest) := (p[0], Flatten(p[1..]));
    hide ValidSegment, Segmentation, Pack, Flatten, Pow2;
    Rehead(seg, rest, C.Cut(vs[0], n));
    CutSegment(q, seg, n, k);
    var cut := [C.Cut(vs[0], n)] + seg[1..];
    Prepend(q, cut, p[1..], rest);
    hide NonEmpty;
    GreedyIsMinimal(q, cut + rest, [cut] + p[1..]);
  }

  lemma Rehead(seg: seq<Vec>, rest: seq<Vec>, v: Vec)
    requires seg != []
    ensures [v] + (seg + rest)[1..] == ([v] + seg[1..]) + rest
    ensures NonEmpty(seg + rest) ==> NonEmpty(seg)
  {
    assert (seg + rest)[1..] == seg[1..] + rest;
    assert forall i :: 0 <= i < |seg| ==> seg[i] == (seg + rest)[i];
  }

  lemma {:induction false} RestPacks(q: Limits, vs: seq<Vec>, n: nat, k: nat)
    requires NonEmpty(vs) && q.boundaryMask == Pow2(k) - 1
    ensures |Pack(q, C.TrimVecs(vs, n), false)| <= |Pack(q, vs, false)|
    decreases |vs|
  {
    hide Pack, Pow2;
    if n > 0 && vs != [] {
      if n >= vs[0].len {
        RestPacks(q, vs[1..], n - vs[0].len, k);
        DropFirst(q, vs);
      } else {
        CutFirst(q, vs, n, k);
      }
    }
  }

  lemma PackOne(q: Limits, v: Vec)
    ensures Pack(q, [v], false) == [[v]]
  {
    assert Front([v]) == [] && Pack(q, [], false) == [];
  }

  lemma PackTwo(q: Limits, v: Vec, w: Vec)
    requires q.cluster && v.len + w.len <= q.maxSegmentSize
    ensures |Pack(q, [v, w], false)| == if Joinable(q, v, w) then 1 else 2
  {
    hide Joinable;
    PackOne(q, v);
    assert Front([v, w]) == [v] && [v][..0] == [] && Size([v]) == v.len;
  }

  /** With a gap in the mask, cutting the front of a segment can break it in two. */
  lemma GapGrows(mask: nat) returns (q: Limits, vs: seq<Vec>, n: nat)
    requires !LowBits(mask)
    ensures q.boundaryMask == mask && NonEmpty(vs)
    ensures |Pack(q, C.TrimVecs(vs, n), false)| > |Pack(q, vs, false)|
  {
    var a, x, z := GapBetween(mask);
    hide BitOr;
    q := Limits(true, z - a + 1, mask, 2, 0, 0);
    var (v, w) := (Vec(a, x + 1 - a, false), Vec(x + 1, z - x, false));
    vs, n := [v, w], x - a;
    assert Joinable(q, v, w) && !Joinable(q, C.Cut(v, n), w);
    PackTwo(q, v, w);
    PackTwo(q, C.Cut(v, n), w);
    assert C.TrimVecs(vs, n) == [C.Cut(v, n), w];
  }

  /** Completed bytes never cost scatterlist entries, for any vectors, exactly for masks without a gap. */
  lemma RestNeverGrows(mask: nat)
    ensures LowBits(mask) <==>
            forall q: Limits, vs: seq<Vec>, n: nat ::
              q.boundaryMask == mask && NonEmpty(vs) ==>
                |Pack(q, C.TrimVecs(vs, n), false)| <= |Pack(q, vs, false)|
  {
    if LowBits(mask) {
      var k: nat :| mask == Pow2(k) - 1;
      forall q: Limits, vs: seq<Vec>, n: nat | q.boundaryMask == mask && NonEmpty(vs)
        ensures |Pack(q, C.TrimVecs(vs, n), false)| <= |Pack(q, vs, false)|
      {
        RestPacks(q, vs, n, k);
      }
    } else {
      var q, vs, n := GapGrows(mask);
      assert |Pack(q, C.TrimVecs(vs, n), false)| > |Pack(q, vs, false)|;
    }
  }

  /** After a partial completion the recount covers the scatterlist, which is no longer than before. */
  lemma RestFits(q: Limits, bios: seq<C.Bio>, n: nat, error: int)
    requires C.BiosOk(bios) && LowBits(q.boundaryMask)
    ensures var rest := Vectors(C.Advance(bios, n, error));
            |Pack(q, rest, false)| <= |Pack(q, rest, true)| && |Pack(q, rest, false)| <= |Pack(q, Vectors(bios), false)|
  {
    hide Pack;
    AdvanceVectors(bios, n, error);
    VectorsNonEmpty(bios);
    var k: nat :| q.boundaryMask == Pow2(k) - 1;
    RestPacks(q, Vectors(bios), n, k);
    BounceCovers(q, Vectors(C.Advance(bios, n, error)));
  }

  /** Keeping high pages apart can only raise the count. */
  lemma BounceCovers(q: Limits, vs: seq<Vec>)
    ensures |Pack(q, vs, false)| <= |Pack(q, vs, true)|
  {
    PackIsSegmentation(q, vs, true);
    GreedyIsMinimal(q, vs, Pack(q, vs, true));
  }

  lemma {:induction false} VectorsNonEmpty(bios: seq<C.Bio>)
    requires C.BiosOk(bios)
    ensures NonEmpty(Vectors(bios))
  {
    if bios != [] {
      assert C.BioOk(bios[0]);
      VectorsNonEmpty(bios[1..]);
    }
  }
}
