/**
 The boundary a segment must not cross.  The code compares neighbouring vectors only: the start of
 one with the end of the next.  That this keeps the whole segment inside one window of the device
 depends on the mask: it must be one less than a power of two.
 */
module SegmentWindow {
  import opened Segments

  function Pow2(k: nat): (p: nat)
    ensures p > 0
  {
    if k == 0 then 1 else 2 * Pow2(k - 1)
  }

  /** A run of low bits. */
  ghost predicate LowBits(mask: nat) { exists k: nat :: mask == Pow2(k) - 1 }

  /** No byte of the range is in another window than the first. */
  ghost predicate InWindow(mask: nat, phys: nat, len: nat) {
    forall x :: phys <= x < phys + len ==> BitOr(x, mask) == BitOr(phys, mask)
  }

  lemma {:induction false} OrOdd(a: nat, m: nat)
    ensures BitOr(a, 2 * m + 1) == 2 * BitOr(a / 2, m) + 1
  {
    assert (2 * m + 1) / 2 == m && (2 * m + 1) % 2 == 1;
    if a == 0 { assert a / 2 == 0; }
  }

  lemma {:induction false} OrEven(a: nat, m: nat)
    ensures BitOr(2 * a, 2 * m) == 2 * BitOr(a, m) && BitOr(2 * a + 1, 2 * m) == 2 * BitOr(a, m) + 1
  {
    assert (2 * a) / 2 == a && (2 * a) % 2 == 0 && (2 * a + 1) / 2 == a && (2 * a + 1) % 2 == 1;
    assert (2 * m) / 2 == m && (2 * m) % 2 == 0;
  }

  /** Setting the low bits does not change the order of addresses. */
  lemma {:induction false} OrMonotone(a: nat, b: nat, k: nat)
    requires a <= b
    ensures BitOr(a, Pow2(k) - 1) <= BitOr(b, Pow2(k) - 1)
  {
    if k == 0 {
      OrZero(a);
      OrZero(b);
    } else {
      OrOdd(a, Pow2(k - 1) - 1);
      OrOdd(b, Pow2(k - 1) - 1);
      OrMonotone(a / 2, b / 2, k - 1);
    }
  }

  lemma {:induction false} OrZero(a: nat)
    ensures BitOr(a, 0) == a
  {
    if a > 0 { OrZero(a / 2); }
  }

  ghost predicate NonEmpty(vs: seq<Vec>) { forall i :: 0 <= i < |vs| ==> vs[i].len > 0 }

  /** Every vector of a segment begins in the window of the first one, and so does its last byte. */
  lemma {:induction false} VectorsInWindow(q: Limits, seg: seq<Vec>, k: nat, i: nat)
    requires ValidSegment(q, seg) && NonEmpty(seg) && q.boundaryMask == Pow2(k) - 1 && 0 < i < |seg|
    ensures BitOr(seg[i].phys, q.boundaryMask) == BitOr(seg[0].phys, q.boundaryMask)
    ensures BitOr(seg[i].phys + seg[i].len - 1, q.boundaryMask) == BitOr(seg[0].phys, q.boundaryMask)
  {
    hide BitOr, Pow2;
    assert Joinable(q, seg[i - 1], seg[i]);
    if i > 1 { VectorsInWindow(q, seg, k, i - 1); }
    OrMonotone(seg[i - 1].phys, seg[i].phys, k);
    OrMonotone(seg[i].phys, seg[i].phys + seg[i].len - 1, k);
  }

  /** A segment of several vectors lies in one window. */
  lemma SegmentInWindow(q: Limits, seg: seq<Vec>, k: nat)
    requires ValidSegment(q, seg) && NonEmpty(seg) && q.boundaryMask == Pow2(k) - 1 && |seg| > 1
    ensures InWindow(q.boundaryMask, seg[0].phys, Size(seg))
  {
    hide BitOr, Pow2;
    var (first, last) := (seg[0].phys, seg[0].phys + Size(seg) - 1);
    SegmentIsRange(q, seg);
    VectorsInWindow(q, seg, k, |seg| - 1);
    forall x | first <= x <= last ensures BitOr(x, q.boundaryMask) == BitOr(first, q.boundaryMask) {
      OrMonotone(first, x, k);
      OrMonotone(x, last, k);
    }
  }

  /** Two addresses in one window with one of another window between them. */
  ghost predicate Gap(mask: nat, a: nat, x: nat, z: nat) {
    a < x <= z && BitOr(a, mask) == BitOr(z, mask) != BitOr(x, mask)
  }

  lemma OddGap(m: nat, a: nat, x: nat, z: nat)
    requires Gap(m, a, x, z)
    ensures Gap(2 * m + 1, 2 * a, 2 * x, 2 * z)
  {
    hide BitOr;
    OrOdd(2 * a, m);
    OrOdd(2 * x, m);
    OrOdd(2 * z, m);
  }

  lemma EvenGap(m: nat, a: nat, x: nat, z: nat)
    requires Gap(m, a, x, z)
    ensures Gap(2 * m, 2 * a + 1, 2 * x + 1, 2 * z + 1)
  {
    hide BitOr;
    OrEven(a, m);
    OrEven(x, m);
    OrEven(z, m);
  }

  lemma FirstGap(m: nat)
    requires m % 2 == 1
    ensures Gap(2 * m, 1, 2, 3)
  {
    OrEven(0, m);
    OrEven(1, m);
    OrOdd(1, m / 2);
    assert BitOr(0, m) == m && BitOr(1, m) == m;
    hide BitOr;
  }

  lemma LowBitsDouble(m: nat)
    requires LowBits(m)
    ensures LowBits(2 * m + 1)
  {
    var k: nat :| m == Pow2(k) - 1;
    assert 2 * m + 1 == Pow2(k + 1) - 1;
  }

  lemma EvenHasGap(mask: nat)
    requires mask > 0 && mask % 2 == 0
    ensures !LowBits(mask)
  {
    forall k: nat ensures mask != Pow2(k) - 1 {
      if k > 0 { assert Pow2(k) == 2 * Pow2(k - 1); }
    }
  }

  /** A mask with a gap in its bits has such addresses. */
  lemma {:induction false} GapBetween(mask: nat) returns (a: nat, x: nat, z: nat)
    requires !LowBits(mask)
    ensures Gap(mask, a, x, z)
    decreases mask
  {
    hide Gap;
    assert mask != 0 by { assert Pow2(0) - 1 == 0; }
    hide LowBits;
    var m := mask / 2;
    if mask % 2 == 1 {
      if LowBits(m) { LowBitsDouble(m); }
      a, x, z := GapBetween(m);
      OddGap(m, a, x, z);
      a, x, z := 2 * a, 2 * x, 2 * z;
    } else if m % 2 == 1 {
      FirstGap(m);
      a, x, z := 1, 2, 3;
    } else {
      EvenHasGap(m);
      a, x, z := GapBetween(m);
      EvenGap(m, a, x, z);
      a, x, z := 2 * a + 1, 2 * x + 1, 2 * z + 1;
    }
  }

  /** Comparing neighbours keeps whole segments inside a window exactly for masks without a gap. */
  lemma NeighboursSuffice(mask: nat)
    ensures LowBits(mask) <==>
            forall q: Limits, seg: seq<Vec> ::
              q.boundaryMask == mask && ValidSegment(q, seg) && NonEmpty(seg) && |seg| > 1 ==>
                InWindow(mask, seg[0].phys, Size(seg))
  {
    if LowBits(mask) {
      var k: nat :| mask == Pow2(k) - 1;
      forall q: Limits, seg: seq<Vec> | q.boundaryMask == mask && ValidSegment(q, seg) && NonEmpty(seg) && |seg| > 1
        ensures InWindow(mask, seg[0].phys, Size(seg))
      {
        SegmentInWindow(q, seg, k);
      }
    } else {
      var a, x, z := GapBetween(mask);
      hide BitOr;
      var seg := [Vec(a, x - a, false), Vec(x, z - x + 1, false)];
      var q := Limits(true, z - a + 1, mask, 2, 0, 0);
      assert seg[..1] == [seg[0]] && [seg[0]][..0] == [];
      assert Size([seg[0]]) == x - a && Size(seg) == z - a + 1;
      assert Joinable(q, seg[0], seg[1]);
      assert ValidSegment(q, seg) && !InWindow(mask, seg[0].phys, Size(seg));
    }
  }

  /**
   An entry of the scatterlist that joins several vectors lies in one window; one that holds a single
   vector, which the code does not test, does so if the vector does.
   */
  lemma EntryInWindow(q: Limits, vs: seq<Vec>, i: nat)
    requires LowBits(q.boundaryMask) && NonEmpty(vs) && i < |Pack(q, vs, false)|
    ensures var p := Pack(q, vs, false); var e := Entries(p)[i];
            InWindow(q.boundaryMask, e.phys, e.len) <==>
            |p[i]| > 1 || InWindow(q.boundaryMask, p[i][0].phys, p[i][0].len)
  {
    hide BitOr, InWindow;
    var p := Pack(q, vs, false);
    PackIsSegmentation(q, vs, false);
    assert ValidSegment(q, p[i]);
    PartsNonEmpty(p, vs, i);
    if |p[i]| > 1 {
      var k: nat :| q.boundaryMask == Pow2(k) - 1;
      SegmentInWindow(q, p[i], k);
    } else {
      assert p[i][..0] == [] && Size(p[i]) == p[i][0].len;
    }
  }

  lemma {:induction false} PartsNonEmpty(p: seq<seq<Vec>>, vs: seq<Vec>, i: nat)
    requires Flatten(p) == vs && NonEmpty(vs) && i < |p|
    ensures NonEmpty(p[i])
    decreases |p|
  {
    var front := Flatten(Front(p));
    assert vs == front + Last(p);
    assert forall j :: 0 <= j < |front| ==> front[j] == vs[j];
    assert forall j :: 0 <= j < |Last(p)| ==> Last(p)[j] == vs[|front| + j];
    if i < |p| - 1 { PartsNonEmpty(Front(p), front, i); }
  }
}
