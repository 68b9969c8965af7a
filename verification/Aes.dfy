/**
 AES as aes_generic.c computes it: four 32-bit columns per block, the round tables, and the
 key schedules of both directions.  A column is kept as its four bytes, lowest first.
 */
module Aes {
  import opened AesField
  import opened Columns

  /** ror32(x, 8) */
  function Ror8(x: Word): (y: Word) { Word(x.b1, x.b2, x.b3, x.b0) }

  // ----- the linear layer -----

  /** MixColumns of section 5.1.3 of FIPS-197, on one column. */
  function MixColumn(x: Word): (y: Word) {
    Word(Sum4(M2(x.b0), M3(x.b1), x.b2, x.b3), Sum4(x.b0, M2(x.b1), M3(x.b2), x.b3),
         Sum4(x.b0, x.b1, M2(x.b2), M3(x.b3)), Sum4(M3(x.b0), x.b1, x.b2, M2(x.b3)))
  }

  /** InvMixColumns of section 5.3.3 of FIPS-197, on one column. */
  function InvMixColumn(x: Word): (y: Word) {
    Word(Sum4(M14(x.b0), M11(x.b1), M13(x.b2), M9(x.b3)), Sum4(M9(x.b0), M14(x.b1), M11(x.b2), M13(x.b3)),
         Sum4(M13(x.b0), M9(x.b1), M14(x.b2), M11(x.b3)), Sum4(M11(x.b0), M13(x.b1), M9(x.b2), M14(x.b3)))
  }

  lemma MixRotates(x: Word)
    ensures MixColumn(Ror8(x)) == Ror8(MixColumn(x))
    ensures InvMixColumn(Ror8(x)) == Ror8(InvMixColumn(x))
  {
    hide Sum4, M2, M3, M9, M11, M13, M14;
    var (a, b, c, d) := (x.b0, x.b1, x.b2, x.b3);
    Sum4Rotates(a, M2(b), M3(c), d);
    Sum4Rotates(a, b, M2(c), M3(d));
    Sum4Rotates(M3(a), b, c, M2(d));
    Sum4Rotates(M2(a), M3(b), c, d);
    Sum4Rotates(M9(a), M14(b), M11(c), M13(d));
    Sum4Rotates(M13(a), M9(b), M14(c), M11(d));
    Sum4Rotates(M11(a), M13(b), M9(c), M14(d));
    Sum4Rotates(M14(a), M11(b), M13(c), M9(d));
  }

  lemma Sum4Linear(a: bv8, b: bv8, c: bv8, d: bv8)
    ensures M2(Sum4(a, b, c, d)) == Sum4(M2(a), M2(b), M2(c), M2(d))
    ensures M3(Sum4(a, b, c, d)) == Sum4(M3(a), M3(b), M3(c), M3(d))
    ensures M9(Sum4(a, b, c, d)) == Sum4(M9(a), M9(b), M9(c), M9(d))
    ensures M11(Sum4(a, b, c, d)) == Sum4(M11(a), M11(b), M11(c), M11(d))
    ensures M13(Sum4(a, b, c, d)) == Sum4(M13(a), M13(b), M13(c), M13(d))
    ensures M14(Sum4(a, b, c, d)) == Sum4(M14(a), M14(b), M14(c), M14(d))
  {
    hide Add, M2, M3, M9, M11, M13, M14;
    MultiplesLinear(a, b);
    MultiplesLinear(c, d);
    MultiplesLinear(Add(a, b), Add(c, d));
  }

  lemma InvMixFirst(x: Word)
    ensures InvMixColumn(MixColumn(x)).b0 == x.b0
  {
    hide Sum4, M2, M3, M9, M11, M13, M14;
    var (a, b, c, d) := (x.b0, x.b1, x.b2, x.b3);
    Sum4Linear(M2(a), M3(b), c, d);
    Sum4Linear(a, M2(b), M3(c), d);
    Sum4Linear(a, b, M2(c), M3(d));
    Sum4Linear(M3(a), b, c, M2(d));
    Sum4Transposes(M14(M2(a)), M14(M3(b)), M14(c), M14(d), M11(a), M11(M2(b)), M11(M3(c)), M11(d),
                   M13(a), M13(b), M13(M2(c)), M13(M3(d)), M9(M3(a)), M9(b), M9(c), M9(M2(d)));
    Coefficients(a);
    Coefficients(b);
    Coefficients(c);
    Coefficients(d);
    Sum4Single(a);
  }

  lemma MixFirst(x: Word)
    ensures MixColumn(InvMixColumn(x)).b0 == x.b0
  {
    hide Sum4, M2, M3, M9, M11, M13, M14;
    var (a, b, c, d) := (x.b0, x.b1, x.b2, x.b3);
    Sum4Linear(M14(a), M11(b), M13(c), M9(d));
    Sum4Linear(M9(a), M14(b), M11(c), M13(d));
    Sum4Transposes(M2(M14(a)), M2(M11(b)), M2(M13(c)), M2(M9(d)), M3(M9(a)), M3(M14(b)), M3(M11(c)), M3(M13(d)),
                   M13(a), M9(b), M14(c), M11(d), M11(a), M13(b), M9(c), M14(d));
    CoefficientsBack(a);
    CoefficientsBack(b);
    CoefficientsBack(c);
    CoefficientsBack(d);
    Sum4Single(a);
  }

  /** MixColumns and InvMixColumns undo each other. */
  lemma MixInverts(x: Word)
    ensures InvMixColumn(MixColumn(x)) == x && MixColumn(InvMixColumn(x)) == x
  {
    var (r, s) := (Ror8(x), Ror8(Ror8(x)));
    var t := Ror8(s);
    MixRotates(x);
    MixRotates(r);
    MixRotates(s);
    MixRotates(MixColumn(x));
    MixRotates(MixColumn(r));
    MixRotates(MixColumn(s));
    MixRotates(InvMixColumn(x));
    MixRotates(InvMixColumn(r));
    MixRotates(InvMixColumn(s));
    InvMixFirst(x);
    InvMixFirst(r);
    InvMixFirst(s);
    InvMixFirst(t);
    MixFirst(x);
    MixFirst(r);
    MixFirst(s);
    MixFirst(t);
    hide MixColumn, InvMixColumn;
  }

  /** InvMixColumns distributes over xor, so it may be applied to the round keys in advance. */
  lemma MixLinear(x: Word, k: Word)
    ensures InvMixColumn(Xor(x, k)) == Xor(InvMixColumn(x), InvMixColumn(k))
    ensures MixColumn(Xor(x, k)) == Xor(MixColumn(x), MixColumn(k))
  {
    hide Add, Sum4, M2, M3, M9, M11, M13, M14;
    var (a, b, c, d) := (x.b0, x.b1, x.b2, x.b3);
    var (e, f, g, h) := (k.b0, k.b1, k.b2, k.b3);
    MultiplesLinear(a, e);
    MultiplesLinear(b, f);
    MultiplesLinear(c, g);
    MultiplesLinear(d, h);
    Sum4Pairs(M14(a), M11(b), M13(c), M9(d), M14(e), M11(f), M13(g), M9(h));
    Sum4Pairs(M9(a), M14(b), M11(c), M13(d), M9(e), M14(f), M11(g), M13(h));
    Sum4Pairs(M13(a), M9(b), M14(c), M11(d), M13(e), M9(f), M14(g), M11(h));
    Sum4Pairs(M11(a), M13(b), M9(c), M14(d), M11(e), M13(f), M9(g), M14(h));
    Sum4Pairs(M2(a), M3(b), c, d, M2(e), M3(f), g, h);
    Sum4Pairs(a, M2(b), M3(c), d, e, M2(f), M3(g), h);
    Sum4Pairs(a, b, M2(c), M3(d), e, f, M2(g), M3(h));
    Sum4Pairs(M3(a), b, c, M2(d), M3(e), f, g, M2(h));
  }

  /** star_x on every byte of a column. */
  function Star(x: Word): (y: Word) { Word(XTime(x.b0), XTime(x.b1), XTime(x.b2), XTime(x.b3)) }

  /** imix_col */
  function ImixCol(x: Word): (y: Word) {
    var u := Star(x);
    var v := Star(u);
    var w := Star(v);
    var t := Xor(w, x);
    Xor(Xor(Xor(u, v), w), Xor(Xor(Ror8(Xor(u, t)), Ror8(Ror8(Xor(v, t)))), Ror8(Ror8(Ror8(t)))))
  }

  lemma SumChain(a: bv8, b: bv8, c: bv8, d: bv8)
    ensures Add(a, Add(Add(b, c), d)) == Sum4(a, b, c, d)
  {
    hide Add;
    AddGroup(b, c, d);
    AddGroup(a, b, Add(c, d));
  }

  /** imix_col computes InvMixColumns. */
  lemma ImixColIsInvMixColumn(x: Word)
    ensures ImixCol(x) == InvMixColumn(x)
  {
    hide XTime, Add, Sum4;
    SumChain(M14(x.b0), M11(x.b1), M13(x.b2), M9(x.b3));
    SumChain(M14(x.b1), M11(x.b2), M13(x.b3), M9(x.b0));
    SumChain(M14(x.b2), M11(x.b3), M13(x.b0), M9(x.b1));
    SumChain(M14(x.b3), M11(x.b0), M13(x.b1), M9(x.b2));
    Sum4Rotates(M9(x.b0), M14(x.b1), M11(x.b2), M13(x.b3));
    Sum4Rotates(M13(x.b0), M9(x.b1), M14(x.b2), M11(x.b3));
    Sum4Rotates(M9(x.b1), M14(x.b2), M11(x.b3), M13(x.b0));
    Sum4Rotates(M14(x.b3), M11(x.b0), M13(x.b1), M9(x.b2));
  }
}
