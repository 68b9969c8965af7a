/**
 Anubis as anubis.c computes it.  Encryption and decryption run the same routine; only the
 order and the mixing of the round keys differ.  A 32-bit row is kept as its four bytes,
 highest first.
 */
module Anubis {
  import opened Columns
  import opened Spn

  /** The byte that every entry of T4 repeats four times. */
  function SBox(x: bv8): (y: bv8) {
    if x & 0x80 == 0 then
      if x & 0x40 == 0 then
        if x & 0x20 == 0 then
          if x & 0x10 == 0 then
            Row(x, 0xba, 0x54, 0x2f, 0x74, 0x53, 0xd3, 0xd2, 0x4d, 0x50, 0xac, 0x8d, 0xbf, 0x70, 0x52, 0x9a, 0x4c)
          else
            Row(x, 0xea, 0xd5, 0x97, 0xd1, 0x33, 0x51, 0x5b, 0xa6, 0xde, 0x48, 0xa8, 0x99, 0xdb, 0x32, 0xb7, 0xfc)
        else
          if x & 0x10 == 0 then
            Row(x, 0xe3, 0x9e, 0x91, 0x9b, 0xe2, 0xbb, 0x41, 0x6e, 0xa5, 0xcb, 0x6b, 0x95, 0xa1, 0xf3, 0xb1, 0x02)
          else
            Row(x, 0xcc, 0xc4, 0x1d, 0x14, 0xc3, 0x63, 0xda, 0x5d, 0x5f, 0xdc, 0x7d, 0xcd, 0x7f, 0x5a, 0x6c, 0x5c)
      else
        if x & 0x20 == 0 then
          if x & 0x10 == 0 then
            Row(x, 0xf7, 0x26, 0xff, 0xed, 0xe8, 0x9d, 0x6f, 0x8e, 0x19, 0xa0, 0xf0, 0x89, 0x0f, 0x07, 0xaf, 0xfb)
          else
            Row(x, 0x08, 0x15, 0x0d, 0x04, 0x01, 0x64, 0xdf, 0x76, 0x79, 0xdd, 0x3d, 0x16, 0x3f, 0x37, 0x6d, 0x38)
        else
          if x & 0x10 == 0 then
            Row(x, 0xb9, 0x73, 0xe9, 0x35, 0x55, 0x71, 0x7b, 0x8c, 0x72, 0x88, 0xf6, 0x2a, 0x3e, 0x5e, 0x27, 0x46)
          else
            Row(x, 0x0c, 0x65, 0x68, 0x61, 0x03, 0xc1, 0x57, 0xd6, 0xd9, 0x58, 0xd8, 0x66, 0xd7, 0x3a, 0xc8, 0x3c)
    else
      if x & 0x40 == 0 then
        if x & 0x20 == 0 then
          if x & 0x10 == 0 then
            Row(x, 0xfa, 0x96, 0xa7, 0x98, 0xec, 0xb8, 0xc7, 0xae, 0x69, 0x4b, 0xab, 0xa9, 0x67, 0x0a, 0x47, 0xf2)
          else
            Row(x, 0xb5, 0x22, 0xe5, 0xee, 0xbe, 0x2b, 0x81, 0x12, 0x83, 0x1b, 0x0e, 0x23, 0xf5, 0x45, 0x21, 0xce)
        else
          if x & 0x10 == 0 then
            Row(x, 0x49, 0x2c, 0xf9, 0xe6, 0xb6, 0x28, 0x17, 0x82, 0x1a, 0x8b, 0xfe, 0x8a, 0x09, 0xc9, 0x87, 0x4e)
          else
            Row(x, 0xe1, 0x2e, 0xe4, 0xe0, 0xeb, 0x90, 0xa4, 0x1e, 0x85, 0x60, 0x00, 0x25, 0xf4, 0xf1, 0x94, 0x0b)
      else
        if x & 0x20 == 0 then
          if x & 0x10 == 0 then
            Row(x, 0xe7, 0x75, 0xef, 0x34, 0x31, 0xd4, 0xd0, 0x86, 0x7e, 0xad, 0xfd, 0x29, 0x30, 0x3b, 0x9f, 0xf8)
          else
            Row(x, 0xc6, 0x13, 0x06, 0x05, 0xc5, 0x11, 0x77, 0x7c, 0x7a, 0x78, 0x36, 0x1c, 0x39, 0x59, 0x18, 0x56)
        else
          if x & 0x10 == 0 then
            Row(x, 0xb3, 0xb0, 0x24, 0x20, 0xb2, 0x92, 0xa3, 0xc0, 0x44, 0x62, 0x10, 0xb4, 0x84, 0x43, 0x93, 0xc2)
          else
            Row(x, 0x4a, 0xbd, 0x8f, 0x2d, 0xbc, 0x9c, 0x6a, 0x40, 0xcf, 0xa2, 0x80, 0x4f, 0x1f, 0xca, 0xaa, 0x42)
  }

  lemma TwiceBelow40(x: bv8)
    requires x < 0x40
    ensures SBox(SBox(x)) == x
  {
  }

  lemma TwiceBelow80(x: bv8)
    requires 0x40 <= x < 0x80
    ensures SBox(SBox(x)) == x
  {
  }

  lemma TwiceBelowC0(x: bv8)
    requires 0x80 <= x < 0xc0
    ensures SBox(SBox(x)) == x
  {
  }

  lemma TwiceAboveC0(x: bv8)
    requires 0xc0 <= x
    ensures SBox(SBox(x)) == x
  {
  }

  lemma SBoxIsInvolution(x: bv8)
    ensures SBox(SBox(x)) == x
  {
    hide SBox;
    if x < 0x40 {
      TwiceBelow40(x);
    } else if x < 0x80 {
      TwiceBelow80(x);
    } else if x < 0xc0 {
      TwiceBelowC0(x);
    } else {
      TwiceAboveC0(x);
    }
  }

  /** Multiplication by the polynomial x modulo x^8 + x^4 + x^3 + x^2 + 1. */
  function XTime(a: bv8): (r: bv8) {
    var m := a >> 7;
    (a << 1) ^ m ^ (m << 2) ^ (m << 3) ^ (m << 4)
  }

  function M2(a: bv8): (r: bv8) { XTime(a) }
  function M4(a: bv8): (r: bv8) { XTime(XTime(a)) }
  function M6(a: bv8): (r: bv8) { Add(XTime(XTime(a)), XTime(a)) }

  /** theta: a row times the matrix had(1, 2, 4, 6), whose entry (i, j) depends on i xor j only. */
  function Theta(x: Word): (y: Word) {
    Word(Sum4(x.b0, M2(x.b1), M4(x.b2), M6(x.b3)), Sum4(M2(x.b0), x.b1, M6(x.b2), M4(x.b3)),
         Sum4(M4(x.b0), M6(x.b1), x.b2, M2(x.b3)), Sum4(M6(x.b0), M4(x.b1), M2(x.b2), x.b3))
  }

  lemma XTimeLinear(a: bv8, b: bv8)
    ensures XTime(Add(a, b)) == Add(XTime(a), XTime(b))
  {
  }

  lemma MultiplesLinear(a: bv8, b: bv8)
    ensures M2(Add(a, b)) == Add(M2(a), M2(b))
    ensures M4(Add(a, b)) == Add(M4(a), M4(b))
    ensures M6(Add(a, b)) == Add(M6(a), M6(b))
  {
    hide XTime, Add;
    XTimeLinear(a, b);
    XTimeLinear(XTime(a), XTime(b));
    Regroup(M4(a), M4(b), M2(a), M2(b));
  }

  lemma Sum4Linear(a: bv8, b: bv8, c: bv8, d: bv8)
    ensures M2(Sum4(a, b, c, d)) == Sum4(M2(a), M2(b), M2(c), M2(d))
    ensures M4(Sum4(a, b, c, d)) == Sum4(M4(a), M4(b), M4(c), M4(d))
    ensures M6(Sum4(a, b, c, d)) == Sum4(M6(a), M6(b), M6(c), M6(d))
  {
    hide Add, M2, M4, M6;
    MultiplesLinear(a, b);
    MultiplesLinear(c, d);
    MultiplesLinear(Add(a, b), Add(c, d));
  }

  /** The first row of the square of had(1, 2, 4, 6). */
  lemma Coefficients(a: bv8)
    ensures Sum4(a, M2(M2(a)), M4(M4(a)), M6(M6(a))) == a
    ensures Sum4(M2(a), M2(a), M4(M6(a)), M6(M4(a))) == 0
    ensures Sum4(M4(a), M2(M6(a)), M4(a), M6(M2(a))) == 0
    ensures Sum4(M6(a), M2(M4(a)), M4(M2(a)), M6(a)) == 0
  {
  }

  lemma ThetaTwiceFirst(x: Word)
    ensures Theta(Theta(x)).b0 == x.b0
  {
    hide Sum4, M2, M4, M6;
    var (a, b, c, d) := (x.b0, x.b1, x.b2, x.b3);
    Sum4Linear(M2(a), b, M6(c), M4(d));
    Sum4Linear(M4(a), M6(b), c, M2(d));
    Sum4Linear(M6(a), M4(b), M2(c), d);
    Sum4Transposes(a, M2(b), M4(c), M6(d), M2(M2(a)), M2(b), M2(M6(c)), M2(M4(d)),
                   M4(M4(a)), M4(M6(b)), M4(c), M4(M2(d)), M6(M6(a)), M6(M4(b)), M6(M2(c)), M6(d));
    Coefficients(a);
    Coefficients(b);
    Coefficients(c);
    Coefficients(d);
    Sum4Single(a);
  }

  // The two exchanges of bytes that generate i -> i xor j.
  function Swap1(x: Word): (y: Word) { Word(x.b1, x.b0, x.b3, x.b2) }
  function Swap2(x: Word): (y: Word) { Word(x.b2, x.b3, x.b0, x.b1) }

  lemma Sum4Swaps(a: bv8, b: bv8, c: bv8, d: bv8)
    ensures Sum4(a, b, c, d) == Sum4(b, a, d, c)
    ensures Sum4(a, b, c, d) == Sum4(c, d, a, b)
  {
    hide Add;
    AddGroup(a, b, 0);
    AddGroup(c, d, 0);
    AddGroup(Add(a, b), Add(c, d), 0);
  }

  lemma ThetaSwaps(x: Word)
    ensures Theta(Swap1(x)) == Swap1(Theta(x))
    ensures Theta(Swap2(x)) == Swap2(Theta(x))
  {
    hide Sum4, M2, M4, M6;
    var (a, b, c, d) := (x.b0, x.b1, x.b2, x.b3);
    Sum4Swaps(a, M2(b), M4(c), M6(d));
    Sum4Swaps(M2(a), b, M6(c), M4(d));
    Sum4Swaps(M4(a), M6(b), c, M2(d));
    Sum4Swaps(M6(a), M4(b), M2(c), d);
  }

  /** The diffusion layer undoes itself. */
  lemma ThetaIsInvolution(x: Word)
    ensures Theta(Theta(x)) == x
  {
    var (y, z) := (Swap1(x), Swap2(x));
    var u := Swap2(y);
    ThetaSwaps(x);
    ThetaSwaps(y);
    ThetaSwaps(Theta(x));
    ThetaSwaps(Theta(y));
    ThetaTwiceFirst(x);
    ThetaTwiceFirst(y);
    ThetaTwiceFirst(z);
    ThetaTwiceFirst(u);
    hide Theta;
  }

  lemma ThetaLinear(x: Word, k: Word)
    ensures Theta(Xor(x, k)) == Xor(Theta(x), Theta(k))
  {
    hide Add, Sum4, M2, M4, M6;
    var (a, b, c, d) := (x.b0, x.b1, x.b2, x.b3);
    var (e, f, g, h) := (k.b0, k.b1, k.b2, k.b3);
    MultiplesLinear(a, e);
    MultiplesLinear(b, f);
    MultiplesLinear(c, g);
    MultiplesLinear(d, h);
    Sum4Pairs(a, M2(b), M4(c), M6(d), e, M2(f), M4(g), M6(h));
    Sum4Pairs(M2(a), b, M6(c), M4(d), M2(e), f, M6(g), M4(h));
    Sum4Pairs(M4(a), M6(b), c, M2(d), M4(e), M6(f), g, M2(h));
    Sum4Pairs(M6(a), M4(b), M2(c), d, M6(e), M4(f), M2(g), h);
  }

  // ----- the layers -----

  function SubWord(x: Word): (y: Word) { Word(SBox(x.b0), SBox(x.b1), SBox(x.b2), SBox(x.b3)) }

  /** gamma after tau: transpose the state, then substitute every byte. */
  function Sub(x: Block): (y: Block) {
    Block(SubWord(Word(x.w0.b0, x.w1.b0, x.w2.b0, x.w3.b0)), SubWord(Word(x.w0.b1, x.w1.b1, x.w2.b1, x.w3.b1)),
          SubWord(Word(x.w0.b2, x.w1.b2, x.w2.b2, x.w3.b2)), SubWord(Word(x.w0.b3, x.w1.b3, x.w2.b3, x.w3.b3)))
  }

  function Mix(x: Block): (y: Block) { Block(Theta(x.w0), Theta(x.w1), Theta(x.w2), Theta(x.w3)) }

  function Steps(): (l: Layers<Block>) { Layers(Sub, Mix, AddKey) }

  lemma SubWordTwice(x: Word)
    ensures SubWord(SubWord(x)) == x
  {
    SBoxIsInvolution(x.b0);
    SBoxIsInvolution(x.b1);
    SBoxIsInvolution(x.b2);
    SBoxIsInvolution(x.b3);
    hide SBox;
  }

  lemma SubTwice(x: Block)
    ensures Sub(Sub(x)) == x
  {
    hide SBox;
    SubWordTwice(x.w0);
    SubWordTwice(x.w1);
    SubWordTwice(x.w2);
    SubWordTwice(x.w3);
  }

  lemma MixTwice(x: Block)
    ensures Mix(Mix(x)) == x
  {
    hide Theta;
    ThetaIsInvolution(x.w0);
    ThetaIsInvolution(x.w1);
    ThetaIsInvolution(x.w2);
    ThetaIsInvolution(x.w3);
  }

  lemma MixBlockLinear(x: Block, k: Block)
    ensures Mix(AddKey(x, k)) == AddKey(Mix(x), Mix(k))
  {
    hide Theta, Xor;
    ThetaLinear(x.w0, k.w0);
    ThetaLinear(x.w1, k.w1);
    ThetaLinear(x.w2, k.w2);
    ThetaLinear(x.w3, k.w3);
  }

  /** Every layer is its own inverse. */
  lemma StepsUndo()
    ensures Undoes(Steps(), Steps())
  {
    hide Sub, Mix, AddKey;
    forall x
      ensures Sub(Sub(x)) == x && Mix(Mix(x)) == x
    {
      SubTwice(x);
      MixTwice(x);
    }
    forall x, k
      ensures Mix(AddKey(x, k)) == AddKey(Mix(x), Mix(k)) && AddKey(AddKey(x, k), k) == x
    {
      MixBlockLinear(x, k);
      AddKeyTwice(x, k);
    }
  }

  lemma InverseKeysTwice(ks: seq<Block>)
    requires |ks| >= 2
    ensures InverseKeys(Mix, InverseKeys(Mix, ks)) == ks
  {
    hide Mix;
    var back := InverseKeys(Mix, InverseKeys(Mix, ks));
    forall i | 0 <= i < |ks|
      ensures back[i] == ks[i]
    {
      MixTwice(ks[i]);
    }
  }

  /** One routine, two schedules: each run undoes the other, whatever the round keys are. */
  lemma CryptUndone(keys: seq<Block>, x: Block)
    requires |keys| >= 2
    ensures Cipher(Steps(), InverseKeys(Mix, keys), Cipher(Steps(), keys, x)) == x
    ensures Cipher(Steps(), keys, Cipher(Steps(), InverseKeys(Mix, keys), x)) == x
  {
    hide Sub, Mix, AddKey;
    StepsUndo();
    CipherUndone(Steps(), Steps(), keys, x);
    CipherUndone(Steps(), Steps(), InverseKeys(Mix, keys), x);
    InverseKeysTwice(keys);
  }

  // ----- the tables -----

  /** T0 to T3: row n of the matrix times the substituted byte. */
  function Tab(n: nat, x: bv8): (t: Word)
    requires n < 4
  {
    var s := SBox(x);
    if n == 0 then Word(s, M2(s), M4(s), M6(s))
    else if n == 1 then Word(M2(s), s, M6(s), M4(s))
    else if n == 2 then Word(M4(s), M6(s), s, M2(s))
    else Word(M6(s), M4(s), M2(s), s)
  }

  /** Masking an entry of table n with 0xff at byte n */
  function Mask(n: nat, x: Word): (y: Word)
    requires n < 4
  {
    if n == 0 then Word(x.b0, 0, 0, 0) else if n == 1 then Word(0, x.b1, 0, 0)
    else if n == 2 then Word(0, 0, x.b2, 0) else Word(0, 0, 0, x.b3)
  }

  function Xor4(a: Word, b: Word, c: Word, d: Word): (y: Word) { Xor(Xor(Xor(a, b), c), d) }

  /** The four lookups of a full round, for one row. */
  function FullRow(x: Word): (y: Word) { Xor4(Tab(0, x.b0), Tab(1, x.b1), Tab(2, x.b2), Tab(3, x.b3)) }

  /** The four masked lookups of the last round, for one row. */
  function LastRow(x: Word): (y: Word) {
    Xor4(Mask(0, Tab(0, x.b0)), Mask(1, Tab(1, x.b1)), Mask(2, Tab(2, x.b2)), Mask(3, Tab(3, x.b3)))
  }

  lemma FullRowMixes(x: Word)
    ensures FullRow(x) == Theta(SubWord(x))
  {
    hide Add, Sum4, SBox, M2, M4, M6;
    var (a, b, c, d) := (SBox(x.b0), SBox(x.b1), SBox(x.b2), SBox(x.b3));
    ChainIsSum(a, M2(b), M4(c), M6(d));
    ChainIsSum(M2(a), b, M6(c), M4(d));
    ChainIsSum(M4(a), M6(b), c, M2(d));
    ChainIsSum(M6(a), M4(b), M2(c), d);
  }

  lemma LastRowSubstitutes(x: Word)
    ensures LastRow(x) == SubWord(x)
  {
    hide Add, SBox, M2, M4, M6;
    AddGroup(SBox(x.b0), 0, 0);
    AddGroup(SBox(x.b1), 0, 0);
    AddGroup(SBox(x.b2), 0, 0);
    AddGroup(SBox(x.b3), 0, 0);
    AddGroup(0, 0, 0);
  }

  /** A row of the inverse schedule: looking up T0 to T3 at the substituted bytes leaves theta alone. */
  function MixedRow(v: Word): (y: Word) { FullRow(SubWord(v)) }

  lemma MixedRowIsTheta(v: Word)
    ensures MixedRow(v) == Theta(v)
  {
    hide FullRow, Theta, SubWord;
    FullRowMixes(SubWord(v));
    SubWordTwice(v);
  }

  // ----- the routines -----

  /** One full round of anubis_crypt. */
  function FullRound(x: Block, k: Block): (y: Block) {
    Block(Xor(FullRow(Word(x.w0.b0, x.w1.b0, x.w2.b0, x.w3.b0)), k.w0),
          Xor(FullRow(Word(x.w0.b1, x.w1.b1, x.w2.b1, x.w3.b1)), k.w1),
          Xor(FullRow(Word(x.w0.b2, x.w1.b2, x.w2.b2, x.w3.b2)), k.w2),
          Xor(FullRow(Word(x.w0.b3, x.w1.b3, x.w2.b3, x.w3.b3)), k.w3))
  }

  /** The last round of anubis_crypt. */
  function LastRound(x: Block, k: Block): (y: Block) {
    Block(Xor(LastRow(Word(x.w0.b0, x.w1.b0, x.w2.b0, x.w3.b0)), k.w0),
          Xor(LastRow(Word(x.w0.b1, x.w1.b1, x.w2.b1, x.w3.b1)), k.w1),
          Xor(LastRow(Word(x.w0.b2, x.w1.b2, x.w2.b2, x.w3.b2)), k.w2),
          Xor(LastRow(Word(x.w0.b3, x.w1.b3, x.w2.b3, x.w3.b3)), k.w3))
  }

  lemma FullRoundIs(x: Block, k: Block)
    ensures FullRound(x, k) == AddKey(Mix(Sub(x)), k)
  {
    hide FullRow, Theta, SubWord, Xor;
    FullRowMixes(Word(x.w0.b0, x.w1.b0, x.w2.b0, x.w3.b0));
    FullRowMixes(Word(x.w0.b1, x.w1.b1, x.w2.b1, x.w3.b1));
    FullRowMixes(Word(x.w0.b2, x.w1.b2, x.w2.b2, x.w3.b2));
    FullRowMixes(Word(x.w0.b3, x.w1.b3, x.w2.b3, x.w3.b3));
  }

  lemma LastRoundIs(x: Block, k: Block)
    ensures LastRound(x, k) == AddKey(Sub(x), k)
  {
    hide LastRow, SubWord, Xor;
    LastRowSubstitutes(Word(x.w0.b0, x.w1.b0, x.w2.b0, x.w3.b0));
    LastRowSubstitutes(Word(x.w0.b1, x.w1.b1, x.w2.b1, x.w3.b1));
    LastRowSubstitutes(Word(x.w0.b2, x.w1.b2, x.w2.b2, x.w3.b2));
    LastRowSubstitutes(Word(x.w0.b3, x.w1.b3, x.w2.b3, x.w3.b3));
  }

  /** anubis_crypt */
  method Crypt(roundKey: seq<Block>, x: Block, R: nat) returns (y: Block)
    requires 1 <= R < |roundKey|
    ensures y == Cipher(Steps(), roundKey[..R + 1], x)
  {
    hide Sub, Mix, AddKey, FullRound, LastRound;
    ghost var keys := roundKey[..R + 1];
    var state := AddKey(x, roundKey[0]);
    for r := 1 to R
      invariant state == Rounds(Steps(), keys, x, r - 1)
    {
      FullRoundIs(state, roundKey[r]);
      state := FullRound(state, roundKey[r]);
    }
    LastRoundIs(state, roundKey[R]);
    y := LastRound(state, roundKey[R]);
  }

  /** struct anubis_ctx, the rows of a round key together. */
  class Context {
    var rounds: nat
    const E: array<Block>
    const D: array<Block>

    ghost predicate Shaped()
      reads this
    {
      E.Length == 19 && D.Length == 19 && E != D && 1 <= rounds <= 18
    }

    /** D is the inverse schedule of E. */
    ghost predicate Ready()
      reads this, E, D
    {
      Shaped() && D[..rounds + 1] == InverseKeys(Mix, E[..rounds + 1])
    }

    /** anubis_setkey, the inverse key schedule. */
    method InvertSchedule()
      requires Shaped()
      modifies D
      ensures Ready()
    {
      hide Mix, MixedRow;
      var R := rounds;
      D[0] := E[R];
      D[R] := E[0];
      for r := 1 to R
        invariant D[0] == E[R] && D[R] == E[0]
        invariant forall k :: 1 <= k < r ==> D[k] == Mix(E[R - k])
      {
        var v := E[R - r];
        MixedBlock(v);
        D[r] := Block(MixedRow(v.w0), MixedRow(v.w1), MixedRow(v.w2), MixedRow(v.w3));
      }
      assert D[..R + 1] == InverseKeys(Mix, E[..R + 1]);
    }

    /** anubis_encrypt */
    method Encrypt(x: Block) returns (y: Block)
      requires Ready()
      ensures y == Cipher(Steps(), E[..rounds + 1], x) && x == Cipher(Steps(), D[..rounds + 1], y)
    {
      hide Mix, Sub, AddKey;
      CryptUndone(E[..rounds + 1], x);
      y := Crypt(E[..], x, rounds);
      assert E[..][..rounds + 1] == E[..rounds + 1];
    }

    /** anubis_decrypt */
    method Decrypt(x: Block) returns (y: Block)
      requires Ready()
      ensures y == Cipher(Steps(), D[..rounds + 1], x) && x == Cipher(Steps(), E[..rounds + 1], y)
    {
      hide Mix, Sub, AddKey;
      CryptUndone(E[..rounds + 1], x);
      y := Crypt(D[..], x, rounds);
      assert D[..][..rounds + 1] == D[..rounds + 1];
    }
  }

  lemma MixedBlock(v: Block)
    ensures Block(MixedRow(v.w0), MixedRow(v.w1), MixedRow(v.w2), MixedRow(v.w3)) == Mix(v)
  {
    hide MixedRow, Theta;
    MixedRowIsTheta(v.w0);
    MixedRowIsTheta(v.w1);
    MixedRowIsTheta(v.w2);
    MixedRowIsTheta(v.w3);
  }
}
