/**
 The byte substitution of AES and arithmetic in GF(2^8), as the tables of aes_generic.c
 contain them.
 */
module AesField {
  import opened Columns

  /** The entries of crypto_fl_tab[0] */
  function SBox(x: bv8): (y: bv8) {
    if x & 0x80 == 0 then
      if x & 0x40 == 0 then
        if x & 0x20 == 0 then
          if x & 0x10 == 0 then
            Row(x, 0x63, 0x7c, 0x77, 0x7b, 0xf2, 0x6b, 0x6f, 0xc5, 0x30, 0x01, 0x67, 0x2b, 0xfe, 0xd7, 0xab, 0x76)
          else
            Row(x, 0xca, 0x82, 0xc9, 0x7d, 0xfa, 0x59, 0x47, 0xf0, 0xad, 0xd4, 0xa2, 0xaf, 0x9c, 0xa4, 0x72, 0xc0)
        else
          if x & 0x10 == 0 then
            Row(x, 0xb7, 0xfd, 0x93, 0x26, 0x36, 0x3f, 0xf7, 0xcc, 0x34, 0xa5, 0xe5, 0xf1, 0x71, 0xd8, 0x31, 0x15)
          else
            Row(x, 0x04, 0xc7, 0x23, 0xc3, 0x18, 0x96, 0x05, 0x9a, 0x07, 0x12, 0x80, 0xe2, 0xeb, 0x27, 0xb2, 0x75)
      else
        if x & 0x20 == 0 then
          if x & 0x10 == 0 then
            Row(x, 0x09, 0x83, 0x2c, 0x1a, 0x1b, 0x6e, 0x5a, 0xa0, 0x52, 0x3b, 0xd6, 0xb3, 0x29, 0xe3, 0x2f, 0x84)
          else
            Row(x, 0x53, 0xd1, 0x00, 0xed, 0x20, 0xfc, 0xb1, 0x5b, 0x6a, 0xcb, 0xbe, 0x39, 0x4a, 0x4c, 0x58, 0xcf)
        else
          if x & 0x10 == 0 then
            Row(x, 0xd0, 0xef, 0xaa, 0xfb, 0x43, 0x4d, 0x33, 0x85, 0x45, 0xf9, 0x02, 0x7f, 0x50, 0x3c, 0x9f, 0xa8)
          else
            Row(x, 0x51, 0xa3, 0x40, 0x8f, 0x92, 0x9d, 0x38, 0xf5, 0xbc, 0xb6, 0xda, 0x21, 0x10, 0xff, 0xf3, 0xd2)
    else
      if x & 0x40 == 0 then
        if x & 0x20 == 0 then
          if x & 0x10 == 0 then
            Row(x, 0xcd, 0x0c, 0x13, 0xec, 0x5f, 0x97, 0x44, 0x17, 0xc4, 0xa7, 0x7e, 0x3d, 0x64, 0x5d, 0x19, 0x73)
          else
            Row(x, 0x60, 0x81, 0x4f, 0xdc, 0x22, 0x2a, 0x90, 0x88, 0x46, 0xee, 0xb8, 0x14, 0xde, 0x5e, 0x0b, 0xdb)
        else
          if x & 0x10 == 0 then
            Row(x, 0xe0, 0x32, 0x3a, 0x0a, 0x49, 0x06, 0x24, 0x5c, 0xc2, 0xd3, 0xac, 0x62, 0x91, 0x95, 0xe4, 0x79)
          else
            Row(x, 0xe7, 0xc8, 0x37, 0x6d, 0x8d, 0xd5, 0x4e, 0xa9, 0x6c, 0x56, 0xf4, 0xea, 0x65, 0x7a, 0xae, 0x08)
      else
        if x & 0x20 == 0 then
          if x & 0x10 == 0 then
            Row(x, 0xba, 0x78, 0x25, 0x2e, 0x1c, 0xa6, 0xb4, 0xc6, 0xe8, 0xdd, 0x74, 0x1f, 0x4b, 0xbd, 0x8b, 0x8a)
          else
            Row(x, 0x70, 0x3e, 0xb5, 0x66, 0x48, 0x03, 0xf6, 0x0e, 0x61, 0x35, 0x57, 0xb9, 0x86, 0xc1, 0x1d, 0x9e)
        else
          if x & 0x10 == 0 then
            Row(x, 0xe1, 0xf8, 0x98, 0x11, 0x69, 0xd9, 0x8e, 0x94, 0x9b, 0x1e, 0x87, 0xe9, 0xce, 0x55, 0x28, 0xdf)
          else
            Row(x, 0x8c, 0xa1, 0x89, 0x0d, 0xbf, 0xe6, 0x42, 0x68, 0x41, 0x99, 0x2d, 0x0f, 0xb0, 0x54, 0xbb, 0x16)
  }

  /** The entries of crypto_il_tab[0] */
  function InvSBox(x: bv8): (y: bv8) {
    if x & 0x80 == 0 then
      if x & 0x40 == 0 then
        if x & 0x20 == 0 then
          if x & 0x10 == 0 then
            Row(x, 0x52, 0x09, 0x6a, 0xd5, 0x30, 0x36, 0xa5, 0x38, 0xbf, 0x40, 0xa3, 0x9e, 0x81, 0xf3, 0xd7, 0xfb)
          else
            Row(x, 0x7c, 0xe3, 0x39, 0x82, 0x9b, 0x2f, 0xff, 0x87, 0x34, 0x8e, 0x43, 0x44, 0xc4, 0xde, 0xe9, 0xcb)
        else
          if x & 0x10 == 0 then
            Row(x, 0x54, 0x7b, 0x94, 0x32, 0xa6, 0xc2, 0x23, 0x3d, 0xee, 0x4c, 0x95, 0x0b, 0x42, 0xfa, 0xc3, 0x4e)
          else
            Row(x, 0x08, 0x2e, 0xa1, 0x66, 0x28, 0xd9, 0x24, 0xb2, 0x76, 0x5b, 0xa2, 0x49, 0x6d, 0x8b, 0xd1, 0x25)
      else
        if x & 0x20 == 0 then
          if x & 0x10 == 0 then
            Row(x, 0x72, 0xf8, 0xf6, 0x64, 0x86, 0x68, 0x98, 0x16, 0xd4, 0xa4, 0x5c, 0xcc, 0x5d, 0x65, 0xb6, 0x92)
          else
            Row(x, 0x6c, 0x70, 0x48, 0x50, 0xfd, 0xed, 0xb9, 0xda, 0x5e, 0x15, 0x46, 0x57, 0xa7, 0x8d, 0x9d, 0x84)
        else
          if x & 0x10 == 0 then
            Row(x, 0x90, 0xd8, 0xab, 0x00, 0x8c, 0xbc, 0xd3, 0x0a, 0xf7, 0xe4, 0x58, 0x05, 0xb8, 0xb3, 0x45, 0x06)
          else
            Row(x, 0xd0, 0x2c, 0x1e, 0x8f, 0xca, 0x3f, 0x0f, 0x02, 0xc1, 0xaf, 0xbd, 0x03, 0x01, 0x13, 0x8a, 0x6b)
    else
      if x & 0x40 == 0 then
        if x & 0x20 == 0 then
          if x & 0x10 == 0 then
            Row(x, 0x3a, 0x91, 0x11, 0x41, 0x4f, 0x67, 0xdc, 0xea, 0x97, 0xf2, 0xcf, 0xce, 0xf0, 0xb4, 0xe6, 0x73)
          else
            Row(x, 0x96, 0xac, 0x74, 0x22, 0xe7, 0xad, 0x35, 0x85, 0xe2, 0xf9, 0x37, 0xe8, 0x1c, 0x75, 0xdf, 0x6e)
        else
          if x & 0x10 == 0 then
            Row(x, 0x47, 0xf1, 0x1a, 0x71, 0x1d, 0x29, 0xc5, 0x89, 0x6f, 0xb7, 0x62, 0x0e, 0xaa, 0x18, 0xbe, 0x1b)
          else
            Row(x, 0xfc, 0x56, 0x3e, 0x4b, 0xc6, 0xd2, 0x79, 0x20, 0x9a, 0xdb, 0xc0, 0xfe, 0x78, 0xcd, 0x5a, 0xf4)
      else
        if x & 0x20 == 0 then
          if x & 0x10 == 0 then
            Row(x, 0x1f, 0xdd, 0xa8, 0x33, 0x88, 0x07, 0xc7, 0x31, 0xb1, 0x12, 0x10, 0x59, 0x27, 0x80, 0xec, 0x5f)
          else
            Row(x, 0x60, 0x51, 0x7f, 0xa9, 0x19, 0xb5, 0x4a, 0x0d, 0x2d, 0xe5, 0x7a, 0x9f, 0x93, 0xc9, 0x9c, 0xef)
        else
          if x & 0x10 == 0 then
            Row(x, 0xa0, 0xe0, 0x3b, 0x4d, 0xae, 0x2a, 0xf5, 0xb0, 0xc8, 0xeb, 0xbb, 0x3c, 0x83, 0x53, 0x99, 0x61)
          else
            Row(x, 0x17, 0x2b, 0x04, 0x7e, 0xba, 0x77, 0xd6, 0x26, 0xe1, 0x69, 0x14, 0x63, 0x55, 0x21, 0x0c, 0x7d)
  }

  lemma ForthBelow40(x: bv8)
    requires x < 0x40
    ensures InvSBox(SBox(x)) == x
  {
  }

  lemma ForthBelow80(x: bv8)
    requires 0x40 <= x < 0x80
    ensures InvSBox(SBox(x)) == x
  {
  }

  lemma ForthBelowC0(x: bv8)
    requires 0x80 <= x < 0xc0
    ensures InvSBox(SBox(x)) == x
  {
  }

  lemma ForthAboveC0(x: bv8)
    requires 0xc0 <= x
    ensures InvSBox(SBox(x)) == x
  {
  }

  lemma BackBelow40(x: bv8)
    requires x < 0x40
    ensures SBox(InvSBox(x)) == x
  {
  }

  lemma BackBelow80(x: bv8)
    requires 0x40 <= x < 0x80
    ensures SBox(InvSBox(x)) == x
  {
  }

  lemma BackBelowC0(x: bv8)
    requires 0x80 <= x < 0xc0
    ensures SBox(InvSBox(x)) == x
  {
  }

  lemma BackAboveC0(x: bv8)
    requires 0xc0 <= x
    ensures SBox(InvSBox(x)) == x
  {
  }

  /** The tables of the two directions undo each other. */
  lemma SBoxInverts(x: bv8)
    ensures InvSBox(SBox(x)) == x && SBox(InvSBox(x)) == x
  {
    hide SBox, InvSBox;
    if x < 0x40 {
      ForthBelow40(x);
      BackBelow40(x);
    } else if x < 0x80 {
      ForthBelow80(x);
      BackBelow80(x);
    } else if x < 0xc0 {
      ForthBelowC0(x);
      BackBelowC0(x);
    } else {
      ForthAboveC0(x);
      BackAboveC0(x);
    }
  }

  /** Multiplication by the polynomial x modulo x^8 + x^4 + x^3 + x + 1. */
  function XTime(a: bv8): (r: bv8) {
    var m := a >> 7;
    (a << 1) ^ m ^ (m << 1) ^ (m << 3) ^ (m << 4)
  }

  // Multiples of a field element, associated as imix_col adds them up.
  function M2(a: bv8): (r: bv8) { XTime(a) }
  function M3(a: bv8): (r: bv8) { Add(XTime(a), a) }
  function M9(a: bv8): (r: bv8) { Add(XTime(XTime(XTime(a))), a) }
  function M11(a: bv8): (r: bv8) { Add(XTime(a), M9(a)) }
  function M13(a: bv8): (r: bv8) { Add(XTime(XTime(a)), M9(a)) }
  function M14(a: bv8): (r: bv8) { Add(Add(XTime(a), XTime(XTime(a))), XTime(XTime(XTime(a)))) }

  lemma XTimeLinear(a: bv8, b: bv8)
    ensures XTime(Add(a, b)) == Add(XTime(a), XTime(b))
  {
  }

  lemma MultiplesLinear(a: bv8, b: bv8)
    ensures M2(Add(a, b)) == Add(M2(a), M2(b))
    ensures M3(Add(a, b)) == Add(M3(a), M3(b))
    ensures M9(Add(a, b)) == Add(M9(a), M9(b))
    ensures M11(Add(a, b)) == Add(M11(a), M11(b))
    ensures M13(Add(a, b)) == Add(M13(a), M13(b))
    ensures M14(Add(a, b)) == Add(M14(a), M14(b))
  {
    hide XTime, Add;
    var (a2, b2) := (XTime(a), XTime(b));
    var (a4, b4) := (XTime(a2), XTime(b2));
    var (a8, b8) := (XTime(a4), XTime(b4));
    XTimeLinear(a, b);
    XTimeLinear(a2, b2);
    XTimeLinear(a4, b4);
    Regroup(a2, b2, a, b);
    Regroup(a8, b8, a, b);
    Regroup(a2, b2, M9(a), M9(b));
    Regroup(a4, b4, M9(a), M9(b));
    Regroup(a2, b2, a4, b4);
    Regroup(Add(a2, a4), Add(b2, b4), a8, b8);
  }

  /** The products of the coefficients of MixColumns and InvMixColumns. */
  lemma Coefficients(a: bv8)
    ensures Sum4(M14(M2(a)), M11(a), M13(a), M9(M3(a))) == a
    ensures Sum4(M14(M3(a)), M11(M2(a)), M13(a), M9(a)) == 0
    ensures Sum4(M14(a), M11(M3(a)), M13(M2(a)), M9(a)) == 0
    ensures Sum4(M14(a), M11(a), M13(M3(a)), M9(M2(a))) == 0
  {
  }

  lemma CoefficientsBack(a: bv8)
    ensures Sum4(M2(M14(a)), M3(M9(a)), M13(a), M11(a)) == a
    ensures Sum4(M2(M11(a)), M3(M14(a)), M9(a), M13(a)) == 0
    ensures Sum4(M2(M13(a)), M3(M11(a)), M14(a), M9(a)) == 0
    ensures Sum4(M2(M9(a)), M3(M13(a)), M11(a), M14(a)) == 0
  {
  }

  // ----- the substitution table against its definition in section 5.1.1 of FIPS-197 -----

  function Bit(b: bv8, mask: bv8, a: bv8): (r: bv8) { if b & mask != 0 then a else 0 }

  /** Multiplication in the field. */
  function Mul(a: bv8, b: bv8): (r: bv8) {
    var a1 := XTime(a);
    var a2 := XTime(a1);
    var a3 := XTime(a2);
    var a4 := XTime(a3);
    var a5 := XTime(a4);
    var a6 := XTime(a5);
    var a7 := XTime(a6);
    Bit(b, 1, a) ^ Bit(b, 2, a1) ^ Bit(b, 4, a2) ^ Bit(b, 8, a3)
    ^ Bit(b, 16, a4) ^ Bit(b, 32, a5) ^ Bit(b, 64, a6) ^ Bit(b, 128, a7)
  }

  /** The affine transformation. */
  function Affine(b: bv8): (r: bv8) {
    b ^ ((b << 1) | (b >> 7)) ^ ((b << 2) | (b >> 6)) ^ ((b << 3) | (b >> 5)) ^ ((b << 4) | (b >> 4)) ^ 0x63
  }

  function InvAffine(b: bv8): (r: bv8) {
    ((b << 1) | (b >> 7)) ^ ((b << 3) | (b >> 5)) ^ ((b << 6) | (b >> 2)) ^ 0x05
  }

  lemma AffineInverts(b: bv8)
    ensures Affine(InvAffine(b)) == b
  {
  }

  lemma InverseBelow40(x: bv8)
    requires 0 < x < 0x40
    ensures Mul(x, InvAffine(SBox(x))) == 1
  {
  }

  lemma InverseBelow80(x: bv8)
    requires 0x40 <= x < 0x80
    ensures Mul(x, InvAffine(SBox(x))) == 1
  {
  }

  lemma InverseBelowC0(x: bv8)
    requires 0x80 <= x < 0xc0
    ensures Mul(x, InvAffine(SBox(x))) == 1
  {
  }

  lemma InverseAboveC0(x: bv8)
    requires 0xc0 <= x
    ensures Mul(x, InvAffine(SBox(x))) == 1
  {
  }

  /** Every entry of the table is the affine image of the multiplicative inverse of its index. */
  lemma SBoxIsAffineOfInverse(x: bv8)
    ensures SBox(0) == Affine(0)
    ensures x != 0 ==> exists y :: Mul(x, y) == 1 && SBox(x) == Affine(y)
  {
    assert SBox(0) == Affine(0);
    if 0 < x < 0x40 {
      InverseBelow40(x);
    } else if 0x40 <= x < 0x80 {
      InverseBelow80(x);
    } else if 0x80 <= x < 0xc0 {
      InverseBelowC0(x);
    } else if 0xc0 <= x {
      InverseAboveC0(x);
    }
    AffineInverts(SBox(x));
    hide SBox, Mul, Affine, InvAffine;
    if x != 0 {
      var y := InvAffine(SBox(x));
      assert Mul(x, y) == 1 && SBox(x) == Affine(y);
    }
  }
}
