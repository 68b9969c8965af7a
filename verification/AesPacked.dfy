/**
 The four bytes of a column packed into one machine word, as imix_col works on them.
 */
module AesPacked {
  import opened Aes
  import opened Columns

  function Pack(x: Word): (y: bv32) {
    (x.b0 as bv32) | ((x.b1 as bv32) << 8) | ((x.b2 as bv32) << 16) | ((x.b3 as bv32) << 24)
  }

  function Xor32(x: bv32, y: bv32): (z: bv32) { x ^ y }

  function LowBits(x: bv32): (y: bv32) { (x & 0x7f7f7f7f) << 1 }

  function TopBits(x: bv32): (y: bv32) { (x & 0x80808080) >> 7 }

  function Times1B(y: bv32): (z: bv32) { y * 0x1b }

  /** star_x */
  function StarX(x: bv32): (y: bv32) { Xor32(LowBits(x), Times1B(TopBits(x))) }

  /** ror32(x, 8) */
  function Ror32(x: bv32): (y: bv32) { (x >> 8) | (x << 24) }

  /** imix_col */
  function Imix(x: bv32): (y: bv32) {
    var u := StarX(x);
    var v := StarX(u);
    var w := StarX(v);
    var t := Xor32(w, x);
    Xor32(Xor32(Xor32(u, v), w), Xor32(Xor32(Ror32(Xor32(u, t)), Ror32(Ror32(Xor32(v, t)))), Ror32(Ror32(Ror32(t)))))
  }

  function Folded(y: bv32): (z: bv32) { y ^ (y << 1) ^ (y << 3) ^ (y << 4) }

  /** Every byte of y is 0 or 1: the multiplication puts 0x1b into the bytes that are 1. */
  lemma Fold(x: bv32)
    ensures Times1B(TopBits(x)) == Folded(TopBits(x))
  {
    var y := TopBits(x);
    assert y & 0xfefefefe == 0;
  }

  lemma Spread(x: Word)
    ensures Xor32(LowBits(Pack(x)), Folded(TopBits(Pack(x)))) == Pack(Star(x))
  {
  }

  /** The bytes never carry into each other. */
  lemma StarXIsBytewise(x: Word)
    ensures StarX(Pack(x)) == Pack(Star(x))
  {
    hide Times1B, Pack, Star, Xor32, LowBits, TopBits, Folded;
    Fold(Pack(x));
    Spread(x);
  }

  lemma PackXor(x: Word, y: Word)
    ensures Pack(Xor(x, y)) == Xor32(Pack(x), Pack(y))
  {
  }

  lemma PackRor(x: Word)
    ensures Pack(Ror8(x)) == Ror32(Pack(x))
  {
  }

  /** imix_col on the packed word is InvMixColumns on its four bytes. */
  lemma ImixIsInvMixColumn(x: Word)
    ensures Imix(Pack(x)) == Pack(InvMixColumn(x))
  {
    hide Pack, StarX, Star, Ror32, Ror8, Xor32, Xor, InvMixColumn;
    var u := Star(x);
    var v := Star(u);
    var w := Star(v);
    var t := Xor(w, x);
    StarXIsBytewise(x);
    StarXIsBytewise(u);
    StarXIsBytewise(v);
    PackXor(w, x);
    PackXor(u, v);
    PackXor(Xor(u, v), w);
    PackXor(u, t);
    PackXor(v, t);
    PackRor(Xor(u, t));
    PackRor(Xor(v, t));
    PackRor(Ror8(Xor(v, t)));
    PackRor(t);
    PackRor(Ror8(t));
    PackRor(Ror8(Ror8(t)));
    PackXor(Ror8(Xor(u, t)), Ror8(Ror8(Xor(v, t))));
    PackXor(Xor(Ror8(Xor(u, t)), Ror8(Ror8(Xor(v, t)))), Ror8(Ror8(Ror8(t))));
    PackXor(Xor(Xor(u, v), w), Xor(Xor(Ror8(Xor(u, t)), Ror8(Ror8(Xor(v, t)))), Ror8(Ror8(Ror8(t)))));
    ImixColIsInvMixColumn(x);
  }
}
