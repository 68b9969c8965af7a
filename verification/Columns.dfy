/**
 Bytes, columns of four bytes and blocks of four columns, with the xor that adds them.
 Addition is kept behind a name: proofs about sums of many bytes use its group laws only.
 */
module Columns {

  /** The entry of a 16-entry row that the low four bits select. */
  function Row(x: bv8, a0: bv8, a1: bv8, a2: bv8, a3: bv8, a4: bv8, a5: bv8, a6: bv8, a7: bv8,
               a8: bv8, a9: bv8, aA: bv8, aB: bv8, aC: bv8, aD: bv8, aE: bv8, aF: bv8): (y: bv8)
  {
    if x & 8 == 0 then
      if x & 4 == 0 then
        if x & 2 == 0 then if x & 1 == 0 then a0 else a1 else if x & 1 == 0 then a2 else a3
      else
        if x & 2 == 0 then if x & 1 == 0 then a4 else a5 else if x & 1 == 0 then a6 else a7
    else
      if x & 4 == 0 then
        if x & 2 == 0 then if x & 1 == 0 then a8 else a9 else if x & 1 == 0 then aA else aB
      else
        if x & 2 == 0 then if x & 1 == 0 then aC else aD else if x & 1 == 0 then aE else aF
  }

  /** Addition in a field of characteristic two. */
  function Add(a: bv8, b: bv8): (r: bv8) { a ^ b }

  function Sum4(a: bv8, b: bv8, c: bv8, d: bv8): (r: bv8) { Add(Add(a, b), Add(c, d)) }

  lemma AddGroup(a: bv8, b: bv8, c: bv8)
    ensures Add(Add(a, b), c) == Add(a, Add(b, c))
    ensures Add(a, b) == Add(b, a)
    ensures Add(a, 0) == a && Add(0, a) == a && Add(a, a) == 0
  {
  }

  lemma Regroup(a: bv8, b: bv8, c: bv8, d: bv8)
    ensures Add(Add(a, b), Add(c, d)) == Add(Add(a, c), Add(b, d))
  {
    hide Add;
    AddGroup(a, b, Add(c, d));
    AddGroup(b, c, d);
    AddGroup(c, b, d);
    AddGroup(a, c, Add(b, d));
  }

  lemma Sum4Pairs(a: bv8, b: bv8, c: bv8, d: bv8, e: bv8, f: bv8, g: bv8, h: bv8)
    ensures Sum4(Add(a, e), Add(b, f), Add(c, g), Add(d, h)) == Add(Sum4(a, b, c, d), Sum4(e, f, g, h))
  {
    hide Add;
    Regroup(a, e, b, f);
    Regroup(c, g, d, h);
    Regroup(Add(a, b), Add(e, f), Add(c, d), Add(g, h));
  }

  lemma Sum4Rotates(a: bv8, b: bv8, c: bv8, d: bv8)
    ensures Sum4(a, b, c, d) == Sum4(b, c, d, a)
  {
    hide Add;
    AddGroup(a, b, Add(c, d));
    AddGroup(b, Add(c, d), a);
    AddGroup(a, Add(b, Add(c, d)), 0);
    AddGroup(b, c, Add(d, a));
    AddGroup(c, d, a);
  }

  lemma Sum4Transposes(a0: bv8, a1: bv8, a2: bv8, a3: bv8, b0: bv8, b1: bv8, b2: bv8, b3: bv8,
                       c0: bv8, c1: bv8, c2: bv8, c3: bv8, d0: bv8, d1: bv8, d2: bv8, d3: bv8)
    ensures Sum4(Sum4(a0, a1, a2, a3), Sum4(b0, b1, b2, b3), Sum4(c0, c1, c2, c3), Sum4(d0, d1, d2, d3))
         == Sum4(Sum4(a0, b0, c0, d0), Sum4(a1, b1, c1, d1), Sum4(a2, b2, c2, d2), Sum4(a3, b3, c3, d3))
  {
    hide Add;
    Sum4Pairs(Add(a0, a1), Add(b0, b1), Add(c0, c1), Add(d0, d1), Add(a2, a3), Add(b2, b3), Add(c2, c3), Add(d2, d3));
    Sum4Pairs(a0, b0, c0, d0, a1, b1, c1, d1);
    Sum4Pairs(a2, b2, c2, d2, a3, b3, c3, d3);
  }

  lemma Sum4Single(a: bv8)
    ensures Sum4(a, 0, 0, 0) == a
  {
    hide Add;
    AddGroup(a, 0, 0);
    AddGroup(0, 0, 0);
  }

  lemma ChainIsSum(a: bv8, b: bv8, c: bv8, d: bv8)
    ensures Add(Add(Add(a, b), c), d) == Sum4(a, b, c, d)
  {
    hide Add;
    AddGroup(Add(a, b), c, d);
  }

  datatype Word = Word(b0: bv8, b1: bv8, b2: bv8, b3: bv8)

  datatype Block = Block(w0: Word, w1: Word, w2: Word, w3: Word)

  function Xor(x: Word, y: Word): (z: Word) {
    Word(Add(x.b0, y.b0), Add(x.b1, y.b1), Add(x.b2, y.b2), Add(x.b3, y.b3))
  }

  function AddKey(x: Block, k: Block): (y: Block) {
    Block(Xor(x.w0, k.w0), Xor(x.w1, k.w1), Xor(x.w2, k.w2), Xor(x.w3, k.w3))
  }

  lemma XorTwice(x: Word, k: Word)
    ensures Xor(Xor(x, k), k) == x
  {
  }

  lemma AddKeyTwice(x: Block, k: Block)
    ensures AddKey(AddKey(x, k), k) == x
  {
    hide Xor;
    XorTwice(x.w0, k.w0);
    XorTwice(x.w1, k.w1);
    XorTwice(x.w2, k.w2);
    XorTwice(x.w3, k.w3);
  }
}
