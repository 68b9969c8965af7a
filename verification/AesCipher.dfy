/**
 The AES cipher of FIPS-197 and the two table-driven routines that compute it.
 */
module AesCipher {
  import opened AesField
  import opened Aes
  import opened Columns
  import opened Spn

  // ----- the steps of FIPS-197 -----

  function SubWord(x: Word): (y: Word) { Word(SBox(x.b0), SBox(x.b1), SBox(x.b2), SBox(x.b3)) }

  function InvSubWord(x: Word): (y: Word) { Word(InvSBox(x.b0), InvSBox(x.b1), InvSBox(x.b2), InvSBox(x.b3)) }

  function SubBytes(x: Block): (y: Block) { Block(SubWord(x.w0), SubWord(x.w1), SubWord(x.w2), SubWord(x.w3)) }

  function InvSubBytes(x: Block): (y: Block) {
    Block(InvSubWord(x.w0), InvSubWord(x.w1), InvSubWord(x.w2), InvSubWord(x.w3))
  }

  /** Row r of the state moves r columns to the left. */
  function ShiftRows(x: Block): (y: Block) {
    Block(Word(x.w0.b0, x.w1.b1, x.w2.b2, x.w3.b3), Word(x.w1.b0, x.w2.b1, x.w3.b2, x.w0.b3),
          Word(x.w2.b0, x.w3.b1, x.w0.b2, x.w1.b3), Word(x.w3.b0, x.w0.b1, x.w1.b2, x.w2.b3))
  }

  /** Row r of the state moves r columns to the right. */
  function InvShiftRows(x: Block): (y: Block) {
    Block(Word(x.w0.b0, x.w3.b1, x.w2.b2, x.w1.b3), Word(x.w1.b0, x.w0.b1, x.w3.b2, x.w2.b3),
          Word(x.w2.b0, x.w1.b1, x.w0.b2, x.w3.b3), Word(x.w3.b0, x.w2.b1, x.w1.b2, x.w0.b3))
  }

  function Sub(x: Block): (y: Block) { ShiftRows(SubBytes(x)) }

  function InvSub(x: Block): (y: Block) { InvShiftRows(InvSubBytes(x)) }

  function Mix(x: Block): (y: Block) { Block(MixColumn(x.w0), MixColumn(x.w1), MixColumn(x.w2), MixColumn(x.w3)) }

  function InvMix(x: Block): (y: Block) {
    Block(InvMixColumn(x.w0), InvMixColumn(x.w1), InvMixColumn(x.w2), InvMixColumn(x.w3))
  }

  function Encryption(): (l: Layers<Block>) { Layers(Sub, Mix, AddKey) }

  function Decryption(): (l: Layers<Block>) { Layers(InvSub, InvMix, AddKey) }

  lemma SubWordInverts(x: Word)
    ensures InvSubWord(SubWord(x)) == x && SubWord(InvSubWord(x)) == x
  {
    SBoxInverts(x.b0);
    SBoxInverts(x.b1);
    SBoxInverts(x.b2);
    SBoxInverts(x.b3);
    hide SBox, InvSBox;
  }

  lemma SubInverts(x: Block)
    ensures InvSub(Sub(x)) == x && Sub(InvSub(x)) == x
  {
    hide SBox, InvSBox;
    SubWordInverts(x.w0);
    SubWordInverts(x.w1);
    SubWordInverts(x.w2);
    SubWordInverts(x.w3);
  }

  lemma MixBlockInverts(x: Block)
    ensures InvMix(Mix(x)) == x && Mix(InvMix(x)) == x
  {
    hide MixColumn, InvMixColumn;
    MixInverts(x.w0);
    MixInverts(x.w1);
    MixInverts(x.w2);
    MixInverts(x.w3);
  }

  lemma MixBlockLinear(x: Block, k: Block)
    ensures InvMix(AddKey(x, k)) == AddKey(InvMix(x), InvMix(k))
    ensures Mix(AddKey(x, k)) == AddKey(Mix(x), Mix(k))
  {
    hide MixColumn, InvMixColumn, Xor;
    MixLinear(x.w0, k.w0);
    MixLinear(x.w1, k.w1);
    MixLinear(x.w2, k.w2);
    MixLinear(x.w3, k.w3);
  }

  /** Each direction undoes the other, layer by layer. */
  lemma LayersUndo()
    ensures Undoes(Encryption(), Decryption()) && Undoes(Decryption(), Encryption())
  {
    hide Sub, InvSub, Mix, InvMix, AddKey;
    forall x
      ensures InvSub(Sub(x)) == x && Sub(InvSub(x)) == x
      ensures InvMix(Mix(x)) == x && Mix(InvMix(x)) == x
    {
      SubInverts(x);
      MixBlockInverts(x);
    }
    forall x, k
      ensures InvMix(AddKey(x, k)) == AddKey(InvMix(x), InvMix(k))
      ensures Mix(AddKey(x, k)) == AddKey(Mix(x), Mix(k))
      ensures AddKey(AddKey(x, k), k) == x
    {
      MixBlockLinear(x, k);
      AddKeyTwice(x, k);
    }
  }

  // ----- the round tables -----

  /** crypto_ft_tab: column n of MixColumns, times the substituted byte. */
  function FtTab(n: nat, x: bv8): (t: Word)
    requires n < 4
  {
    var s := SBox(x);
    if n == 0 then Word(M2(s), s, s, M3(s))
    else if n == 1 then Word(M3(s), M2(s), s, s)
    else if n == 2 then Word(s, M3(s), M2(s), s)
    else Word(s, s, M3(s), M2(s))
  }

  /** crypto_it_tab */
  function ItTab(n: nat, x: bv8): (t: Word)
    requires n < 4
  {
    var s := InvSBox(x);
    if n == 0 then Word(M14(s), M9(s), M13(s), M11(s))
    else if n == 1 then Word(M11(s), M14(s), M9(s), M13(s))
    else if n == 2 then Word(M13(s), M11(s), M14(s), M9(s))
    else Word(M9(s), M13(s), M11(s), M14(s))
  }

  function Place(n: nat, s: bv8): (t: Word)
    requires n < 4
  {
    if n == 0 then Word(s, 0, 0, 0) else if n == 1 then Word(0, s, 0, 0)
    else if n == 2 then Word(0, 0, s, 0) else Word(0, 0, 0, s)
  }

  /** crypto_fl_tab */
  function FlTab(n: nat, x: bv8): (t: Word)
    requires n < 4
  {
    Place(n, SBox(x))
  }

  /** crypto_il_tab */
  function IlTab(n: nat, x: bv8): (t: Word)
    requires n < 4
  {
    Place(n, InvSBox(x))
  }

  function Xor4(a: Word, b: Word, c: Word, d: Word): (y: Word) { Xor(Xor(Xor(a, b), c), d) }

  /** ls_box */
  function LsBox(x: Word): (y: Word) { Xor4(FlTab(0, x.b0), FlTab(1, x.b1), FlTab(2, x.b2), FlTab(3, x.b3)) }

  /** f_rn without the key: one output column from the four input columns its bytes come from. */
  function FColumn(p: Word, q: Word, r: Word, s: Word): (y: Word) {
    Xor4(FtTab(0, p.b0), FtTab(1, q.b1), FtTab(2, r.b2), FtTab(3, s.b3))
  }

  /** i_rn without the key */
  function IColumn(p: Word, q: Word, r: Word, s: Word): (y: Word) {
    Xor4(ItTab(0, p.b0), ItTab(1, q.b1), ItTab(2, r.b2), ItTab(3, s.b3))
  }

  /** f_rl without the key */
  function FLast(p: Word, q: Word, r: Word, s: Word): (y: Word) {
    Xor4(FlTab(0, p.b0), FlTab(1, q.b1), FlTab(2, r.b2), FlTab(3, s.b3))
  }

  /** i_rl without the key */
  function ILast(p: Word, q: Word, r: Word, s: Word): (y: Word) {
    Xor4(IlTab(0, p.b0), IlTab(1, q.b1), IlTab(2, r.b2), IlTab(3, s.b3))
  }

  /** A table round column is MixColumns of the substituted, shifted column. */
  lemma FColumnMixes(p: Word, q: Word, r: Word, s: Word)
    ensures FColumn(p, q, r, s) == MixColumn(Word(SBox(p.b0), SBox(q.b1), SBox(r.b2), SBox(s.b3)))
  {
    hide Add, Sum4, SBox, M2, M3;
    var (a, b, c, d) := (SBox(p.b0), SBox(q.b1), SBox(r.b2), SBox(s.b3));
    ChainIsSum(M2(a), M3(b), c, d);
    ChainIsSum(a, M2(b), M3(c), d);
    ChainIsSum(a, b, M2(c), M3(d));
    ChainIsSum(M3(a), b, c, M2(d));
  }

  lemma IColumnMixes(p: Word, q: Word, r: Word, s: Word)
    ensures IColumn(p, q, r, s) == InvMixColumn(Word(InvSBox(p.b0), InvSBox(q.b1), InvSBox(r.b2), InvSBox(s.b3)))
  {
    hide Add, Sum4, InvSBox, M9, M11, M13, M14;
    var (a, b, c, d) := (InvSBox(p.b0), InvSBox(q.b1), InvSBox(r.b2), InvSBox(s.b3));
    ChainIsSum(M14(a), M11(b), M13(c), M9(d));
    ChainIsSum(M9(a), M14(b), M11(c), M13(d));
    ChainIsSum(M13(a), M9(b), M14(c), M11(d));
    ChainIsSum(M11(a), M13(b), M9(c), M14(d));
  }

  lemma PlacesJoin(a: bv8, b: bv8, c: bv8, d: bv8)
    ensures Xor4(Place(0, a), Place(1, b), Place(2, c), Place(3, d)) == Word(a, b, c, d)
  {
    hide Add;
    AddGroup(a, 0, 0);
    AddGroup(b, 0, 0);
    AddGroup(c, 0, 0);
    AddGroup(d, 0, 0);
    AddGroup(0, 0, 0);
  }

  /** Four table lookups substitute and place the four bytes. */
  lemma LastColumns(p: Word, q: Word, r: Word, s: Word)
    ensures FLast(p, q, r, s) == Word(SBox(p.b0), SBox(q.b1), SBox(r.b2), SBox(s.b3))
    ensures ILast(p, q, r, s) == Word(InvSBox(p.b0), InvSBox(q.b1), InvSBox(r.b2), InvSBox(s.b3))
    ensures LsBox(p) == SubWord(p)
  {
    hide SBox, InvSBox, Place, Xor4;
    PlacesJoin(SBox(p.b0), SBox(q.b1), SBox(r.b2), SBox(s.b3));
    PlacesJoin(InvSBox(p.b0), InvSBox(q.b1), InvSBox(r.b2), InvSBox(s.b3));
    PlacesJoin(SBox(p.b0), SBox(p.b1), SBox(p.b2), SBox(p.b3));
  }

  lemma LsBoxIs(x: Word)
    ensures LsBox(x) == SubWord(x)
  {
    hide SBox, InvSBox, LsBox, SubWord, FLast, ILast;
    LastColumns(x, x, x, x);
  }

  // ----- the rounds -----

  /** f_nround */
  function FNround(b: Block, k: Block): (o: Block) {
    Block(Xor(FColumn(b.w0, b.w1, b.w2, b.w3), k.w0), Xor(FColumn(b.w1, b.w2, b.w3, b.w0), k.w1),
          Xor(FColumn(b.w2, b.w3, b.w0, b.w1), k.w2), Xor(FColumn(b.w3, b.w0, b.w1, b.w2), k.w3))
  }

  lemma FNroundIs(b: Block, k: Block)
    ensures FNround(b, k) == AddKey(Mix(Sub(b)), k)
  {
    hide Xor, SBox, MixColumn, FColumn;
    FColumnMixes(b.w0, b.w1, b.w2, b.w3);
    FColumnMixes(b.w1, b.w2, b.w3, b.w0);
    FColumnMixes(b.w2, b.w3, b.w0, b.w1);
    FColumnMixes(b.w3, b.w0, b.w1, b.w2);
  }

  /** f_lround */
  function FLround(b: Block, k: Block): (o: Block) {
    Block(Xor(FLast(b.w0, b.w1, b.w2, b.w3), k.w0), Xor(FLast(b.w1, b.w2, b.w3, b.w0), k.w1),
          Xor(FLast(b.w2, b.w3, b.w0, b.w1), k.w2), Xor(FLast(b.w3, b.w0, b.w1, b.w2), k.w3))
  }

  lemma FLroundIs(b: Block, k: Block)
    ensures FLround(b, k) == AddKey(Sub(b), k)
  {
    hide Xor, SBox, FLast;
    LastColumns(b.w0, b.w1, b.w2, b.w3);
    LastColumns(b.w1, b.w2, b.w3, b.w0);
    LastColumns(b.w2, b.w3, b.w0, b.w1);
    LastColumns(b.w3, b.w0, b.w1, b.w2);
  }

  /** i_nround */
  function INround(b: Block, k: Block): (o: Block) {
    Block(Xor(IColumn(b.w0, b.w3, b.w2, b.w1), k.w0), Xor(IColumn(b.w1, b.w0, b.w3, b.w2), k.w1),
          Xor(IColumn(b.w2, b.w1, b.w0, b.w3), k.w2), Xor(IColumn(b.w3, b.w2, b.w1, b.w0), k.w3))
  }

  lemma INroundIs(b: Block, k: Block)
    ensures INround(b, k) == AddKey(InvMix(InvSub(b)), k)
  {
    hide Xor, InvSBox, InvMixColumn, IColumn;
    IColumnMixes(b.w0, b.w3, b.w2, b.w1);
    IColumnMixes(b.w1, b.w0, b.w3, b.w2);
    IColumnMixes(b.w2, b.w1, b.w0, b.w3);
    IColumnMixes(b.w3, b.w2, b.w1, b.w0);
  }

  /** i_lround */
  function ILround(b: Block, k: Block): (o: Block) {
    Block(Xor(ILast(b.w0, b.w3, b.w2, b.w1), k.w0), Xor(ILast(b.w1, b.w0, b.w3, b.w2), k.w1),
          Xor(ILast(b.w2, b.w1, b.w0, b.w3), k.w2), Xor(ILast(b.w3, b.w2, b.w1, b.w0), k.w3))
  }

  lemma ILroundIs(b: Block, k: Block)
    ensures ILround(b, k) == AddKey(InvSub(b), k)
  {
    hide Xor, InvSBox, ILast;
    LastColumns(b.w0, b.w3, b.w2, b.w1);
    LastColumns(b.w1, b.w0, b.w3, b.w2);
    LastColumns(b.w2, b.w1, b.w0, b.w3);
    LastColumns(b.w3, b.w2, b.w1, b.w0);
  }
}
