/**
 Key expansion, encryption and decryption on a key context: the round keys of both
 directions live in two arrays of 60 words.
 */
module AesKeys {
  import opened AesField
  import opened Aes
  import opened Columns
  import opened AesCipher
  import opened Spn

  // ----- KeyExpansion of section 5.2 of FIPS-197 -----

  /** The byte of the round constant: successive powers of x. */
  function Rcon(n: int): (r: bv8) {
    if n <= 1 then 1 else XTime(Rcon(n - 1))
  }

  /** What is added to the word nk places back. */
  function Temp(nk: nat, i: nat, prev: Word): (t: Word)
    requires 0 < nk
  {
    if i % nk == 0 then Xor(SubWord(Ror8(prev)), Word(Rcon(i / nk), 0, 0, 0))
    else if nk > 6 && i % nk == 4 then SubWord(prev)
    else prev
  }

  function Expanded(key: seq<Word>, i: nat): (w: Word)
    requires |key| > 0
  {
    if i < |key| then key[i]
    else Xor(Temp(|key|, i, Expanded(key, i - 1)), Expanded(key, i - |key|))
  }

  function RoundKey(key: seq<Word>, n: nat): (k: Block)
    requires |key| > 0
  {
    Block(Expanded(key, 4 * n), Expanded(key, 4 * n + 1), Expanded(key, 4 * n + 2), Expanded(key, 4 * n + 3))
  }

  /** The key schedule: one block more than there are rounds. */
  function Schedule(key: seq<Word>): (ks: seq<Block>)
    requires |key| > 0
    ensures |ks| == |key| + 7
  {
    seq(|key| + 7, n requires n >= 0 => RoundKey(key, n))
  }

  /** The schedule the decryption routine works through. */
  function InvSchedule(key: seq<Word>): (ks: seq<Block>)
    requires |key| > 0
    ensures |ks| == |key| + 7
  {
    InverseKeys(InvMix, Schedule(key))
  }

  function Encrypted(key: seq<Word>, x: Block): (y: Block)
    requires |key| > 0
  {
    Cipher(Encryption(), Schedule(key), x)
  }

  function Decrypted(key: seq<Word>, x: Block): (y: Block)
    requires |key| > 0
  {
    Cipher(Decryption(), InvSchedule(key), x)
  }

  lemma InverseKeysTwice(ks: seq<Block>)
    requires |ks| >= 2
    ensures InverseKeys(Mix, InverseKeys(InvMix, ks)) == ks
  {
    hide Mix, InvMix;
    var back := InverseKeys(Mix, InverseKeys(InvMix, ks));
    forall i | 0 <= i < |ks|
      ensures back[i] == ks[i]
    {
      MixBlockInverts(ks[i]);
    }
  }

  /** Decryption undoes encryption and encryption undoes decryption, for every key and every block. */
  lemma DecryptsWhatItEncrypts(key: seq<Word>, x: Block)
    requires |key| > 0
    ensures Decrypted(key, Encrypted(key, x)) == x
    ensures Encrypted(key, Decrypted(key, x)) == x
  {
    hide Sub, InvSub, Mix, InvMix, AddKey, Schedule;
    LayersUndo();
    var ks := Schedule(key);
    CipherUndone(Encryption(), Decryption(), ks, x);
    CipherUndone(Decryption(), Encryption(), InverseKeys(InvMix, ks), x);
    InverseKeysTwice(ks);
  }

  // ----- the key context -----

  /** rco_tab */
  function RcoTab(i: nat): (t: Word)
    requires i < 10
  {
    Word([1, 2, 4, 8, 16, 32, 64, 128, 27, 54][i], 0, 0, 0)
  }

  lemma RcoTabIsRcon(i: nat)
    requires i < 10
    ensures RcoTab(i).b0 == Rcon(i + 1)
  {
    assert Rcon(1) == 1;
    assert Rcon(2) == 2;
    assert Rcon(3) == 4;
    assert Rcon(4) == 8;
    assert Rcon(5) == 16;
    assert Rcon(6) == 32;
    assert Rcon(7) == 64;
    assert Rcon(8) == 128;
    assert Rcon(9) == 27;
    assert Rcon(10) == 54;
  }

  /** le32_to_cpu of the i-th word of the supplied key. */
  function KeyWord(inKey: seq<bv8>, i: nat): (w: Word)
    requires 4 * i + 4 <= |inKey|
  {
    Word(inKey[4 * i], inKey[4 * i + 1], inKey[4 * i + 2], inKey[4 * i + 3])
  }

  function KeyWords(inKey: seq<bv8>): (key: seq<Word>)
    ensures |key| == |inKey| / 4
  {
    seq(|inKey| / 4, i requires 0 <= i < |inKey| / 4 => KeyWord(inKey, i))
  }

  predicate Legal(keyLen: nat) { keyLen == 16 || keyLen == 24 || keyLen == 32 }

  lemma ExpandedStep(key: seq<Word>, i: nat)
    requires 0 < |key| <= i
    ensures Expanded(key, i) == Xor(Temp(|key|, i, Expanded(key, i - 1)), Expanded(key, i - |key|))
  {
  }

  /** struct crypto_aes_ctx */
  class Context {
    const keyEnc: array<Word>
    const keyDec: array<Word>
    var keyLength: nat

    ghost predicate Shaped()
      reads this
    {
      keyEnc.Length == 60 && keyDec.Length == 60 && keyEnc != keyDec
    }

    /** The first n words of the encryption keys are expanded. */
    ghost predicate Filled(key: seq<Word>, n: nat)
      requires |key| > 0
      reads keyEnc
    {
      n <= keyEnc.Length && forall i :: 0 <= i < n ==> keyEnc[i] == Expanded(key, i)
    }

    /** Four words of a key array. */
    function Slot(a: array<Word>, n: nat): (k: Block)
      requires 4 * n + 3 < a.Length
      reads a
    {
      Block(a[4 * n], a[4 * n + 1], a[4 * n + 2], a[4 * n + 3])
    }

    /** Both arrays hold the schedules of the key. */
    ghost predicate Holds(key: seq<Word>)
      reads this, keyEnc, keyDec
    {
      && Shaped() && 0 < |key| <= 8
      && (forall n :: 0 <= n < |key| + 7 ==> Slot(keyEnc, n) == Schedule(key)[n])
      && (forall n :: 0 <= n < |key| + 7 ==> Slot(keyDec, n) == InvSchedule(key)[n])
    }

    /** The decryption keys are the encryption keys in the opposite order, the inner ones mixed. */
    ghost predicate Reversed(last: nat)
      requires Shaped() && last % 4 == 0 && last + 4 <= 60
      reads this, keyEnc, keyDec
    {
      && (forall k :: 0 <= k < 4 ==> keyDec[k] == keyEnc[last + k] && keyDec[last + k] == keyEnc[k])
      && (forall k :: 4 <= k < last ==> keyDec[Opposite(last, k)] == InvMixColumn(keyEnc[k]))
    }

    constructor ()
      ensures Shaped() && fresh(keyEnc) && fresh(keyDec)
    {
      keyEnc := new Word[60](i => Word(0, 0, 0, 0));
      keyDec := new Word[60](i => Word(0, 0, 0, 0));
      keyLength := 0;
    }

    /** One step of the loop macros: t ^= key_enc[n - nk]; key_enc[n] = t */
    method Chain(ghost key: seq<Word>, nk: nat, n: nat, t: Word) returns (w: Word)
      requires Shaped() && 0 < nk == |key| <= n < 60
      requires Filled(key, n) && t == Temp(nk, n, Expanded(key, n - 1))
      modifies keyEnc
      ensures Filled(key, n + 1) && w == Expanded(key, n)
    {
      hide Temp, Xor;
      ExpandedStep(key, n);
      w := Xor(t, keyEnc[n - nk]);
      hide Expanded;
      keyEnc[n] := w;
    }

    /** The same step where the previous word is taken as it is. */
    method Next(ghost key: seq<Word>, nk: nat, n: nat, t: Word) returns (w: Word)
      requires Shaped() && 0 < nk == |key| <= n < 60 && n % nk != 0 && (nk > 6 ==> n % nk != 4)
      requires Filled(key, n) && t == Expanded(key, n - 1)
      modifies keyEnc
      ensures Filled(key, n + 1) && w == Expanded(key, n)
    {
      hide Expanded;
      w := Chain(key, nk, n, t);
    }

    /** loop4 */
    method Loop4(ghost key: seq<Word>, i: nat, t: Word) returns (w: Word)
      requires Shaped() && |key| == 4 && i < 10
      requires Filled(key, 4 * i + 4) && t == Expanded(key, 4 * i + 3)
      modifies keyEnc
      ensures Filled(key, 4 * i + 8) && w == Expanded(key, 4 * i + 7)
    {
      hide Expanded, Filled, Temp;
      w := Head(4, 4 * i + 4, i, t);
      w := Chain(key, 4, 4 * i + 4, w);
      w := Next(key, 4, 4 * i + 5, w);
      w := Next(key, 4, 4 * i + 6, w);
      w := Next(key, 4, 4 * i + 7, w);
    }

    /** loop6 */
    method Loop6(ghost key: seq<Word>, i: nat, t: Word) returns (w: Word)
      requires Shaped() && |key| == 6 && i < 8
      requires Filled(key, 6 * i + 6) && t == Expanded(key, 6 * i + 5)
      modifies keyEnc
      ensures Filled(key, 6 * i + 12) && w == Expanded(key, 6 * i + 11)
    {
      hide Expanded, Filled, Temp;
      w := Head(6, 6 * i + 6, i, t);
      w := Chain(key, 6, 6 * i + 6, w);
      w := Next(key, 6, 6 * i + 7, w);
      w := Next(key, 6, 6 * i + 8, w);
      w := Next(key, 6, 6 * i + 9, w);
      w := Next(key, 6, 6 * i + 10, w);
      w := Next(key, 6, 6 * i + 11, w);
    }

    /** t = key_enc[n - 8] ^ ls_box(t); key_enc[n] = t */
    method Middle(ghost key: seq<Word>, n: nat, t: Word) returns (w: Word)
      requires Shaped() && |key| == 8 <= n < 60 && n % 8 == 4
      requires Filled(key, n) && t == Expanded(key, n - 1)
      modifies keyEnc
      ensures Filled(key, n + 1) && w == Expanded(key, n)
    {
      hide Expanded, Filled, SubWord, LsBox, Temp;
      LsBoxIs(t);
      TempMiddle(n, t);
      w := Chain(key, 8, n, LsBox(t));
    }

    /** loop8tophalf */
    method Loop8TopHalf(ghost key: seq<Word>, i: nat, t: Word) returns (w: Word)
      requires Shaped() && |key| == 8 && i < 7
      requires Filled(key, 8 * i + 8) && t == Expanded(key, 8 * i + 7)
      modifies keyEnc
      ensures Filled(key, 8 * i + 12) && w == Expanded(key, 8 * i + 11)
    {
      hide Expanded, Filled, Temp;
      w := Head(8, 8 * i + 8, i, t);
      w := Chain(key, 8, 8 * i + 8, w);
      w := Next(key, 8, 8 * i + 9, w);
      w := Next(key, 8, 8 * i + 10, w);
      w := Next(key, 8, 8 * i + 11, w);
    }

    /** loop8 */
    method Loop8(ghost key: seq<Word>, i: nat, t: Word) returns (w: Word)
      requires Shaped() && |key| == 8 && i < 6
      requires Filled(key, 8 * i + 8) && t == Expanded(key, 8 * i + 7)
      modifies keyEnc
      ensures Filled(key, 8 * i + 16) && w == Expanded(key, 8 * i + 15)
    {
      hide Expanded, Filled;
      w := Loop8TopHalf(key, i, t);
      w := Middle(key, 8 * i + 12, w);
      w := Next(key, 8, 8 * i + 13, w);
      w := Next(key, 8, 8 * i + 14, w);
      w := Next(key, 8, 8 * i + 15, w);
    }

    /** crypto_aes_expand_key, the encryption half: every word the rounds use is expanded. */
    method ExpandEnc(inKey: seq<bv8>)
      requires Shaped() && Legal(|inKey|)
      modifies keyEnc
      ensures Filled(KeyWords(inKey), 4 * |KeyWords(inKey)| + 28)
    {
      ghost var key := KeyWords(inKey);
      hide KeyWord;
      keyEnc[0], keyEnc[1] := KeyWord(inKey, 0), KeyWord(inKey, 1);
      keyEnc[2], keyEnc[3] := KeyWord(inKey, 2), KeyWord(inKey, 3);
      if |inKey| == 16 {
        ExpandEnc4(key);
      } else if |inKey| == 24 {
        keyEnc[4], keyEnc[5] := KeyWord(inKey, 4), KeyWord(inKey, 5);
        ExpandEnc6(key);
      } else {
        keyEnc[4], keyEnc[5] := KeyWord(inKey, 4), KeyWord(inKey, 5);
        keyEnc[6], keyEnc[7] := KeyWord(inKey, 6), KeyWord(inKey, 7);
        ExpandEnc8(key);
      }
    }

    method ExpandEnc4(ghost key: seq<Word>)
      requires Shaped() && |key| == 4 && Filled(key, 4)
      modifies keyEnc
      ensures Filled(key, 44)
    {
      hide Expanded;
      var t := keyEnc[3];
      hide Filled;
      for i := 0 to 10
        invariant Filled(key, 4 * i + 4) && t == Expanded(key, 4 * i + 3)
      {
        t := Loop4(key, i, t);
      }
    }

    method ExpandEnc6(ghost key: seq<Word>)
      requires Shaped() && |key| == 6 && Filled(key, 6)
      modifies keyEnc
      ensures Filled(key, 52)
    {
      hide Expanded;
      var t := keyEnc[5];
      for i := 0 to 8
        invariant Filled(key, 6 * i + 6) && t == Expanded(key, 6 * i + 5)
      {
        t := Loop6(key, i, t);
      }
    }

    method ExpandEnc8(ghost key: seq<Word>)
      requires Shaped() && |key| == 8 && Filled(key, 8)
      modifies keyEnc
      ensures Filled(key, 60)
    {
      hide Expanded;
      var t := keyEnc[7];
      hide Filled;
      for i := 0 to 6
        invariant Filled(key, 8 * i + 8) && t == Expanded(key, 8 * i + 7)
      {
        t := Loop8(key, i, t);
      }
      t := Loop8TopHalf(key, 6, t);
    }

    /** crypto_aes_expand_key: the first and last keys change places. */
    method CopyEnds(last: nat)
      requires Shaped() && 4 <= last <= 56
      modifies keyDec
      ensures forall k :: 0 <= k < 4 ==> keyDec[k] == keyEnc[last + k] && keyDec[last + k] == keyEnc[k]
    {
      keyDec[last], keyDec[last + 1] := keyEnc[0], keyEnc[1];
      keyDec[last + 2], keyDec[last + 3] := keyEnc[2], keyEnc[3];
      keyDec[0], keyDec[1] := keyEnc[last], keyEnc[last + 1];
      keyDec[2], keyDec[3] := keyEnc[last + 2], keyEnc[last + 3];
    }

    /** One step of the loop that fills the inner decryption keys. */
    method MixOne(last: nat, i: nat)
      requires Shaped() && 4 <= i < last <= 56 && last % 4 == 0
      requires forall k :: 4 <= k < i ==> keyDec[Opposite(last, k)] == InvMixColumn(keyEnc[k])
      modifies keyDec
      ensures forall k :: 4 <= k <= i ==> keyDec[Opposite(last, k)] == InvMixColumn(keyEnc[k])
      ensures forall k :: 0 <= k < 4 || last <= k < last + 4 ==> keyDec[k] == old(keyDec[k])
    {
      hide ImixCol, InvMixColumn;
      var j := Opposite(last, i);
      ImixColIsInvMixColumn(keyEnc[i]);
      forall k | 4 <= k < i
        ensures Opposite(last, k) != j
      {
        OppositeOnce(last, k, i);
      }
      hide Opposite;
      keyDec[j] := ImixCol(keyEnc[i]);
    }

    /** crypto_aes_expand_key, the decryption half. */
    method ExpandDec(keyLen: nat)
      requires Shaped() && Legal(keyLen)
      modifies keyDec
      ensures Reversed(keyLen + 24)
    {
      hide InvMixColumn, Opposite;
      var last := keyLen + 24;
      CopyEnds(last);
      for i := 4 to last
        invariant forall k :: 0 <= k < 4 ==> keyDec[k] == keyEnc[last + k] && keyDec[last + k] == keyEnc[k]
        invariant forall k :: 4 <= k < i ==> keyDec[Opposite(last, k)] == InvMixColumn(keyEnc[k])
      {
        MixOne(last, i);
      }
    }

    lemma EncSlots(key: seq<Word>)
      requires Shaped() && 0 < |key| <= 8 && Filled(key, 4 * |key| + 28)
      ensures forall n :: 0 <= n < |key| + 7 ==> Slot(keyEnc, n) == Schedule(key)[n]
    {
      hide Expanded;
    }

    lemma DecSlot(key: seq<Word>, n: nat)
      requires Shaped() && 0 < |key| <= 8 && n < |key| + 7
      requires forall m :: 0 <= m < |key| + 7 ==> Slot(keyEnc, m) == Schedule(key)[m]
      requires Reversed(4 * |key| + 24)
      ensures Slot(keyDec, n) == InvSchedule(key)[n]
    {
      hide Schedule, InvMixColumn;
      var r := |key| + 6;
      if n == 0 || n == r {
        assert Slot(keyDec, n) == Slot(keyEnc, r - n);
      } else {
        OppositeSlot(4 * r, n);
        assert Slot(keyDec, n) == InvMix(Slot(keyEnc, r - n));
      }
    }

    lemma BothHeld(key: seq<Word>)
      requires Shaped() && 0 < |key| <= 8 && Filled(key, 4 * |key| + 28) && Reversed(4 * |key| + 24)
      ensures Holds(key)
    {
      hide Schedule, InvSchedule, Reversed, Filled;
      EncSlots(key);
      forall n: nat | n < |key| + 7
        ensures Slot(keyDec, n) == InvSchedule(key)[n]
      {
        DecSlot(key, n);
      }
    }

    /** crypto_aes_expand_key: false stands for -EINVAL. */
    method ExpandKey(inKey: seq<bv8>) returns (ok: bool)
      requires Shaped()
      modifies this, keyEnc, keyDec
      ensures ok <==> Legal(|inKey|)
      ensures ok ==> keyLength == |inKey| && Holds(KeyWords(inKey))
      ensures !ok ==> keyLength == old(keyLength) && keyEnc[..] == old(keyEnc[..]) && keyDec[..] == old(keyDec[..])
    {
      if !Legal(|inKey|) {
        return false;
      }
      keyLength := |inKey|;
      ghost var key := KeyWords(inKey);
      assert |inKey| == 4 * |key| && 0 < |key| <= 8 && 4 * |key| + 28 <= 60;
      hide *;
      ExpandEnc(inKey);
      ExpandDec(|inKey|);
      BothHeld(key);
      return true;
    }

    /** f_nround with the kp-th round key is one more round of the cipher. */
    lemma Forward(key: seq<Word>, x: Block, b: Block, kp: nat)
      requires Holds(key) && 1 <= kp < |key| + 6
      requires b == Rounds(Encryption(), Schedule(key), x, kp - 1)
      ensures FNround(b, Slot(keyEnc, kp)) == Rounds(Encryption(), Schedule(key), x, kp)
    {
      hide Sub, Mix, AddKey, Schedule, FNround;
      FNroundIs(b, Slot(keyEnc, kp));
    }

    lemma Backward(key: seq<Word>, x: Block, b: Block, kp: nat)
      requires Holds(key) && 1 <= kp < |key| + 6
      requires b == Rounds(Decryption(), InvSchedule(key), x, kp - 1)
      ensures INround(b, Slot(keyDec, kp)) == Rounds(Decryption(), InvSchedule(key), x, kp)
    {
      hide InvSub, InvMix, AddKey, InvSchedule, INround;
      INroundIs(b, Slot(keyDec, kp));
    }

    /** The first key addition and the last round. */
    lemma ForwardEnds(key: seq<Word>, x: Block, b: Block)
      requires Holds(key)
      ensures AddKey(x, Slot(keyEnc, 0)) == Rounds(Encryption(), Schedule(key), x, 0)
      ensures b == Rounds(Encryption(), Schedule(key), x, |key| + 5)
        ==> FLround(b, Slot(keyEnc, |key| + 6)) == Encrypted(key, x)
    {
      hide Sub, Mix, AddKey, Schedule, FLround;
      FLroundIs(b, Slot(keyEnc, |key| + 6));
    }

    lemma BackwardEnds(key: seq<Word>, x: Block, b: Block)
      requires Holds(key)
      ensures AddKey(x, Slot(keyDec, 0)) == Rounds(Decryption(), InvSchedule(key), x, 0)
      ensures b == Rounds(Decryption(), InvSchedule(key), x, |key| + 5)
        ==> ILround(b, Slot(keyDec, |key| + 6)) == Decrypted(key, x)
    {
      hide InvSub, InvMix, AddKey, InvSchedule, ILround;
      ILroundIs(b, Slot(keyDec, |key| + 6));
    }

    /** aes_encrypt */
    method Encrypt(ghost key: seq<Word>, x: Block) returns (y: Block)
      requires Shaped() && Legal(keyLength) && |key| == keyLength / 4 && Holds(key)
      ensures y == Encrypted(key, x) && x == Decrypted(key, y)
    {
      hide Holds, Rounds, AddKey, FNround, FLround, Encryption, Schedule, Encrypted, Decrypted, Slot;
      DecryptsWhatItEncrypts(key, x);
      var b0, b1, kp := AddKey(x, Slot(keyEnc, 0)), x, 1;
      ForwardEnds(key, x, b0);
      if keyLength > 24 {
        Forward(key, x, b0, kp);
        b1, kp := FNround(b0, Slot(keyEnc, kp)), kp + 1;
        Forward(key, x, b1, kp);
        b0, kp := FNround(b1, Slot(keyEnc, kp)), kp + 1;
      }
      if keyLength > 16 {
        Forward(key, x, b0, kp);
        b1, kp := FNround(b0, Slot(keyEnc, kp)), kp + 1;
        Forward(key, x, b1, kp);
        b0, kp := FNround(b1, Slot(keyEnc, kp)), kp + 1;
      }
      Forward(key, x, b0, kp);
      b1, kp := FNround(b0, Slot(keyEnc, kp)), kp + 1;
      Forward(key, x, b1, kp);
      b0, kp := FNround(b1, Slot(keyEnc, kp)), kp + 1;
      Forward(key, x, b0, kp);
      b1, kp := FNround(b0, Slot(keyEnc, kp)), kp + 1;
      Forward(key, x, b1, kp);
      b0, kp := FNround(b1, Slot(keyEnc, kp)), kp + 1;
      Forward(key, x, b0, kp);
      b1, kp := FNround(b0, Slot(keyEnc, kp)), kp + 1;
      Forward(key, x, b1, kp);
      b0, kp := FNround(b1, Slot(keyEnc, kp)), kp + 1;
      Forward(key, x, b0, kp);
      b1, kp := FNround(b0, Slot(keyEnc, kp)), kp + 1;
      Forward(key, x, b1, kp);
      b0, kp := FNround(b1, Slot(keyEnc, kp)), kp + 1;
      Forward(key, x, b0, kp);
      b1, kp := FNround(b0, Slot(keyEnc, kp)), kp + 1;
      ForwardEnds(key, x, b1);
      y := FLround(b1, Slot(keyEnc, kp));
    }

    /** aes_decrypt */
    method Decrypt(ghost key: seq<Word>, x: Block) returns (y: Block)
      requires Shaped() && Legal(keyLength) && |key| == keyLength / 4 && Holds(key)
      ensures y == Decrypted(key, x) && x == Encrypted(key, y)
    {
      hide Holds, Rounds, AddKey, INround, ILround, Decryption, InvSchedule, Encrypted, Decrypted, Slot;
      DecryptsWhatItEncrypts(key, x);
      var b0, b1, kp := AddKey(x, Slot(keyDec, 0)), x, 1;
      BackwardEnds(key, x, b0);
      if keyLength > 24 {
        Backward(key, x, b0, kp);
        b1, kp := INround(b0, Slot(keyDec, kp)), kp + 1;
        Backward(key, x, b1, kp);
        b0, kp := INround(b1, Slot(keyDec, kp)), kp + 1;
      }
      if keyLength > 16 {
        Backward(key, x, b0, kp);
        b1, kp := INround(b0, Slot(keyDec, kp)), kp + 1;
        Backward(key, x, b1, kp);
        b0, kp := INround(b1, Slot(keyDec, kp)), kp + 1;
      }
      Backward(key, x, b0, kp);
      b1, kp := INround(b0, Slot(keyDec, kp)), kp + 1;
      Backward(key, x, b1, kp);
      b0, kp := INround(b1, Slot(keyDec, kp)), kp + 1;
      Backward(key, x, b0, kp);
      b1, kp := INround(b0, Slot(keyDec, kp)), kp + 1;
      Backward(key, x, b1, kp);
      b0, kp := INround(b1, Slot(keyDec, kp)), kp + 1;
      Backward(key, x, b0, kp);
      b1, kp := INround(b0, Slot(keyDec, kp)), kp + 1;
      Backward(key, x, b1, kp);
      b0, kp := INround(b1, Slot(keyDec, kp)), kp + 1;
      Backward(key, x, b0, kp);
      b1, kp := INround(b0, Slot(keyDec, kp)), kp + 1;
      Backward(key, x, b1, kp);
      b0, kp := INround(b1, Slot(keyDec, kp)), kp + 1;
      Backward(key, x, b0, kp);
      b1, kp := INround(b0, Slot(keyDec, kp)), kp + 1;
      BackwardEnds(key, x, b1);
      y := ILround(b1, Slot(keyDec, kp));
    }
  }

  lemma TempMiddle(n: nat, t: Word)
    requires n % 8 == 4
    ensures Temp(8, n, t) == SubWord(t)
  {
    hide SubWord, Rcon;
  }

  /** t = ls_box(ror32(t, 8)) ^ rco_tab[i] */
  method Head(ghost nk: nat, ghost n: nat, i: nat, t: Word) returns (w: Word)
    requires 0 < nk && n % nk == 0 && n / nk == i + 1 && i < 10
    ensures w == Temp(nk, n, t)
  {
    hide SubWord, Xor, LsBox, Rcon;
    LsBoxIs(Ror8(t));
    RcoTabIsRcon(i);
    w := Xor(LsBox(Ror8(t)), RcoTab(i));
  }

  /** Where the decryption schedule puts word k. */
  function Opposite(last: nat, k: nat): (j: nat)
    requires last % 4 == 0 && 4 <= k < last
    ensures 4 <= j < last
  {
    last - (k - k % 4) + k % 4
  }

  lemma OppositeOnce(last: nat, k: nat, i: nat)
    requires last % 4 == 0 && 4 <= k < last && 4 <= i < last && k != i
    ensures Opposite(last, k) != Opposite(last, i)
  {
  }

  lemma OppositeSlot(last: nat, n: nat)
    requires last % 4 == 0 && 0 < n < last / 4
    ensures Opposite(last, last - 4 * n) == 4 * n && Opposite(last, last - 4 * n + 1) == 4 * n + 1
    ensures Opposite(last, last - 4 * n + 2) == 4 * n + 2 && Opposite(last, last - 4 * n + 3) == 4 * n + 3
  {
    var k := last / 4 - n;
    assert last - 4 * n == 4 * k;
    assert (4 * k) % 4 == 0 && (4 * k + 1) % 4 == 1 && (4 * k + 2) % 4 == 2 && (4 * k + 3) % 4 == 3;
  }
}
