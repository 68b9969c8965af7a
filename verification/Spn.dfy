/**
 Table-driven block ciphers of substitution-permutation type, and the Equivalent Inverse
 Cipher of section 5.3.5 of FIPS-197: decryption runs the very same sequence of steps as
 encryption, with inverse tables and a reversed, mixed key schedule.
 */
module Spn {

  /** One direction of a cipher: the table lookup layer and the linear layer behind it. */
  datatype Layers<!S> = Layers(sub: S -> S, mix: S -> S, add: (S, S) -> S)

  /** The state after n full rounds. */
  function Rounds<S>(l: Layers<S>, keys: seq<S>, x: S, n: nat): (s: S)
    requires n < |keys|
    decreases n
  {
    if n == 0 then l.add(x, keys[0])
    else l.add(l.mix(l.sub(Rounds(l, keys, x, n - 1))), keys[n])
  }

  /** |keys| - 1 rounds, the last one without the linear layer. */
  function Cipher<S>(l: Layers<S>, keys: seq<S>, x: S): (y: S)
    requires |keys| >= 2
  {
    l.add(l.sub(Rounds(l, keys, x, |keys| - 2)), keys[|keys| - 1])
  }

  /** The schedule of the other direction: reversed, with the inner keys put through its linear layer. */
  function InverseKeys<S>(mix: S -> S, keys: seq<S>): (ks: seq<S>)
    requires |keys| >= 2
    ensures |ks| == |keys|
  {
    seq(|keys|, i requires 0 <= i < |keys| =>
      if i == 0 || i == |keys| - 1 then keys[|keys| - 1 - i] else mix(keys[|keys| - 1 - i]))
  }

  /** m undoes l layer by layer, and its linear layer distributes over key addition. */
  ghost predicate Undoes<S(!new)>(l: Layers<S>, m: Layers<S>) {
    && (forall x :: m.sub(l.sub(x)) == x)
    && (forall x :: m.mix(l.mix(x)) == x)
    && (forall x, k :: m.mix(l.add(x, k)) == l.add(m.mix(x), m.mix(k)))
    && (forall x, k :: l.add(l.add(x, k), k) == x)
    && m.add == l.add
  }

  /** After n rounds back, decryption holds what encryption fed into the linear layer n rounds before the end. */
  lemma {:induction false} RoundsBack<S(!new)>(l: Layers<S>, m: Layers<S>, keys: seq<S>, x: S, n: nat)
    requires Undoes(l, m) && |keys| >= 2 && n <= |keys| - 2
    ensures Rounds(m, InverseKeys(m.mix, keys), Cipher(l, keys, x), n) == l.sub(Rounds(l, keys, x, |keys| - 2 - n))
    decreases n
  {
    var ks := InverseKeys(m.mix, keys);
    var R := |keys| - 1;
    if n > 0 {
      var s := Rounds(l, keys, x, R - n);
      var t := Rounds(l, keys, x, R - 1 - n);
      RoundsBack(l, m, keys, x, n - 1);
      assert Rounds(m, ks, Cipher(l, keys, x), n - 1) == l.sub(s);
      assert s == l.add(l.mix(l.sub(t)), keys[R - n]);
      assert ks[n] == m.mix(keys[R - n]);
      calc {
        m.add(m.mix(m.sub(l.sub(s))), ks[n]);
        l.add(m.mix(s), m.mix(keys[R - n]));
        m.mix(l.add(s, keys[R - n]));
        m.mix(l.mix(l.sub(t)));
        l.sub(t);
      }
    }
  }

  /** The Equivalent Inverse Cipher decrypts. */
  lemma CipherUndone<S(!new)>(l: Layers<S>, m: Layers<S>, keys: seq<S>, x: S)
    requires Undoes(l, m) && |keys| >= 2
    ensures Cipher(m, InverseKeys(m.mix, keys), Cipher(l, keys, x)) == x
  {
    RoundsBack(l, m, keys, x, |keys| - 2);
  }
}
