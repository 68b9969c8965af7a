/**
 Optional values and lists without repetition, which stand for the kernel's pointers and list heads,
 and the larger of two numbers.
 */
module Lists {

  datatype Option<T> = None | Some(value: T)

  function Max(a: int, b: int): (c: int) { if a < b then b else a }

  ghost predicate NoDup<T(!new)>(s: seq<T>) {
    forall i, j :: 0 <= i < j < |s| ==> s[i] != s[j]
  }

  /** The list without x. */
  function Without(l: seq<nat>, x: nat): (r: seq<nat>) {
    if l == [] then [] else if l[0] == x then l[1..] else [l[0]] + Without(l[1..], x)
  }

  lemma NoDupCons(x: nat, s: seq<nat>)
    ensures NoDup([x] + s) <==> NoDup(s) && x !in s
    ensures forall y :: y in [x] + s <==> y == x || y in s
  {
    var t := [x] + s;
    if NoDup(t) {
      forall i, j | 0 <= i < j < |s|
        ensures s[i] != s[j]
      {
        assert t[i + 1] == s[i] && t[j + 1] == s[j];
      }
      forall i | 0 <= i < |s|
        ensures s[i] != x
      {
        assert t[0] == x && t[i + 1] == s[i];
      }
    }
  }

  lemma {:induction false} WithoutOk(l: seq<nat>, x: nat)
    requires NoDup(l)
    ensures NoDup(Without(l, x)) && forall y :: y in Without(l, x) <==> y in l && y != x
  {
    hide NoDup;
    if l != [] {
      assert l == [l[0]] + l[1..];
      NoDupCons(l[0], l[1..]);
      WithoutOk(l[1..], x);
      NoDupCons(l[0], Without(l[1..], x));
    }
  }
}
