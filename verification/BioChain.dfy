/**
 The bios of a request and what it means to complete some bytes of them, front to back.
 */
module BioChain {
  import S = Segments

  /** A vector; its address counts bv_offset in. */
  type Vec = S.Vec

  /** The vector without its first n bytes. */
  function Cut(v: Vec, n: nat): (w: Vec)
    requires n <= v.len
  {
    v.(phys := v.phys + n, len := v.len - n)
  }

  /** The three fail-fast bits. */
  datatype Ff = Ff(dev: bool, transport: bool, driver: bool)

  /**
   vecs are the vectors from bi_idx on.  ff are the fail-fast bits of bi_rw, and claim is how
   eager to fail the bio was when its request took it in.
   */
  datatype Bio = Bio(id: nat, sector: nat, size: nat, vecs: seq<Vec>, uptodate: bool, ahead: bool, ff: Ff, claim: Ff,
                     route: Route)

  /** Where data goes and how: the direction, the disk, direct I/O and integrity protection. */
  datatype Route = Route(write: bool, disk: nat, direct: bool, integrity: bool)

  /** A call of bio_endio. */
  datatype End = End(id: nat, error: int)

  const EIO: int := -5

  function Lens(vecs: seq<Vec>): (n: nat) {
    if vecs == [] then 0 else vecs[0].len + Lens(vecs[1..])
  }

  function Sizes(bios: seq<Bio>): (n: nat) {
    if bios == [] then 0 else bios[0].size + Sizes(bios[1..])
  }

  ghost predicate VecsOk(vecs: seq<Vec>) {
    forall i :: 0 <= i < |vecs| ==> vecs[i].len > 0
  }

  /** A data bio: whole sectors, and as many bytes as its vectors hold. */
  ghost predicate BioOk(b: Bio) {
    b.size > 0 && b.size % 512 == 0 && VecsOk(b.vecs) && Lens(b.vecs) == b.size
  }

  ghost predicate BiosOk(bios: seq<Bio>) {
    forall i :: 0 <= i < |bios| ==> BioOk(bios[i])
  }

  lemma WholeSectorsAdd(a: nat, b: nat)
    requires a % 512 == 0 && b % 512 == 0
    ensures (a + b) % 512 == 0 && (a + b) / 512 == a / 512 + b / 512
  {
  }

  // ----- completing bytes -----

  /** The vectors without their first n bytes. */
  function TrimVecs(vecs: seq<Vec>, n: nat): (r: seq<Vec>) {
    if n == 0 || vecs == [] then vecs
    else if n >= vecs[0].len then TrimVecs(vecs[1..], n - vecs[0].len)
    else [Cut(vecs[0], n)] + vecs[1..]
  }

  /** The bio without its first n bytes; a failure is remembered in it. */
  function Trim(b: Bio, n: nat, error: int): (r: Bio)
    requires n < b.size
  {
    if n == 0 then b
    else b.(size := b.size - n, sector := b.sector + n / 512, vecs := TrimVecs(b.vecs, n),
            uptodate := b.uptodate && error == 0)
  }

  /** What bio_endio is told when the last bytes of a bio complete with error. */
  function Verdict(b: Bio, error: int): (e: int) {
    if error != 0 then error else if !b.uptodate then EIO else 0
  }

  /** What is left of the bios. */
  function Advance(bios: seq<Bio>, n: nat, error: int): (r: seq<Bio>) {
    if bios == [] then []
    else if n >= bios[0].size then Advance(bios[1..], n - bios[0].size, error)
    else [Trim(bios[0], n, error)] + bios[1..]
  }

  /** The bios that end, in order. */
  function Ends(bios: seq<Bio>, n: nat, error: int): (r: seq<End>) {
    if bios == [] || n < bios[0].size then []
    else [End(bios[0].id, Verdict(bios[0], error))] + Ends(bios[1..], n - bios[0].size, error)
  }

  // ----- trimming -----

  lemma {:induction false} TrimVecsOk(vecs: seq<Vec>, n: nat)
    requires VecsOk(vecs) && n <= Lens(vecs)
    ensures VecsOk(TrimVecs(vecs, n)) && Lens(TrimVecs(vecs, n)) == Lens(vecs) - n
  {
    if n > 0 && vecs != [] {
      if n >= vecs[0].len {
        TrimVecsOk(vecs[1..], n - vecs[0].len);
      } else {
        var r := [Cut(vecs[0], n)] + vecs[1..];
        assert r[1..] == vecs[1..];
      }
    }
  }

  lemma {:induction false} TrimVecsAdds(vecs: seq<Vec>, a: nat, b: nat)
    requires VecsOk(vecs)
    ensures TrimVecs(TrimVecs(vecs, a), b) == TrimVecs(vecs, a + b)
    decreases |vecs|
  {
    if a > 0 && vecs != [] {
      if a >= vecs[0].len {
        TrimVecsAdds(vecs[1..], a - vecs[0].len, b);
      } else {
        var r := [Cut(vecs[0], a)] + vecs[1..];
        assert r[1..] == vecs[1..];
      }
    }
  }

  lemma TrimOk(b: Bio, n: nat, error: int)
    requires BioOk(b) && n < b.size && n % 512 == 0
    ensures BioOk(Trim(b, n, error))
  {
    TrimVecsOk(b.vecs, n);
  }

  lemma TrimAdds(b: Bio, m: nat, n: nat, error: int)
    requires BioOk(b) && m + n < b.size && m % 512 == 0
    ensures Trim(Trim(b, m, error), n, error) == Trim(b, m + n, error)
  {
    TrimVecsAdds(b.vecs, m, n);
  }

  lemma {:induction false} AdvanceOk(bios: seq<Bio>, n: nat, error: int)
    requires BiosOk(bios) && n % 512 == 0
    ensures BiosOk(Advance(bios, n, error))
    ensures Sizes(Advance(bios, n, error)) == if n <= Sizes(bios) then Sizes(bios) - n else 0
    ensures Advance(bios, n, error) == [] <==> Sizes(bios) <= n
  {
    if bios != [] {
      assert BioOk(bios[0]);
      if n >= bios[0].size {
        AdvanceOk(bios[1..], n - bios[0].size, error);
      } else {
        TrimOk(bios[0], n, error);
        var r := Advance(bios, n, error);
        assert r[1..] == bios[1..];
      }
    }
  }

  /** Completing m and then n bytes is completing m + n: the same bios remain and the same bios end. */
  lemma {:induction false} AdvanceAdds(bios: seq<Bio>, m: nat, n: nat, error: int)
    requires BiosOk(bios) && m % 512 == 0
    ensures Advance(Advance(bios, m, error), n, error) == Advance(bios, m + n, error)
    ensures Ends(bios, m, error) + Ends(Advance(bios, m, error), n, error) == Ends(bios, m + n, error)
    decreases |bios|
  {
    if bios != [] {
      var b := bios[0];
      assert BioOk(b);
      if m >= b.size {
        AdvanceAdds(bios[1..], m - b.size, n, error);
        WholeAdds(bios, m, n, error);
      } else {
        PartAdds(bios, m, n, error);
      }
    }
  }

  /** Enough bytes for the first bio end it and leave the rest to the others. */
  lemma FirstEnds(bios: seq<Bio>, n: nat, error: int)
    requires bios != [] && n >= bios[0].size
    ensures Advance(bios, n, error) == Advance(bios[1..], n - bios[0].size, error)
    ensures Ends(bios, n, error) ==
      [End(bios[0].id, Verdict(bios[0], error))] + Ends(bios[1..], n - bios[0].size, error)
  {
  }

  lemma WholeAdds(bios: seq<Bio>, m: nat, n: nat, error: int)
    requires bios != [] && m >= bios[0].size
    requires Advance(Advance(bios[1..], m - bios[0].size, error), n, error) ==
        Advance(bios[1..], m + n - bios[0].size, error)
    requires var rest := bios[1..]; var k := m - bios[0].size;
      Ends(rest, k, error) + Ends(Advance(rest, k, error), n, error) == Ends(rest, k + n, error)
    ensures Advance(Advance(bios, m, error), n, error) == Advance(bios, m + n, error)
    ensures Ends(bios, m, error) + Ends(Advance(bios, m, error), n, error) == Ends(bios, m + n, error)
  {
    hide Advance, Ends, Verdict;
    var rest := bios[1..];
    var k := m - bios[0].size;
    var first := [End(bios[0].id, Verdict(bios[0], error))];
    var tail := Ends(Advance(rest, k, error), n, error);
    FirstEnds(bios, m, error);
    FirstEnds(bios, m + n, error);
    assert k + n == m + n - bios[0].size;
    assert (first + Ends(rest, k, error)) + tail == first + (Ends(rest, k, error) + tail);
  }

  lemma PartAdds(bios: seq<Bio>, m: nat, n: nat, error: int)
    requires bios != [] && m < bios[0].size && BioOk(bios[0]) && m % 512 == 0
    ensures Advance(Advance(bios, m, error), n, error) == Advance(bios, m + n, error)
    ensures Ends(bios, m, error) + Ends(Advance(bios, m, error), n, error) == Ends(bios, m + n, error)
  {
    var mid := Advance(bios, m, error);
    assert mid[0] == Trim(bios[0], m, error) && mid[1..] == bios[1..];
    assert mid[0].size == bios[0].size - m && mid[0].id == bios[0].id;
    assert Verdict(mid[0], error) == Verdict(bios[0], error);
    hide BioOk, Trim, Verdict;
    if m + n < bios[0].size {
      TrimAdds(bios[0], m, n, error);
    }
  }

  /** Every bio either ends or remains, in the old order: none is lost, none ends twice. */
  lemma {:induction false} AdvanceConserves(bios: seq<Bio>, n: nat, error: int)
    ensures var k := |Ends(bios, n, error)|; var r := Advance(bios, n, error);
      && k + |r| == |bios|
      && (forall i :: 0 <= i < k ==> Ends(bios, n, error)[i].id == bios[i].id)
      && (forall i :: 0 <= i < k ==>
            Ends(bios, n, error)[i].error == if error != 0 then error else if bios[i].uptodate then 0 else -5)
      && (forall i :: 0 <= i < |r| ==> r[i].id == bios[k + i].id)
      && (forall i :: 1 <= i < |r| ==> r[i] == bios[k + i])
  {
    if bios != [] && n >= bios[0].size {
      AdvanceConserves(bios[1..], n - bios[0].size, error);
    }
  }

  lemma SizesAppend(s: seq<Bio>, t: seq<Bio>)
    ensures Sizes(s + t) == Sizes(s) + Sizes(t)
  {
    if s == [] {
      assert s + t == t;
    } else {
      assert (s + t)[1..] == s[1..] + t;
    }
  }

  lemma {:induction false} LensTake(vecs: seq<Vec>, k: nat)
    requires k < |vecs|
    ensures Lens(vecs[..k + 1]) == Lens(vecs[..k]) + vecs[k].len
    ensures Lens(vecs[..k]) + Lens(vecs[k..]) == Lens(vecs)
  {
    if k > 0 {
      LensTake(vecs[1..], k - 1);
      assert vecs[..k + 1][1..] == vecs[1..][..k];
      assert vecs[..k][1..] == vecs[1..][..k - 1];
    }
  }
}
