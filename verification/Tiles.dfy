// Extents that partition a range of file offsets: the records of the index
// file after its header, and the values of the data file.
module Tiles {

  // ext maps the first offset of an extent to its length.
  ghost predicate Covers(ext: map<nat, nat>, a: nat, i: int) {
    a in ext && a <= i < a + ext[a]
  }

  ghost predicate Covered(ext: map<nat, nat>, i: int) {
    exists a :: Covers(ext, a, i)
  }

  ghost predicate Tiling(ext: map<nat, nat>, lo: nat, hi: nat) {
    && lo <= hi
    && (forall a :: a in ext ==> 0 < ext[a] && lo <= a && a + ext[a] <= hi)
    && (forall a, b :: a in ext && b in ext && a < b ==> a + ext[a] <= b)
    && (forall i :: lo <= i < hi ==> Covered(ext, i))
  }

  lemma TilingAppend(ext: map<nat, nat>, lo: nat, hi: nat, len: nat)
    requires Tiling(ext, lo, hi) && 0 < len
    ensures hi !in ext
    ensures Tiling(ext[hi := len], lo, hi + len)
  {
    var e := ext[hi := len];
    forall i | lo <= i < hi + len
      ensures Covered(e, i)
    {
      if i < hi {
        assert Covered(ext, i);
        var a :| Covers(ext, a, i);
        assert Covers(e, a, i);
      } else {
        assert Covers(e, hi, i);
      }
    }
  }

  // Where one extent ends, the next begins or the range ends.
  lemma TilingNext(ext: map<nat, nat>, lo: nat, hi: nat, a: nat)
    requires Tiling(ext, lo, hi) && a in ext
    ensures a + ext[a] == hi || a + ext[a] in ext
  {
    var n := a + ext[a];
    if n < hi {
      assert Covered(ext, n);
      var b :| Covers(ext, b, n);
      assert b == n;
    }
  }

  lemma TilingFirst(ext: map<nat, nat>, lo: nat, hi: nat)
    requires Tiling(ext, lo, hi)
    ensures lo == hi || lo in ext
  {
    if lo < hi {
      assert Covered(ext, lo);
      var a :| Covers(ext, a, lo);
    }
  }
}
