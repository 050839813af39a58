// The two files of the database together with what they mean: the pointer
// cells, the index records and the data extents that the bytes encode, the
// lists the cells form, who owns each record, and the map stored.
module DbWorld {
  import opened Bytes
  import opened DbFormat
  import opened Tiles

  // Where an index record is: on a hash chain, on the free list, in the hands
  // of a process between two lists, or abandoned by a process that died.
  datatype Owner = OnChain(h: nat) | OnFree | HeldBy(pid: nat) | Lost

  // Whose value a data extent holds: an index record's, that of a process that
  // has not yet written its index record, or nobody's.
  datatype DataOwner = OfRec(o: nat) | Pending(pid: nat) | LostData

  datatype World = World(
    idx: bytes, dat: bytes,
    cells: map<nat, nat>,          // chain pointers, by file offset
    recs: map<nat, Rec>,           // index records, by file offset
    loc: map<nat, Owner>,
    ext: map<nat, nat>,            // data extents: offset to length
    dloc: map<nat, DataOwner>,
    chains: seq<seq<nat>>, free: seq<nat>,
    m: map<bytes, bytes>)

  ghost function IdxExt(recs: map<nat, Rec>): map<nat, nat> {
    map o | o in recs :: EncLen(recs[o])
  }

  predicate HdrCell(c: nat) { c < 828 && c % 6 == 0 }

  // The data record of r, newline included.
  function DataOf(dat: bytes, r: Rec): bytes { ReadAt(dat, r.datoff, r.datlen) }

  // The bytes of a pointer field, and of a whole index record, at an offset.
  predicate PtrAt(f: bytes, c: nat, v: nat) {
    c + 6 <= |f| && f[c..c + 6] == Pad(v, PTR_SZ)
  }

  predicate RecAt(f: bytes, o: nat, ptr: nat, r: Rec) {
    o + EncLen(r) <= |f| && f[o..o + EncLen(r)] == Enc(ptr, r)
  }

  ghost predicate HeaderOk(w: World) {
    && HDR <= |w.idx|
    && w.idx[828] == NEWLINE
    && (forall c: nat :: HdrCell(c) ==> c in w.cells && PtrAt(w.idx, c, w.cells[c]))
  }

  ghost predicate CellsOk(w: World) {
    && (forall c :: c in w.cells ==> w.cells[c] <= PTR_MAX)
    && (forall c :: c in w.cells ==> HdrCell(c) || c in w.recs)
  }

  ghost predicate RecsOk(w: World) {
    && Tiling(IdxExt(w.recs), HDR, |w.idx|)
    && (forall o :: o in w.recs ==>
          && o in w.cells && RecOk(w.recs[o])
          && HDR <= o && RecAt(w.idx, o, w.cells[o], w.recs[o]))
    && (forall a, b :: a in w.recs && b in w.recs && a < b ==> a + EncLen(w.recs[a]) <= b)
  }

  ghost predicate DatOk(w: World) {
    && Tiling(w.ext, 0, |w.dat|)
    && w.dloc.Keys == w.ext.Keys
    && (forall o :: o in w.recs ==>
          var r := w.recs[o];
          r.datoff in w.ext && w.ext[r.datoff] == r.datlen && w.dloc[r.datoff] == OfRec(o))
  }

  // Every value ends in a newline, whoever has it.
  predicate IsLine(b: bytes) { b != [] && b[|b| - 1] == NEWLINE }

  ghost predicate LinesOk(w: World) {
    forall a :: a in w.ext ==> IsLine(ReadAt(w.dat, a, w.ext[a]))
  }

  // The bytes of both files are exactly the encoding of cells, recs and ext.
  ghost predicate Rep(w: World) {
    HeaderOk(w) && CellsOk(w) && RecsOk(w) && DatOk(w) && LinesOk(w)
  }

  // ---------- reads ----------

  lemma RecAtParts(f: bytes, o: nat, ptr: nat, r: Rec)
    requires RecAt(f, o, ptr, r) && ptr <= PTR_MAX && RecOk(r)
    ensures PtrAt(f, o, ptr)
    ensures var hd := ReadAt(f, o, PTR_SZ + IDXLEN_SZ);
      |hd| == PTR_SZ + IDXLEN_SZ && Atol(hd[..PTR_SZ]) == ptr && Atol(hd[PTR_SZ..]) == BodyLen(r)
    ensures var b := ReadAt(f, o + PTR_SZ + IDXLEN_SZ, BodyLen(r));
      |b| == BodyLen(r) && ParseBody(b) == Some(r)
  {
    hide Digits, Pad, Enc, Body, ParseBody, Atol;
    RecAtFields(f, o, ptr, r);
    BodyRoundTrip(r);
  }

  lemma RecAtFields(f: bytes, o: nat, ptr: nat, r: Rec)
    requires RecAt(f, o, ptr, r) && ptr <= PTR_MAX && IDXLEN_MIN <= BodyLen(r) <= IDXLEN_MAX
    ensures PtrAt(f, o, ptr)
    ensures var hd := ReadAt(f, o, PTR_SZ + IDXLEN_SZ);
      |hd| == PTR_SZ + IDXLEN_SZ && Atol(hd[..PTR_SZ]) == ptr && Atol(hd[PTR_SZ..]) == BodyLen(r)
    ensures var b := ReadAt(f, o + PTR_SZ + IDXLEN_SZ, BodyLen(r));
      |b| == BodyLen(r) && b == Body(r)
  {
    hide Digits, Pad, Enc, Body, ParseBody, Atol;
    EncFields(ptr, r);
    BodyLength(r);
    var e := f[o..o + EncLen(r)];
    assert f[o..o + 6] == e[..6];
    assert f[o..o + 10][..6] == e[..6];
    var a, b, c := e[6..10], f[o + 6..o + 10], f[o..o + 10][6..];
    assert forall k :: 0 <= k < 4 ==> a[k] == f[o + 6 + k] && b[k] == f[o + 6 + k] && c[k] == f[o + 6 + k];
    assert a == b == c;
    assert f[o + 10..o + 10 + BodyLen(r)] == e[10..];
  }

  // Six bytes read at any pointer cell hold its value.
  lemma ReadCell(w: World, c: nat)
    requires Rep(w) && c in w.cells
    ensures |ReadAt(w.idx, c, PTR_SZ)| == PTR_SZ
    ensures Atol(ReadAt(w.idx, c, PTR_SZ)) == w.cells[c]
  {
    hide Digits, Pad, Enc, Body, Atol;
    PtrRoundTrip(w.cells[c]);
    if !HdrCell(c) {
      RecAtParts(w.idx, c, w.cells[c], w.recs[c]);
    }
  }

  // The two reads of _db_readidx at a record's offset.
  lemma ReadRec(w: World, o: nat)
    requires Rep(w) && o in w.recs
    ensures var hd := ReadAt(w.idx, o, PTR_SZ + IDXLEN_SZ);
      && |hd| == PTR_SZ + IDXLEN_SZ
      && Atol(hd[..PTR_SZ]) == w.cells[o]
      && Atol(hd[PTR_SZ..]) == BodyLen(w.recs[o])
    ensures var b := ReadAt(w.idx, o + PTR_SZ + IDXLEN_SZ, BodyLen(w.recs[o]));
      |b| == BodyLen(w.recs[o]) && ParseBody(b) == Some(w.recs[o])
  {
    hide Digits, Pad, Enc, Body, ParseBody, Atol;
    RecAtParts(w.idx, o, w.cells[o], w.recs[o]);
  }

  lemma ReadData(w: World, a: nat)
    requires DatOk(w) && a in w.ext
    ensures |ReadAt(w.dat, a, w.ext[a])| == w.ext[a]
    ensures a + w.ext[a] <= |w.dat| && ReadAt(w.dat, a, w.ext[a]) == w.dat[a..a + w.ext[a]]
  {}

  // ---------- writes ----------

  function SetPtr(w: World, c: nat, v: nat): World {
    w.(idx := WriteAt(w.idx, c, Pad(v, PTR_SZ)), cells := w.cells[c := v])
  }

  function SetRec(w: World, o: nat, ptr: nat, r: Rec): World {
    w.(idx := WriteAt(w.idx, o, Enc(ptr, r)), cells := w.cells[o := ptr], recs := w.recs[o := r])
  }

  function AddRec(w: World, ptr: nat, r: Rec, owner: Owner): World {
    var o := |w.idx|;
    w.(idx := WriteAt(w.idx, o, Enc(ptr, r)), cells := w.cells[o := ptr], recs := w.recs[o := r],
       loc := w.loc[o := owner], dloc := w.dloc[r.datoff := OfRec(o)])
  }

  function SetData(w: World, a: nat, s: bytes): World {
    w.(dat := WriteAt(w.dat, a, s))
  }

  function AddData(w: World, s: bytes, owner: DataOwner): World {
    var a := |w.dat|;
    w.(dat := WriteAt(w.dat, a, s), ext := w.ext[a := |s|], dloc := w.dloc[a := owner])
  }

  // Writing elsewhere leaves a pointer field or a record as it was.
  lemma PtrAtFrame(f: bytes, off: nat, s: bytes, c: nat, v: nat)
    requires PtrAt(f, c, v) && off <= |f|
    requires c + 6 <= off || off + |s| <= c
    ensures PtrAt(WriteAt(f, off, s), c, v)
  {
    hide Digits, Pad;
    assert forall i :: c <= i < c + 6 ==> WriteAt(f, off, s)[i] == f[i];
  }

  lemma RecAtFrame(f: bytes, off: nat, s: bytes, o: nat, ptr: nat, r: Rec)
    requires RecAt(f, o, ptr, r) && off <= |f|
    requires o + EncLen(r) <= off || off + |s| <= o
    ensures RecAt(WriteAt(f, off, s), o, ptr, r)
  {
    hide Digits, Enc;
    assert forall i :: o <= i < o + EncLen(r) ==> WriteAt(f, off, s)[i] == f[i];
  }

  lemma PtrAtWritten(f: bytes, c: nat, v: nat)
    requires c + 6 <= |f| && v <= PTR_MAX
    ensures |WriteAt(f, c, Pad(v, 6))| == |f| && PtrAt(WriteAt(f, c, Pad(v, 6)), c, v)
  {
    hide Digits, Pad, Atol;
    PtrRoundTrip(v);
    WriteInside(f, c, Pad(v, 6));
  }

  lemma RecAtWritten(f: bytes, o: nat, ptr: nat, r: Rec)
    requires o <= |f| && ptr <= PTR_MAX && RecOk(r)
    requires o + EncLen(r) <= |f| || o == |f|
    ensures RecAt(WriteAt(f, o, Enc(ptr, r)), o, ptr, r)
    ensures |WriteAt(f, o, Enc(ptr, r))| == if o == |f| then |f| + EncLen(r) else |f|
  {
    hide Digits, Pad, Enc, Body, ParseBody, Atol;
    EncParts(ptr, r);
    if o == |f| {
      WriteEnd(f, Enc(ptr, r));
    } else {
      WriteInside(f, o, Enc(ptr, r));
    }
  }

  // Rewriting the pointer field of a record rewrites only that field.
  lemma RecAtNewPtr(f: bytes, o: nat, old': nat, v: nat, r: Rec)
    requires RecAt(f, o, old', r) && old' <= PTR_MAX && v <= PTR_MAX && RecOk(r)
    ensures RecAt(WriteAt(f, o, Pad(v, 6)), o, v, r)
  {
    hide Digits, Pad, Body, Atol;
    var g := WriteAt(f, o, Pad(v, 6));
    var n := EncLen(r);
    PtrRoundTrip(v);
    PtrRoundTrip(old');
    WriteInside(f, o, Pad(v, 6));
    var rest := Pad(BodyLen(r), 4) + Body(r);
    assert Enc(old', r) == Pad(old', 6) + rest;
    assert Enc(v, r) == Pad(v, 6) + rest;
    assert f[o..o + n][6..] == rest;
    assert g[o + 6..o + n] == f[o + 6..o + n] == f[o..o + n][6..];
    assert g[o..o + n] == g[o..o + 6] + g[o + 6..o + n];
  }

  lemma SameLines(w: World, w': World)
    requires LinesOk(w) && w'.dat == w.dat && w'.ext == w.ext
    ensures LinesOk(w')
  {}

  lemma SetPtrRep(w: World, c: nat, v: nat)
    requires Rep(w) && c in w.cells && v <= PTR_MAX
    ensures Rep(SetPtr(w, c, v))
  {
    hide Digits, Pad, Enc, Body, RecOk, Atol, WriteAt, PtrAt, RecAt, Tiling, IdxExt, LinesOk;
    var w' := SetPtr(w, c, v);
    SameLines(w, w');
    CellInside(w, c);
    PtrRoundTrip(v);
    PtrAtWritten(w.idx, c, v);
    NewlineKept(w.idx, c, Pad(v, 6));
    forall d: nat | HdrCell(d)
      ensures d in w'.cells && PtrAt(w'.idx, d, w'.cells[d])
    {
      if d != c {
        PtrAtFrame(w.idx, c, Pad(v, 6), d, w.cells[d]);
      }
    }
    forall o | o in w.recs
      ensures RecAt(w'.idx, o, w'.cells[o], w.recs[o])
    {
      if o == c {
        RecAtNewPtr(w.idx, o, w.cells[o], v, w.recs[o]);
      } else {
        RecAtFrame(w.idx, c, Pad(v, 6), o, w.cells[o], w.recs[o]);
      }
    }
  }

  lemma CellInside(w: World, c: nat)
    requires Rep(w) && c in w.cells
    ensures c + 6 <= |w.idx| && (c + 6 <= 828 || HDR <= c)
    ensures c in w.recs ==> c + EncLen(w.recs[c]) <= |w.idx|
  {
    hide Digits, Pad, Enc, Body;
  }

  lemma NewlineKept(f: bytes, off: nat, s: bytes)
    requires 828 < |f| && off <= |f| && (off + |s| <= 828 || HDR <= off)
    ensures 828 < |WriteAt(f, off, s)| && WriteAt(f, off, s)[828] == f[828]
  {}

  // Writing at or after the end of the header leaves the header alone.
  lemma HeaderFrame(w: World, w': World, off: nat, s: bytes)
    requires HeaderOk(w) && HDR <= off <= |w.idx| && w'.idx == WriteAt(w.idx, off, s)
    requires forall c: nat :: HdrCell(c) ==> c in w'.cells && w'.cells[c] == w.cells[c]
    requires |w.idx| <= |w'.idx|
    ensures HeaderOk(w')
  {
    hide Digits, Pad, PtrAt;
    NewlineKept(w.idx, off, s);
    forall d: nat | HdrCell(d)
      ensures PtrAt(w'.idx, d, w.cells[d])
    {
      PtrInside(w.idx, d, w.cells[d]);
      PtrAtFrame(w.idx, off, s, d, w.cells[d]);
    }
  }

  lemma SetRecRep(w: World, o: nat, ptr: nat, r: Rec)
    requires Rep(w) && o in w.recs && ptr <= PTR_MAX && RecOk(r)
    requires EncLen(r) == EncLen(w.recs[o])
    requires r.datoff == w.recs[o].datoff && r.datlen == w.recs[o].datlen
    ensures Rep(SetRec(w, o, ptr, r))
  {
    hide Digits, Pad, Enc, Body, BodyLen, EncLen, Atol, WriteAt, PtrAt, RecAt, RecOk, ParseBody, Tiling,
      IdxExt, LinesOk;
    var w' := SetRec(w, o, ptr, r);
    SameLines(w, w');
    CellInside(w, o);
    EncParts(ptr, r);
    RecAtWritten(w.idx, o, ptr, r);
    HeaderFrame(w, w', o, Enc(ptr, r));
    IdxExtSame(w.recs, o, r);
    forall x | x in w'.recs
      ensures RecAt(w'.idx, x, w'.cells[x], w'.recs[x])
    {
      if x != o {
        RecAtFrame(w.idx, o, Enc(ptr, r), x, w.cells[x], w.recs[x]);
      }
    }
  }

  lemma AddRecRep(w: World, ptr: nat, r: Rec, owner: Owner)
    requires Rep(w) && ptr <= PTR_MAX && RecOk(r)
    requires r.datoff in w.ext && w.ext[r.datoff] == r.datlen && !w.dloc[r.datoff].OfRec?
    ensures |w.idx| !in w.recs && |w.idx| !in w.cells
    ensures Rep(AddRec(w, ptr, r, owner))
  {
    hide Digits, Pad, Enc, Body, BodyLen, EncLen, Atol, WriteAt, PtrAt, RecAt, RecOk, ParseBody, Tiling,
      IdxExt, LinesOk;
    var w' := AddRec(w, ptr, r, owner);
    SameLines(w, w');
    AddRecTiling(w, r);
    RecAtWritten(w.idx, |w.idx|, ptr, r);
    HeaderFrame(w, w', |w.idx|, Enc(ptr, r));
    forall x | x in w.recs
      ensures RecAt(w'.idx, x, w.cells[x], w.recs[x])
    {
      RecInside(w.idx, x, w.cells[x], w.recs[x]);
      RecAtFrame(w.idx, |w.idx|, Enc(ptr, r), x, w.cells[x], w.recs[x]);
    }
  }

  lemma AddRecTiling(w: World, r: Rec)
    requires RecsOk(w)
    ensures |w.idx| !in w.recs
    ensures Tiling(IdxExt(w.recs[|w.idx| := r]), HDR, |w.idx| + EncLen(r))
    ensures forall x :: x in w.recs ==> x + EncLen(w.recs[x]) <= |w.idx|
  {
    hide Digits, Pad, Enc, Body, EncLen, RecAt, RecOk, Tiling;
    var o := |w.idx|;
    EncLenPositive(r);
    TilingAppend(IdxExt(w.recs), HDR, o, EncLen(r));
    assert o !in w.recs;
    assert IdxExt(w.recs[o := r]) == IdxExt(w.recs)[o := EncLen(r)];
    forall x | x in w.recs
      ensures x + EncLen(w.recs[x]) <= o
    {
      RecInside(w.idx, x, w.cells[x], w.recs[x]);
    }
  }

  lemma EncLenPositive(r: Rec)
    ensures 0 < EncLen(r)
  {}

  lemma IdxExtSame(recs: map<nat, Rec>, o: nat, r: Rec)
    requires o in recs && EncLen(r) == EncLen(recs[o])
    ensures IdxExt(recs[o := r]) == IdxExt(recs)
  {
    hide EncLen;
  }

  lemma RecInside(f: bytes, o: nat, ptr: nat, r: Rec)
    requires RecAt(f, o, ptr, r)
    ensures o + EncLen(r) <= |f|
  {}

  lemma PtrInside(f: bytes, c: nat, v: nat)
    requires PtrAt(f, c, v)
    ensures c + 6 <= |f|
  {}

  // A value rewritten in place, or appended, leaves every other value alone.
  lemma SliceFrame(f: bytes, off: nat, s: bytes, b: nat, n: nat)
    requires off <= |f| && b + n <= |f| && (b + n <= off || off + |s| <= b)
    ensures ReadAt(WriteAt(f, off, s), b, n) == ReadAt(f, b, n)
  {
    assert forall i :: b <= i < b + n ==> WriteAt(f, off, s)[i] == f[i];
  }

  lemma SliceWritten(f: bytes, off: nat, s: bytes)
    requires off + |s| <= |f| || off == |f|
    ensures ReadAt(WriteAt(f, off, s), off, |s|) == s
    ensures |WriteAt(f, off, s)| == if off == |f| then |f| + |s| else |f|
  {
    if off == |f| {
      WriteEnd(f, s);
    } else {
      WriteInside(f, off, s);
    }
  }

  lemma SetDataRep(w: World, a: nat, s: bytes)
    requires Rep(w) && a in w.ext && |s| == w.ext[a] && IsLine(s)
    ensures Rep(SetData(w, a, s))
    ensures |SetData(w, a, s).dat| == |w.dat|
    ensures ReadAt(SetData(w, a, s).dat, a, w.ext[a]) == s
    ensures forall b {:trigger w.ext[b]} :: b in w.ext && b != a ==>
      ReadAt(SetData(w, a, s).dat, b, w.ext[b]) == ReadAt(w.dat, b, w.ext[b])
  {
    hide HeaderOk, RecsOk, CellsOk, WriteAt, ReadAt, IsLine;
    SliceWritten(w.dat, a, s);
    forall b | b in w.ext && b != a
      ensures ReadAt(WriteAt(w.dat, a, s), b, w.ext[b]) == ReadAt(w.dat, b, w.ext[b])
    {
      SliceFrame(w.dat, a, s, b, w.ext[b]);
    }
    SameIdx(w, SetData(w, a, s));
  }

  lemma ExtentInside(ext: map<nat, nat>, hi: nat, b: nat)
    requires Tiling(ext, 0, hi) && b in ext
    ensures b + ext[b] <= hi
  {}

  lemma AddDataRep(w: World, s: bytes, owner: DataOwner)
    requires Rep(w) && IsLine(s)
    ensures |w.dat| !in w.ext
    ensures Rep(AddData(w, s, owner))
    ensures |AddData(w, s, owner).dat| == |w.dat| + |s|
    ensures ReadAt(AddData(w, s, owner).dat, |w.dat|, |s|) == s
    ensures forall b {:trigger w.ext[b]} :: b in w.ext ==>
      ReadAt(AddData(w, s, owner).dat, b, w.ext[b]) == ReadAt(w.dat, b, w.ext[b])
  {
    hide HeaderOk, RecsOk, CellsOk, WriteAt, ReadAt, EncLen, RecOk, RecAt, Tiling;
    SliceWritten(w.dat, |w.dat|, s);
    TilingAppend(w.ext, 0, |w.dat|, |s|);
    forall b | b in w.ext
      ensures ReadAt(WriteAt(w.dat, |w.dat|, s), b, w.ext[b]) == ReadAt(w.dat, b, w.ext[b])
    {
      ExtentInside(w.ext, |w.dat|, b);
      SliceFrame(w.dat, |w.dat|, s, b, w.ext[b]);
    }
    SameIdx(w, AddData(w, s, owner));
  }

  lemma SameIdx(w: World, w': World)
    requires HeaderOk(w) && CellsOk(w) && RecsOk(w)
    requires w'.idx == w.idx && w'.cells == w.cells && w'.recs == w.recs
    ensures HeaderOk(w') && CellsOk(w') && RecsOk(w')
  {}

  // What the bytes encode does not depend on the lists or on the map.
  lemma SameFiles(w: World, w': World)
    requires Rep(w) && w'.idx == w.idx && w'.dat == w.dat && w'.cells == w.cells
    requires w'.recs == w.recs && w'.ext == w.ext && w'.dloc == w.dloc
    ensures Rep(w')
  {
    hide HeaderOk, CellsOk, RecsOk, Tiling, IsLine;
    SameIdx(w, w');
  }
}
