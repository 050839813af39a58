// What each kind of write does to the world, before any list changes.
module DbStepWrite {
  import opened Bytes
  import opened DbFormat
  import opened DbWorld
  import opened DbMachine
  import opened DbInv
  import opened DbStable
  import opened DbStepLists

  lemma RecFacts(w: World, o: nat)
    requires WorldOk(w) && o in w.recs
    ensures o in w.cells && o in w.loc && HDR <= o && RecOk(w.recs[o])
    ensures w.recs[o].datoff in w.ext && w.ext[w.recs[o].datoff] == w.recs[o].datlen
    ensures w.recs[o].datoff in w.dloc && w.dloc[w.recs[o].datoff] == OfRec(o)
  {
    hide RecAt, HeaderOk, CellsOk, RecOk, FreeInv;
    assert w.dloc.Keys == w.ext.Keys;
    assert o in w.loc.Keys;
  }

  lemma ExtFacts(w: World, a: nat)
    requires WorldOk(w)
    ensures a in w.dloc <==> a in w.ext
    ensures a in w.ext ==> 0 < w.ext[a] && a + w.ext[a] <= |w.dat|
  {
    hide HeaderOk, CellsOk, RecsOk, FreeInv, ListsOk;
    assert w.dloc.Keys == w.ext.Keys;
    assert a in w.dloc.Keys <==> a in w.dloc;
  }

  lemma HeadsUntouched(w: World, w': World, p: Proc)
    requires WorldOk(w)
    requires w'.chains == w.chains && w'.free == w.free && w'.m == w.m
    requires forall c: nat :: HdrCell(c) && c in w.cells ==> c in w'.cells && w'.cells[c] == w.cells[c]
    ensures HeadsKept(w, w', p)
  {
    hide RecsOk, DatOk, ListsOk, FreeInv, Hash, PtrAt;
    assert HdrCell(FREE_OFF);
    forall h | 0 <= h < NHASH
      ensures ChainOff(h) in w.cells && ChainOff(h) in w'.cells && w'.cells[ChainOff(h)] == w.cells[ChainOff(h)]
    {
      assert HdrCell(ChainOff(h));
    }
  }

  // ---------- a value rewritten in place ----------

  lemma DataChange(w: World, i: nat, p: Proc, o: nat, s: bytes)
    requires WorldOk(w) && o in w.recs && |s| == w.recs[o].datlen && IsLine(s)
    ensures var w' := SetData(w, w.recs[o].datoff, s);
      && WorldOk(w') && OnlyRecs(w, w', {o}) && HeadsKept(w, w', p) && PendingKept(w, w', i)
      && DataOf(w'.dat, w.recs[o]) == s && |w'.dat| == |w.dat|
  {
    hide WorldOk, HeadsKept, ReadAt, WriteAt;
    var a := w.recs[o].datoff;
    var w' := SetData(w, a, s);
    RecFacts(w, o);
    DataChangeOk(w, a, s);
    HeadsUntouched(w, w', p);
    forall x | x in w.recs && x != o
      ensures SameRec(w, w', x) && x in w.loc
    {
      RecFacts(w, x);
      assert w.ext[w.recs[x].datoff] == w.recs[x].datlen;
    }
    forall b | b in w.dloc && w.dloc[b].Pending?
      ensures b in w.ext && ReadAt(w'.dat, b, w.ext[b]) == ReadAt(w.dat, b, w.ext[b])
    {
      ExtFacts(w, b);
      assert b != a;
    }
  }

  lemma DataChangeOk(w: World, a: nat, s: bytes)
    requires WorldOk(w) && a in w.ext && |s| == w.ext[a] && IsLine(s)
    ensures WorldOk(SetData(w, a, s))
    ensures |SetData(w, a, s).dat| == |w.dat|
    ensures ReadAt(SetData(w, a, s).dat, a, w.ext[a]) == s
    ensures forall b {:trigger w.ext[b]} :: b in w.ext && b != a ==>
      ReadAt(SetData(w, a, s).dat, b, w.ext[b]) == ReadAt(w.dat, b, w.ext[b])
  {
    hide Rep, ReadAt, WriteAt, Linked, AllBlank;
    SetDataRep(w, a, s);
  }

  // ---------- a pointer field rewritten ----------

  lemma PtrChange(w: World, i: nat, c: nat, v: nat)
    requires WorldOk(w) && c in w.cells && v <= PTR_MAX
    ensures var w' := SetPtr(w, c, v);
      Rep(w') && ListsOk(w') && OnlyRecs(w, w', {c}) && PendingKept(w, w', i) && |w'.idx| == |w.idx|
  {
    hide Rep, ListsOk, FreeInv, ReadAt, WriteAt, Pad;
    var w' := SetPtr(w, c, v);
    SetPtrRep(w, c, v);
    PtrLength(w, c, v);
    PtrLists(w, c, v);
    forall x | x in w.recs && x != c
      ensures SameRec(w, w', x) && x in w.loc
    {
      RecFacts(w, x);
    }
    forall b | b in w.dloc
      ensures b in w.ext
    {
      ExtFacts(w, b);
    }
  }

  lemma PtrLists(w: World, c: nat, v: nat)
    requires ListsOk(w)
    ensures ListsOk(SetPtr(w, c, v))
  {
    hide WriteAt, Pad;
  }

  lemma PtrLength(w: World, c: nat, v: nat)
    requires WorldOk(w) && c in w.cells && v <= PTR_MAX
    ensures |SetPtr(w, c, v).idx| == |w.idx|
  {
    hide RecAt, PtrAt, Pad, DatOk, RecOk, ListsOk, FreeInv, Atol;
    CellInside(w, c);
    PtrRoundTrip(v);
  }

  // ---------- an index record rewritten in place ----------

  lemma RecChange(w: World, i: nat, p: Proc, o: nat, ptr: nat, r: Rec)
    requires WorldOk(w) && o in w.recs && ptr <= PTR_MAX
    requires o in w.loc && w.loc[o] == HeldBy(i)
    requires KeyOk(r.key) && |r.key| == |w.recs[o].key| && r.datoff == w.recs[o].datoff && r.datlen == w.recs[o].datlen
    ensures var w' := SetRec(w, o, ptr, r);
      && WorldOk(w') && OnlyRecs(w, w', {o}) && HeadsKept(w, w', p) && PendingKept(w, w', i) && |w'.idx| == |w.idx|
    ensures IDXLEN_MIN <= BodyLen(r) <= IDXLEN_MAX
  {
    hide Rep, ListsOk, FreeInv, ReadAt, WriteAt, Enc, HeadsKept, EncLen, BodyLen;
    var w' := SetRec(w, o, ptr, r);
    RecFacts(w, o);
    SameLength(w.recs[o], r);
    SetRecRep(w, o, ptr, r);
    RecLength(w, o, ptr, r);
    RecLists(w, i, o, ptr, r);
    RecFree(w, i, o, ptr, r);
    HeadsUntouched(w, w', p);
    forall x | x in w.recs && x != o
      ensures SameRec(w, w', x) && x in w.loc
    {
      RecFacts(w, x);
    }
    forall b | b in w.dloc
      ensures b in w.ext
    {
      ExtFacts(w, b);
    }
  }

  lemma SameLength(r: Rec, r': Rec)
    requires |r'.key| == |r.key| && r'.datoff == r.datoff && r'.datlen == r.datlen
    ensures BodyLen(r') == BodyLen(r) && EncLen(r') == EncLen(r)
    ensures RecOk(r) && KeyOk(r'.key) ==> RecOk(r')
  {}

  lemma RecLists(w: World, i: nat, o: nat, ptr: nat, r: Rec)
    requires ListsOk(w) && o in w.recs
    ensures ListsOk(SetRec(w, o, ptr, r))
  {
    hide WriteAt, Enc;
    assert w.recs[o := r].Keys == w.recs.Keys;
  }

  lemma RecFree(w: World, i: nat, o: nat, ptr: nat, r: Rec)
    requires WorldOk(w) && o in w.loc && w.loc[o] == HeldBy(i) && HDR <= o
    ensures FreeInv(SetRec(w, o, ptr, r))
  {
    hide WriteAt, Enc, Rep, AllBlank;
    assert o !in w.free;
    LinkedFrame(w.cells, FREE_OFF, w.free, o, ptr);
  }

  lemma RecLength(w: World, o: nat, ptr: nat, r: Rec)
    requires WorldOk(w) && o in w.recs && ptr <= PTR_MAX && RecOk(r) && EncLen(r) == EncLen(w.recs[o])
    ensures |SetRec(w, o, ptr, r).idx| == |w.idx|
  {
    hide RecAt, PtrAt, Enc, DatOk, ListsOk, FreeInv, EncLen, WriteAt;
    CellInside(w, o);
    RecAtWritten(w.idx, o, ptr, r);
    EncLenPositive(r);
  }

  // ---------- appending ----------

  lemma AppendData(w: World, i: nat, p: Proc, s: bytes)
    requires WorldOk(w) && IsLine(s)
    ensures var w' := AddData(w, s, Pending(i));
      && WorldOk(w') && OnlyRecs(w, w', {}) && HeadsKept(w, w', p) && PendingKept(w, w', i)
      && ReadAt(w'.dat, |w.dat|, |s|) == s
  {
    hide WorldOk, HeadsKept, ReadAt, WriteAt;
    var w' := AddData(w, s, Pending(i));
    AppendDataOk(w, i, s);
    HeadsUntouched(w, w', p);
    forall x | x in w.recs
      ensures SameRec(w, w', x) && x in w.loc
    {
      RecFacts(w, x);
      assert w.ext[w.recs[x].datoff] == w.recs[x].datlen;
    }
    forall b | b in w.dloc
      ensures b in w.ext && b != |w.dat|
    {
      ExtFacts(w, b);
    }
  }

  lemma AppendDataOk(w: World, i: nat, s: bytes)
    requires WorldOk(w) && IsLine(s)
    ensures |w.dat| !in w.ext
    ensures WorldOk(AddData(w, s, Pending(i)))
    ensures ReadAt(AddData(w, s, Pending(i)).dat, |w.dat|, |s|) == s
    ensures forall b {:trigger w.ext[b]} :: b in w.ext ==>
      ReadAt(AddData(w, s, Pending(i)).dat, b, w.ext[b]) == ReadAt(w.dat, b, w.ext[b])
  {
    hide Rep, ReadAt, WriteAt, Linked, AllBlank;
    AddDataRep(w, s, Pending(i));
  }

  lemma AppendRec(w: World, i: nat, p: Proc, ptr: nat, r: Rec)
    requires WorldOk(w) && ptr <= PTR_MAX && RecOk(r)
    requires r.datoff in w.ext && w.ext[r.datoff] == r.datlen
    requires r.datoff in w.dloc && w.dloc[r.datoff] == Pending(i)
    ensures var w' := AddRec(w, ptr, r, HeldBy(i));
      WorldOk(w') && OnlyRecs(w, w', {}) && HeadsKept(w, w', p) && PendingKept(w, w', i)
    ensures |w.idx| !in w.recs && |w.idx| !in w.cells
  {
    hide Rep, ListsOk, FreeInv, HeadsKept, ReadAt, WriteAt, Enc, RecOk, BodyLen;
    var o := |w.idx|;
    var w' := AddRec(w, ptr, r, HeldBy(i));
    AddRecRep(w, ptr, r, HeldBy(i));
    AppendLists(w, i, ptr, r);
    AppendFree(w, i, ptr, r);
    assert forall c: nat :: c in w.cells ==> c in w'.cells && w'.cells[c] == w.cells[c];
    HeadsUntouched(w, w', p);
    forall x | x in w.recs
      ensures SameRec(w, w', x) && x in w.loc
    {
      RecFacts(w, x);
    }
    forall b | b in w.dloc
      ensures b in w.ext
    {
      ExtFacts(w, b);
    }
  }

  lemma AppendLists(w: World, i: nat, ptr: nat, r: Rec)
    requires ListsOk(w) && |w.idx| !in w.recs
    ensures ListsOk(AddRec(w, ptr, r, HeldBy(i)))
  {
    hide WriteAt, Enc;
    var o := |w.idx|;
    var w' := AddRec(w, ptr, r, HeldBy(i));
    assert o !in w.loc;
    assert w'.loc.Keys == w.loc.Keys + {o};
    assert w'.recs.Keys == w.recs.Keys + {o};
  }

  lemma AppendFree(w: World, i: nat, ptr: nat, r: Rec)
    requires WorldOk(w) && |w.idx| !in w.recs
    ensures FreeInv(AddRec(w, ptr, r, HeldBy(i)))
  {
    hide WriteAt, Enc, AllBlank, RecAt, PtrAt;
    var o := |w.idx|;
    assert o !in w.free;
    LinkedFrame(w.cells, FREE_OFF, w.free, o, ptr);
  }
}
