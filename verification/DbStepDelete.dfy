// The writing steps of _db_dodelete, and the same-length replacement.
module DbStepDelete {
  import opened Bytes
  import opened DbFormat
  import opened DbWorld
  import opened DbMachine
  import opened DbInv
  import opened DbStable
  import opened DbStepRead
  import opened DbStepQuiet
  import opened DbStepLists
  import opened DbStepWrite

  // The chain of the process is not among what it touched.
  lemma OwnChainKept(w: World, w': World, p: Proc, t: set<nat>)
    requires WorldOk(w) && |w'.chains| == NHASH && OnlyRecs(w, w', t)
    requires var h := HashOf(p);
      && w'.chains[h] == w.chains[h] && w'.m == w.m
      && (forall o :: o in t ==> o !in w.chains[h] && o != ChainOff(h))
      && (forall c :: c in w.cells && c !in t ==> c in w'.cells && w'.cells[c] == w.cells[c])
    ensures SameChain(w, w', HashOf(p))
  {
    hide SameRec, ReadAt, DataOf, Rep, ListsOk, FreeInv, Hash, SameKeys;
    var h := HashOf(p);
    StartsOutside(w, h);
    forall x | x in w.chains[h]
      ensures SameRec(w, w', x)
    {
      ChainRecs(w, h, x);
    }
    assert SameKeys(w.m, w'.m, h) by {
      SameKeysRefl(w.m, h);
    }
  }

  lemma SameKeysRefl(m: Map, h: nat)
    ensures SameKeys(m, m, h)
  {}

  // A step that leaves its chain alone keeps what it knows about it.
  lemma KeptMyChain(w: World, w': World, p: Proc, p': Proc)
    requires |w.chains| == NHASH && |w'.chains| == NHASH
    requires MyChain(w, p) && SameChain(w, w', HashOf(p)) && p'.call == p.call
    requires PatchOf(p') == PatchOf(p) && Eff(p', w'.m) == Eff(p, w.m)
    ensures MyChain(w', p')
  {
    hide Content, SameKeys, Eff, PatchOf, Hash, SameRec;
    var h := HashOf(p);
    SameKeysRefl(Eff(p, w.m), h);
    StableContent(w, w', h, Eff(p, w.m), Eff(p', w'.m));
    forall k | 0 <= k <= |w.chains[h]|
      ensures At(ChainOff(h), w.chains[h], k) in CellsFor(w', p')
      ensures CellsFor(w', p')[At(ChainOff(h), w.chains[h], k)] == CellsFor(w, p)[At(ChainOff(h), w.chains[h], k)]
    {
      ChainCells(w, w', h, k);
    }
    StableLinked(CellsFor(w, p), CellsFor(w', p'), ChainOff(h), w.chains[h]);
  }

  // A record being held is on no list.
  lemma HeldOff(w: World, o: nat, q: nat)
    requires WorldOk(w) && o in w.loc && w.loc[o] == HeldBy(q)
    ensures o !in w.free && (forall h :: 0 <= h < NHASH ==> o !in w.chains[h] && o != ChainOff(h))
    ensures o in w.recs && o in w.cells && HDR <= o && o != FREE_OFF
  {
    hide Rep, FreeInv;
    assert o in w.loc.Keys;
    RecFacts(w, o);
  }

  // ---------- same-length replacement ----------

  function WOverWrite(w: World, p: Proc): World { SetData(w, p.datoff, StoreData(p.call)) }

  lemma StepOverWrite(s: Sys, w: World, i: nat)
    requires Inv(s, w) && i < |s.procs| && s.procs[i].pc.OverWrite?
    ensures Inv(DoOverWrite(s, i), WOverWrite(w, s.procs[i]))
  {
    hide PInv, Eff, PatchOf, HoldsChain, HoldsFree, HoldsDat, HoldsTail, Inv, Hash, ChainOff, NoByte, WorldOk,
      LocksOk, WriteAt, ReadAt, OnlyRecs, HeadsKept, PendingKept, Linked, Content;
    var p := s.procs[i];
    var p' := p.(pc := UnlockChain, result := Code(0));
    var h := HashOf(p);
    var o := p.offset;
    Mine(s, w, i);
    WalkOnly(w, i, p);
    FoundData(w, p);
    DataChange(w, i, p, o, StoreData(p.call));
    var w' := WOverWrite(w, p);
    EndOnly(w', i, p');
    OnChainRec(w, h, o);
    OverwriteContent(w, w', h, o, p.call.data);
    StepWrite(s, w, i, DoOverWrite(s, i), w', {o});
  }

  lemma OnChainRec(w: World, h: nat, o: nat)
    requires WorldOk(w) && h < NHASH && o in w.chains[h]
    ensures o in w.loc && w.loc[o] == OnChain(h)
  {
    hide Rep, FreeInv;
  }

  lemma OverwriteContent(w: World, w': World, h: nat, o: nat, data: bytes)
    requires WorldOk(w) && h < |w'.chains| && h < NHASH && o in w.chains[h] && o in w.recs
    requires Content(w, h, w.m) && w'.chains == w.chains && w'.recs == w.recs && OnlyRecs(w, w', {o})
    requires DataOf(w'.dat, w.recs[o]) == data + [NEWLINE]
    ensures Content(w', h, w.m[w.recs[o].key := data])
  {
    hide Rep, ListsOk, FreeInv, SameRec, Content, DataOf;
    forall x | x in w.chains[h] && x != o
      ensures SameRec(w, w', x)
    {
      ChainRecs(w, h, x);
    }
    ContentOverwrite(w, w', h, o, w.m, data);
  }

  // ---------- blanking the value, and taking the record off its chain ----------

  ghost function WDWriteDat(w: World, i: nat, p: Proc): World
    requires |w.chains| == NHASH && p.offset in w.chains[HashOf(p)]
  {
    TakeFromChain(SetData(w, p.datoff, BlankData(p.datlen)), HashOf(p), IndexOf(w.chains[HashOf(p)], p.offset), i)
  }

  lemma Unlinked(w: World, w': World, p: Proc, p': Proc)
    requires WorldOk(w) && |w'.chains| == NHASH && GoodCall(p) && Found(w, p) && MyChain(w, p)
    requires PatchOf(p).None? && PatchOf(p') == Some((p.ptroff, p.ptrval)) && p'.call == p.call
    requires Eff(p, w.m) == w.m && w'.m == w.m && Eff(p', w.m) == w.m - {p.call.key}
    requires var h := HashOf(p);
      w'.chains[h] == RemoveAt(w.chains[h], IndexOf(w.chains[h], p.offset)) && w'.cells == w.cells
    requires OnlyRecs(w, w', {p.offset})
    ensures MyChain(w', p')
    ensures p.ptroff == p.chainoff || p.ptroff in w'.chains[HashOf(p)]
    ensures p.offset <= PTR_MAX
  {
    hide Hash, Rep, ListsOk, FreeInv, DataOf, SameRec, Eff, PatchOf, Content;
    var h := HashOf(p);
    var c := w.chains[h];
    var k := IndexOf(c, p.offset);
    ChainRecs(w, h, p.offset);
    StartsOutside(w, h);
    LinkedRemove(w.cells, ChainOff(h), c, k);
    forall x | x in c && x != c[k]
      ensures SameRec(w, w', x)
    {
      ChainRecs(w, h, x);
    }
    ContentRemove(w, w', h, k, w.m);
    assert w.cells[At(ChainOff(h), c, k)] == Nth(c, k);
    CellBound(w, At(ChainOff(h), c, k));
    if k > 0 {
      InRemoveAt(c, k, c[k - 1]);
      assert c[k - 1] in c && c[k - 1] != c[k];
    }
  }

  lemma CellBound(w: World, c: nat)
    requires WorldOk(w) && c in w.cells
    ensures w.cells[c] <= PTR_MAX
  {
    hide HeaderOk, RecsOk, DatOk, ListsOk, FreeInv;
  }

  // The record off its chain is in the process's hands.
  lemma TakenWorld(w: World, h: nat, k: nat, i: nat)
    requires WorldOk(w) && h < NHASH && k < |w.chains[h]|
    ensures WorldOk(TakeFromChain(w, h, k, i))
  {
    hide Rep, Linked, AllBlank, ListsOk;
    TakeFromChainLists(w, h, k, i);
    SameFiles(w, TakeFromChain(w, h, k, i));
  }

  lemma TakeOffChain(w: World, i: nat, p: Proc)
    requires WorldOk(w) && GoodCall(p) && Found(w, p) && p.datlen == w.recs[p.offset].datlen && WritesChain(p)
    ensures var w' := WDWriteDat(w, i, p);
      && WorldOk(w') && OnlyRecs(w, w', {p.offset}) && HeadsKept(w, w', p) && PendingKept(w, w', i)
          && |w'.dat| == |w.dat|
    ensures |BlankData(p.datlen)| == p.datlen
  {
    hide Hash, ChainOff, NoByte, Rep, ListsOk, FreeInv, WriteAt, ReadAt, HeadsKept, PendingKept, OnlyRecs,
      Blanks;
    var h := HashOf(p);
    var b := BlankData(p.datlen);
    RecFacts(w, p.offset);
    BlankLength(p.datlen);
    DataChange(w, i, p, p.offset, b);
    var w1 := SetData(w, p.datoff, b);
    TakenWorld(w1, h, IndexOf(w.chains[h], p.offset), i);
    MovedRecs(w, w1, WDWriteDat(w, i, p), p.offset);
    MovedPending(w, w1, WDWriteDat(w, i, p), i);
    TakenHeads(w, w1, WDWriteDat(w, i, p), p);
  }

  lemma MovedPending(w: World, w1: World, w': World, i: nat)
    requires PendingKept(w, w1, i) && w'.dloc == w1.dloc && w'.ext == w1.ext && w'.dat == w1.dat
    ensures PendingKept(w, w', i)
  {
    hide ReadAt;
  }

  lemma FoundKey(w: World, p: Proc)
    requires |w.chains| == NHASH && Found(w, p) && MyChain(w, p) && Eff(p, w.m) == w.m
    ensures p.call.key in w.m
  {
    hide Linked, Hash, DataOf;
  }

  lemma StepDWriteDat(s: Sys, w: World, i: nat)
    requires Inv(s, w) && i < |s.procs| && s.procs[i].pc.DWriteDat?
    ensures |w.chains| == NHASH && s.procs[i].offset in w.chains[HashOf(s.procs[i])]
    ensures Inv(DoDWriteDat(s, i), WDWriteDat(w, i, s.procs[i]))
  {
    hide PInv, Eff, PatchOf, HoldsChain, HoldsFree, HoldsDat, HoldsTail, Inv, Hash, ChainOff, NoByte, WorldOk,
      LocksOk, WriteAt, ReadAt, HeadsKept, PendingKept, OnlyRecs, Linked, Content, MyChain, Blanks, BlankData;
    var p := s.procs[i];
    Mine(s, w, i);
    DeleteOnly(w, i, p);
    TakeOffChain(w, i, p);
    OnChainRec(w, HashOf(p), p.offset);
    FoundKey(w, p);
    CellBound(w, p.offset);
    var p' := p.(pc := DReadFree, datlen := |BlankData(p.datlen)|);
    DeleteOnly(WDWriteDat(w, i, p), i, p');
    Unlinked(w, WDWriteDat(w, i, p), p, p');
    StepWrite(s, w, i, DoDWriteDat(s, i), WDWriteDat(w, i, p), {p.offset});
  }

  lemma BlankLength(n: nat)
    requires DATLEN_MIN <= n
    ensures |BlankData(n)| == n && IsLine(BlankData(n))
  {}

  // Moving a touched record between lists touches nothing else.
  lemma MovedRecs(w: World, w1: World, w': World, o: nat)
    requires OnlyRecs(w, w1, {o})
    requires w'.recs == w1.recs && w'.cells == w1.cells && w'.dat == w1.dat
    requires forall x :: x in w1.loc && x != o ==> x in w'.loc && w'.loc[x] == w1.loc[x]
    ensures OnlyRecs(w, w', {o})
  {
    hide DataOf;
    forall x | x in w.recs && x !in {o}
      ensures SameRec(w, w', x) && x in w.loc && x in w'.loc && w'.loc[x] == w.loc[x]
    {
      assert SameRec(w, w1, x);
    }
  }

  lemma TakenHeads(w: World, w1: World, w': World, p: Proc)
    requires |w.chains| == NHASH && |w1.chains| == NHASH && |w'.chains| == NHASH
    requires HeadsKept(w, w1, p) && WritesChain(p)
    requires w'.cells == w1.cells && w'.free == w1.free && w'.m == w1.m
    requires forall h :: 0 <= h < NHASH && h != HashOf(p) ==> w'.chains[h] == w1.chains[h]
    ensures HeadsKept(w, w', p)
  {
    hide SameKeys, Hash, ChainOff;
  }

  // ---------- rewriting the record as a free one ----------

  function WDWriteIdx(w: World, p: Proc): World {
    SetRec(w, p.idxoff, p.freeptr, Rec(p.idxbuf, p.datoff, p.datlen))
  }

  lemma StepDWriteIdx(s: Sys, w: World, i: nat)
    requires Inv(s, w) && i < |s.procs| && s.procs[i].pc.DWriteIdx?
    ensures Inv(DoDWriteIdx(s, i), WDWriteIdx(w, s.procs[i]))
    ensures Survives(DoDWriteIdx(s, i), i)
  {
    hide PInv, Eff, PatchOf, HoldsChain, HoldsFree, HoldsDat, HoldsTail, Inv, Hash, ChainOff, NoByte, WorldOk,
      LocksOk, WriteAt, ReadAt, OnlyRecs, HeadsKept, PendingKept, MyChain, Blanks, BodyLen, Enc, SameChain;
    var p := s.procs[i];
    var p' := p.(pc := DWriteFree, ptrval := p.freeptr);
    Mine(s, w, i);
    DeleteOnly(w, i, p);
    HeldOff(w, p.idxoff, i);
    CellBound(w, FREE_OFF);
    BlankKey(|p.call.key|);
    RecChange(w, i, p, p.idxoff, p.freeptr, Rec(p.idxbuf, p.datoff, p.datlen));
    var w' := WDWriteIdx(w, p);
    DeleteOnly(w', i, p');
    OwnChainKept(w, w', p, {p.idxoff});
    KeptMyChain(w, w', p, p');
    StepWrite(s, w, i, DoDWriteIdx(s, i), w', {p.idxoff});
  }

  lemma BlankKey(n: nat)
    ensures KeyOk(Blanks(n))
  {}

  // ---------- pushing it on the free list ----------

  function WDWriteFree(w: World, p: Proc): World { PutOnFree(SetPtr(w, FREE_OFF, p.idxoff), p.idxoff) }

  lemma StepDWriteFree(s: Sys, w: World, i: nat)
    requires Inv(s, w) && i < |s.procs| && s.procs[i].pc.DWriteFree?
    ensures Inv(DoDWriteFree(s, i), WDWriteFree(w, s.procs[i]))
    ensures Survives(DoDWriteFree(s, i), i)
  {
    hide PInv, Eff, PatchOf, HoldsChain, HoldsFree, HoldsDat, HoldsTail, Inv, Hash, ChainOff, NoByte, WorldOk,
      LocksOk, WriteAt, ReadAt, OnlyRecs, HeadsKept, PendingKept, MyChain, Blanks, Pad, SameChain;
    var p := s.procs[i];
    var p' := p.(pc := DUnlink);
    Mine(s, w, i);
    DeleteOnly(w, i, p);
    HeldOff(w, p.idxoff, i);
    HeaderNoRec(w, FREE_OFF);
    FreedWorld(w, i, p);
    var w' := WDWriteFree(w, p);
    DeleteOnly(w', i, p');
    StartsOutside(w, HashOf(p));
    OwnChainKept(w, w', p, {FREE_OFF, p.idxoff});
    KeptMyChain(w, w', p, p');
    StepWrite(s, w, i, DoDWriteFree(s, i), w', {FREE_OFF, p.idxoff});
  }

  lemma FreedWorld(w: World, i: nat, p: Proc)
    requires WorldOk(w) && HoldsFree(p)
    requires p.idxoff in w.loc && w.loc[p.idxoff] == HeldBy(i) && p.idxoff <= PTR_MAX
    requires p.idxoff in w.cells && FREE_OFF in w.cells && w.cells[p.idxoff] == w.cells[FREE_OFF]
    requires p.idxoff in w.recs && AllBlank(w.recs[p.idxoff].key)
    ensures var w' := WDWriteFree(w, p);
      && WorldOk(w') && OnlyRecs(w, w', {FREE_OFF, p.idxoff}) && HeadsKept(w, w', p) && PendingKept(w, w', i)
      && |w'.idx| == |w.idx| && w'.cells == w.cells[FREE_OFF := p.idxoff]
  {
    hide Rep, ListsOk, WriteAt, ReadAt, Pad, SameRec, AllBlank, Linked, Hash, SameKeys;
    var w1 := SetPtr(w, FREE_OFF, p.idxoff);
    var w' := WDWriteFree(w, p);
    PtrChange(w, i, FREE_OFF, p.idxoff);
    PutOnFreeLists(w1, p.idxoff, i);
    SameFiles(w1, w');
    HeldOff(w, p.idxoff, i);
    FreeRecs(w, FREE_OFF);
    LinkedPush(w.cells, FREE_OFF, w.free, p.idxoff);
    forall x | x in w.recs && x !in {FREE_OFF, p.idxoff}
      ensures SameRec(w, w', x) && x in w.loc
    {
      assert SameRec(w, w1, x);
      SameRecMoved(w, w1, w', x);
    }
    forall h | 0 <= h < NHASH
      ensures ChainOff(h) in w.cells && ChainOff(h) != FREE_OFF && SameKeys(w.m, w'.m, h)
    {
      StartsOutside(w, h);
      SameKeysRefl(w.m, h);
    }
  }

  lemma SameRecMoved(w: World, w1: World, w': World, x: nat)
    requires SameRec(w, w1, x)
    requires w'.recs == w1.recs && w'.cells == w1.cells && w'.dat == w1.dat
    ensures SameRec(w, w', x)
  {
    hide DataOf;
  }

  // ---------- unlinking it from its chain ----------

  function WDUnlink(w: World, p: Proc): World { SetPtr(w, p.ptroff, p.saveptr) }

  lemma StepDUnlink(s: Sys, w: World, i: nat)
    requires Inv(s, w) && i < |s.procs| && s.procs[i].pc.DUnlink?
    ensures Inv(DoDUnlink(s, i), WDUnlink(w, s.procs[i]))
    ensures Survives(DoDUnlink(s, i), i)
  {
    hide PInv, Eff, PatchOf, HoldsChain, HoldsFree, HoldsDat, HoldsTail, Inv, Hash, ChainOff, NoByte, WorldOk,
      LocksOk, WriteAt, ReadAt, OnlyRecs, HeadsKept, PendingKept, MyChain, Blanks, Pad, SameChain;
    var p := s.procs[i];
    var p' := p.(pc := DUnlockFree);
    Mine(s, w, i);
    DeleteOnly(w, i, p);
    UnlinkedWorld(w, i, p);
    var w' := WDUnlink(w, p);
    DeleteOnly(w', i, p');
    PatchedChain(w, w', p, p');
    StepWrite(s, w, i, DoDUnlink(s, i), w', {p.ptroff});
  }

  lemma UnlinkedWorld(w: World, i: nat, p: Proc)
    requires WorldOk(w) && WritesChain(p) && GoodCall(p) && p.saveptr <= PTR_MAX
    requires p.ptroff == p.chainoff || p.ptroff in w.chains[HashOf(p)]
    ensures p.ptroff in w.cells
    ensures p.ptroff in w.recs ==> Owned(w, i, p, p.ptroff)
    ensures var w' := WDUnlink(w, p);
      && WorldOk(w') && OnlyRecs(w, w', {p.ptroff}) && HeadsKept(w, w', p) && PendingKept(w, w', i)
      && |w'.idx| == |w.idx| && w'.cells == w.cells[p.ptroff := p.saveptr]
  {
    hide Rep, ListsOk, WriteAt, ReadAt, Pad, SameRec, AllBlank, Linked, Hash, SameKeys, OnlyRecs, PendingKept;
    var h := HashOf(p);
    StartsOutside(w, h);
    ChainRecs(w, h, p.ptroff);
    PtrOwned(w, i, p);
    PtrChange(w, i, p.ptroff, p.saveptr);
    LinkedFrame(w.cells, FREE_OFF, w.free, p.ptroff, p.saveptr);
    forall g | 0 <= g < NHASH
      ensures ChainOff(g) in w.cells && (ChainOff(g) == p.ptroff ==> g == h) && SameKeys(w.m, w.m, g)
      ensures FREE_OFF != p.ptroff && FREE_OFF in w.cells
    {
      StartsOutside(w, g);
      SameKeysRefl(w.m, g);
    }
  }

  // The cell that leads to the record is the chain's head or in another of
  // its records; either way no other list has it.
  lemma PtrOwned(w: World, i: nat, p: Proc)
    requires WorldOk(w) && WritesChain(p) && GoodCall(p)
    requires p.ptroff == p.chainoff || p.ptroff in w.chains[HashOf(p)]
    ensures p.ptroff !in w.free && p.ptroff != FREE_OFF
    ensures p.ptroff in w.recs ==> Owned(w, i, p, p.ptroff)
    ensures forall g :: 0 <= g < NHASH && ChainOff(g) == p.ptroff ==> g == HashOf(p)
  {
    hide Rep, FreeInv, Hash;
    StartsOutside(w, HashOf(p));
    if p.ptroff in w.chains[HashOf(p)] {
      RecFacts(w, p.ptroff);
    } else {
      HeaderNoRec(w, p.ptroff);
    }
  }

  lemma HeaderNoRec(w: World, c: nat)
    requires WorldOk(w) && HdrCell(c)
    ensures c !in w.recs
  {
    if c in w.recs {
      RecFacts(w, c);
    }
  }

  // Performing the pending pointer write completes the unlinking.
  lemma PatchedChain(w: World, w': World, p: Proc, p': Proc)
    requires |w.chains| == NHASH && w'.chains == w.chains
    requires MyChain(w, p) && PatchOf(p) == Some((p.ptroff, p.saveptr)) && PatchOf(p').None? && p'.call == p.call
    requires w'.cells == w.cells[p.ptroff := p.saveptr] && w'.recs == w.recs && w'.dat == w.dat
    requires Eff(p', w'.m) == Eff(p, w.m)
    ensures MyChain(w', p')
  {
    hide Hash, DataOf, PatchOf, Eff;
    var h := HashOf(p);
    forall key | key in Eff(p, w.m) && Hash(key) == h
      ensures HasKey(w', w'.chains[h], key)
    {
      assert HasKey(w, w.chains[h], key);
    }
  }
}
