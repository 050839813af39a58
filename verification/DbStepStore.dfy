// The writing steps of db_store: taking a free record, reusing it, appending a
// new one, and linking either at the head of the chain.
module DbStepStore {
  import opened Bytes
  import opened DbFormat
  import opened DbWorld
  import opened DbMachine
  import opened DbInv
  import opened DbStable
  import opened DbStepRead
  import opened DbStepQuiet
  import opened DbStepLists
  import opened DbStepWrite
  import opened DbStepDelete

  // ---------- taking a record off the free list ----------

  ghost function WFTake(w: World, i: nat, p: Proc): World
    requires p.offset in w.free
  {
    TakeFromFree(SetPtr(w, p.saveoffset, p.ptrval), IndexOf(w.free, p.offset), i)
  }

  lemma FreeMember(w: World, o: nat)
    requires WorldOk(w) && o in w.free
    ensures o in w.loc && w.loc[o] == OnFree
    ensures forall h :: 0 <= h < NHASH ==> o !in w.chains[h] && o != ChainOff(h)
  {
    hide Rep, Linked;
    FreeRecs(w, o);
  }

  lemma TakenFreeWorld(w: World, i: nat, p: Proc)
    requires WorldOk(w) && HoldsFree(p) && AtFree(w, p) && p.ptrval == w.cells[p.offset]
    ensures forall o :: o in {p.saveoffset, p.offset} && o in w.recs ==> Owned(w, i, p, o)
    ensures forall o, h :: o in {p.saveoffset, p.offset} && 0 <= h < NHASH ==> o !in w.chains[h] && o != ChainOff(h)
    ensures var w' := WFTake(w, i, p);
      && WorldOk(w') && OnlyRecs(w, w', {p.saveoffset, p.offset}) && HeadsKept(w, w', p) && PendingKept(w, w', i)
      && |w'.idx| == |w.idx| && w'.cells == w.cells[p.saveoffset := p.ptrval]
  {
    hide Rep, ListsOk, WriteAt, ReadAt, Pad, SameRec, AllBlank, Linked, Hash, SameKeys, NoDup;
    var k := IndexOf(w.free, p.offset);
    SaveOffset(w, i, p);
    FreeMember(w, p.offset);
    CellBound(w, p.offset);
    FreeRecs(w, p.offset);
    var w1 := SetPtr(w, p.saveoffset, p.ptrval);
    var w' := WFTake(w, i, p);
    PtrChange(w, i, p.saveoffset, p.ptrval);
    TakeFromFreeLists(w1, k, i);
    SameFiles(w1, w');
    LinkedRemove(w.cells, FREE_OFF, w.free, k);
    TakenBlank(w, w', k);
    RecsMoved(w, w1, w', {p.saveoffset, p.offset});
    HeadsStay(w, w', p);
  }

  // What moves on a list of their own is no business of the other records.
  lemma RecsMoved(w: World, w1: World, w': World, t: set<nat>)
    requires ListsOk(w) && OnlyRecs(w, w1, t)
    requires w'.recs == w1.recs && w'.cells == w1.cells && w'.dat == w1.dat
    requires forall x :: x in w.recs && x !in t ==> x in w.loc && x in w'.loc && w'.loc[x] == w.loc[x]
    ensures OnlyRecs(w, w', t)
  {
    hide SameRec, ListsOk;
    forall x | x in w.recs && x !in t
      ensures SameRec(w, w', x)
    {
      SameRecMoved(w, w1, w', x);
    }
  }

  lemma HeadsStay(w: World, w': World, p: Proc)
    requires WorldOk(w) && HoldsFree(p) && w'.chains == w.chains && w'.m == w.m
    requires forall h :: 0 <= h < NHASH && ChainOff(h) in w.cells ==>
      ChainOff(h) in w'.cells && w'.cells[ChainOff(h)] == w.cells[ChainOff(h)]
    ensures HeadsKept(w, w', p)
  {
    hide Rep, Linked, Hash, SameKeys, NoDup, ChainOff, FreeInv, HoldsFree;
    forall h | 0 <= h < NHASH
      ensures ChainOff(h) in w.cells && SameKeys(w.m, w'.m, h)
    {
      StartsOutside(w, h);
      SameKeysRefl(w.m, h);
    }
  }

  lemma TakenBlank(w: World, w': World, k: nat)
    requires FreeInv(w) && NoDup(w.free) && k < |w.free| && w'.free == RemoveAt(w.free, k) && w'.recs == w.recs
    ensures forall o :: o in w'.free ==> o in w'.recs && AllBlank(w'.recs[o].key)
  {
    hide AllBlank, Linked;
    forall o | o in w'.free
      ensures o in w.free
    {
      InRemoveAt(w.free, k, o);
    }
  }

  lemma SaveOffset(w: World, i: nat, p: Proc)
    requires WorldOk(w) && HoldsFree(p) && AtFree(w, p)
    ensures p.saveoffset in w.cells && p.saveoffset != p.offset
    ensures p.saveoffset == At(FREE_OFF, w.free, IndexOf(w.free, p.offset))
    ensures p.saveoffset in w.recs ==> Owned(w, i, p, p.saveoffset)
    ensures forall h :: 0 <= h < NHASH ==> p.saveoffset !in w.chains[h] && p.saveoffset != ChainOff(h)
  {
    hide Rep, Linked, ListsOk;
    var k := IndexOf(w.free, p.offset);
    FreeRecs(w, p.offset);
    if k == 0 {
      HeaderNoRec(w, FREE_OFF);
      forall h | 0 <= h < NHASH
        ensures FREE_OFF !in w.chains[h] && FREE_OFF != ChainOff(h)
      {
        StartsOutside(w, h);
      }
      HeadCells(w, FREE_OFF);
    } else {
      assert w.free[k - 1] in w.free;
      FreeMember(w, w.free[k - 1]);
      FreeRecs(w, w.free[k - 1]);
    }
  }

  lemma StepFTake(s: Sys, w: World, i: nat)
    requires Inv(s, w) && i < |s.procs| && s.procs[i].pc.FTake?
    ensures s.procs[i].offset in w.free
    ensures Inv(DoFTake(s, i), WFTake(w, i, s.procs[i]))
    ensures Survives(DoFTake(s, i), i)
  {
    hide Inv, Hash, ChainOff, NoByte, WorldOk, LocksOk, WriteAt, ReadAt, OnlyRecs, HeadsKept, PendingKept,
      MyChain, PInv, Eff, CellsFor, PatchOf, HoldsChain, HoldsDat, HoldsTail, Pad, SameChain;
    var p := s.procs[i];
    var p' := p.(pc := FUnlockHit);
    Mine(s, w, i);
    FreeWalkOnly(w, i, p);
    TakenFreeWorld(w, i, p);
    CellBound(w, p.offset);
    var w' := WFTake(w, i, p);
    var h := HashOf(p);
    assert p.saveoffset !in w.chains[h] && p.saveoffset != ChainOff(h);
    assert p.offset !in w.chains[h] && p.offset != ChainOff(h);
    OwnChainKept(w, w', p, {p.saveoffset, p.offset});
    FreeWalkOnly(w', i, p');
    KeptMyChain(w, w', p, p');
    OwnHead(w, w', p);
    StepWrite(s, w, i, DoFTake(s, i), w', {p.saveoffset, p.offset});
  }

  // The head of its own chain, as the process read it.
  lemma OwnHead(w: World, w': World, p: Proc)
    requires |w.chains| == NHASH && |w'.chains| == NHASH && SameChain(w, w', HashOf(p))
    requires p.chainoff == ChainOff(HashOf(p)) && HasHead(w, p)
    ensures HasHead(w', p)
  {
    hide SameRec, SameKeys, Hash;
  }

  // ---------- reusing it ----------

  function WRWriteDat(w: World, p: Proc): World { SetData(w, p.datoff, StoreData(p.call)) }

  lemma StepRWriteDat(s: Sys, w: World, i: nat)
    requires Inv(s, w) && i < |s.procs| && s.procs[i].pc.RWriteDat?
    ensures Inv(DoRWriteDat(s, i), WRWriteDat(w, s.procs[i]))
  {
    hide Inv, Hash, ChainOff, NoByte, WorldOk, LocksOk, WriteAt, ReadAt, OnlyRecs, HeadsKept, PendingKept,
      MyChain, PInv, Eff, CellsFor, PatchOf, HoldsChain, HoldsDat, HoldsTail, Pad, SameChain;
    var p := s.procs[i];
    var p' := p.(pc := RWriteIdx, datlen := |StoreData(p.call)|);
    Mine(s, w, i);
    FreeWalkOnly(w, i, p);
    HeldOff(w, p.idxoff, i);
    DataChange(w, i, p, p.idxoff, StoreData(p.call));
    var w' := WRWriteDat(w, p);
    OwnChainKept(w, w', p, {p.idxoff});
    FreeWalkOnly(w', i, p');
    KeptMyChain(w, w', p, p');
    OwnHead(w, w', p);
    StepWrite(s, w, i, DoRWriteDat(s, i), w', {p.idxoff});
  }

  function WRWriteIdx(w: World, p: Proc): World {
    SetRec(w, p.idxoff, p.headval, Rec(p.call.key, p.datoff, p.datlen))
  }

  lemma StepRWriteIdx(s: Sys, w: World, i: nat)
    requires Inv(s, w) && i < |s.procs| && s.procs[i].pc.RWriteIdx?
    ensures Inv(DoRWriteIdx(s, i), WRWriteIdx(w, s.procs[i]))
    ensures Survives(DoRWriteIdx(s, i), i)
  {
    hide Inv, Hash, ChainOff, NoByte, WorldOk, LocksOk, WriteAt, ReadAt, OnlyRecs, HeadsKept, PendingKept,
      MyChain, PInv, Eff, CellsFor, PatchOf, HoldsChain, Enc, BodyLen, SameChain;
    var p := s.procs[i];
    var p' := p.(pc := LinkHead, ptrval := p.headval);
    Mine(s, w, i);
    FreeWalkOnly(w, i, p);
    HeldOff(w, p.idxoff, i);
    CellBound(w, p.chainoff);
    RecChange(w, i, p, p.idxoff, p.headval, Rec(p.call.key, p.datoff, p.datlen));
    var w' := WRWriteIdx(w, p);
    OwnChainKept(w, w', p, {p.idxoff});
    AppendOnly(w', i, p');
    KeptMyChain(w, w', p, p');
    OwnHead(w, w', p);
    StepWrite(s, w, i, DoRWriteIdx(s, i), w', {p.idxoff});
  }

  // ---------- appending ----------

  function WAWriteDat(w: World, i: nat, p: Proc): World { AddData(w, StoreData(p.call), Pending(i)) }

  lemma StepAWriteDat(s: Sys, w: World, i: nat)
    requires Inv(s, w) && i < |s.procs| && s.procs[i].pc.AWriteDat?
    ensures Inv(DoAWriteDat(s, i), WAWriteDat(w, i, s.procs[i]))
  {
    hide Inv, Hash, ChainOff, NoByte, WorldOk, LocksOk, WriteAt, ReadAt, OnlyRecs, HeadsKept, PendingKept,
      MyChain, PInv, Eff, CellsFor, PatchOf, HoldsChain, HoldsFree, SameChain;
    var p := s.procs[i];
    var p' := p.(pc := AUnlockDat);
    Mine(s, w, i);
    AppendOnly(w, i, p);
    AppendData(w, i, p, StoreData(p.call));
    var w' := WAWriteDat(w, i, p);
    OwnChainKept(w, w', p, {});
    AppendOnly(w', i, p');
    KeptMyChain(w, w', p, p');
    OwnHead(w, w', p);
    StepWrite(s, w, i, DoAWriteDat(s, i), w', {});
  }

  function WAWriteIdx(w: World, i: nat, p: Proc): World {
    AddRec(w, p.headval, Rec(p.call.key, p.datoff, p.datlen), HeldBy(i))
  }

  lemma StepAWriteIdx(s: Sys, w: World, i: nat)
    requires Inv(s, w) && i < |s.procs| && s.procs[i].pc.AWriteIdx?
    ensures Inv(DoAWriteIdx(s, i), WAWriteIdx(w, i, s.procs[i]))
  {
    hide Inv, Hash, ChainOff, NoByte, WorldOk, LocksOk, WriteAt, ReadAt, OnlyRecs, HeadsKept, PendingKept,
      MyChain, PInv, Eff, CellsFor, PatchOf, HoldsChain, HoldsFree, Enc, BodyLen, SameChain;
    var p := s.procs[i];
    var p' := p.(pc := AUnlockIdx);
    Mine(s, w, i);
    AppendOnly(w, i, p);
    CellBound(w, p.chainoff);
    AppendRec(w, i, p, p.headval, Rec(p.call.key, p.datoff, p.datlen));
    var w' := WAWriteIdx(w, i, p);
    OwnChainKept(w, w', p, {});
    AppendOnly(w', i, p');
    KeptMyChain(w, w', p, p');
    OwnHead(w, w', p);
    StepWrite(s, w, i, DoAWriteIdx(s, i), w', {});
  }

  // ---------- linking at the head of the chain ----------

  function WLinkHead(w: World, p: Proc): World
    requires |w.chains| == NHASH
  {
    PutOnChain(SetPtr(w, p.chainoff, p.idxoff), HashOf(p), p.idxoff)
  }

  lemma LinkedWorld(w: World, i: nat, p: Proc)
    requires WorldOk(w) && WritesChain(p) && p.chainoff == ChainOff(HashOf(p)) && p.idxoff <= PTR_MAX
    requires p.idxoff in w.loc && w.loc[p.idxoff] == HeldBy(i)
    ensures var w' := WLinkHead(w, p);
      && WorldOk(w') && OnlyRecs(w, w', {p.chainoff, p.idxoff}) && HeadsKept(w, w', p) && PendingKept(w, w', i)
      && |w'.idx| == |w.idx| && w'.cells == w.cells[p.chainoff := p.idxoff]
  {
    hide Rep, ListsOk, WriteAt, ReadAt, Pad, SameRec, AllBlank, Linked, Hash, SameKeys;
    var h := HashOf(p);
    StartsOutside(w, h);
    HeldOff(w, p.idxoff, i);
    var w1 := SetPtr(w, p.chainoff, p.idxoff);
    var w' := WLinkHead(w, p);
    PtrChange(w, i, p.chainoff, p.idxoff);
    PutOnChainLists(w1, h, p.idxoff, i);
    SameFiles(w1, w');
    LinkedFrame(w.cells, FREE_OFF, w.free, p.chainoff, p.idxoff);
    forall x | x in w.recs && x !in {p.chainoff, p.idxoff}
      ensures SameRec(w, w', x) && x in w.loc
    {
      assert SameRec(w, w1, x);
      SameRecMoved(w, w1, w', x);
    }
    forall g | 0 <= g < NHASH
      ensures ChainOff(g) in w.cells && FREE_OFF in w.cells && SameKeys(w.m, w'.m, g)
    {
      StartsOutside(w, g);
      SameKeysRefl(w.m, g);
    }
  }

  lemma PushedChain(w: World, i: nat, p: Proc, p': Proc)
    requires WorldOk(w) && GoodCall(p) && MyChain(w, p) && PatchOf(p).None? && PatchOf(p').None? && p'.call == p.call
    requires Eff(p, w.m) == w.m - {p.call.key} && p.call.Store?
    requires Eff(p', w.m) == w.m[p.call.key := p.call.data]
    requires HasHead(w, p) && Linkable(w, i, p)
    requires OnlyRecs(w, WLinkHead(w, p), {p.chainoff, p.idxoff})
    ensures MyChain(WLinkHead(w, p), p')
  {
    hide Rep, ListsOk, FreeInv, WriteAt, ReadAt, Pad, SameRec, Linked, Hash, SameKeys, Content, Eff, PatchOf;
    var h := HashOf(p);
    var w' := WLinkHead(w, p);
    StartsOutside(w, h);
    HeldOff(w, p.idxoff, i);
    HeaderNoRec(w, p.chainoff);
    LinkedPush(w.cells, p.chainoff, w.chains[h], p.idxoff);
    forall x | x in w.chains[h]
      ensures SameRec(w, w', x)
    {
      ChainRecs(w, h, x);
    }
    var m, m' := w.m - {p.call.key}, w.m[p.call.key := p.call.data];
    assert m' == m[p.call.key := p.call.data];
    ContentPush(w, w', h, p.idxoff, m, m', p.call.key, p.call.data);
  }

  lemma StepLinkHead(s: Sys, w: World, i: nat)
    requires Inv(s, w) && i < |s.procs| && s.procs[i].pc.LinkHead? && s.procs[i].idxoff <= PTR_MAX
    ensures |w.chains| == NHASH
    ensures Inv(DoLinkHead(s, i), WLinkHead(w, s.procs[i]))
    ensures Survives(DoLinkHead(s, i), i)
  {
    hide Inv, Hash, ChainOff, NoByte, WorldOk, LocksOk, WriteAt, ReadAt, OnlyRecs, HeadsKept, PendingKept,
      MyChain, PInv, Eff, CellsFor, PatchOf, HoldsChain, HoldsFree, Pad, SameChain, Linkable, HasHead;
    var p := s.procs[i];
    var p' := p.(pc := UnlockChain, result := Code(0));
    Mine(s, w, i);
    AppendOnly(w, i, p);
    var w' := WLinkHead(w, p);
    LinkOwned(w, i, p);
    LinkedWorld(w, i, p);
    EndOnly(w, i, p');
    EndOnly(w', i, p');
    PushedChain(w, i, p, p');
    StepWrite(s, w, i, DoLinkHead(s, i), w', {p.chainoff, p.idxoff});
  }

  lemma LinkOwned(w: World, i: nat, p: Proc)
    requires WorldOk(w) && Linkable(w, i, p) && p.chainoff == ChainOff(HashOf(p))
    ensures p.idxoff in w.loc && w.loc[p.idxoff] == HeldBy(i)
    ensures forall o :: o in {p.chainoff, p.idxoff} && o in w.recs ==> Owned(w, i, p, o)
  {
    hide WorldOk, Hash, ChainOff;
    assert HdrCell(p.chainoff) by {
      HeadOffset(HashOf(p));
    }
    HeaderNoRec(w, p.chainoff);
  }

  lemma HeadOffset(h: nat)
    requires h < NHASH
    ensures HdrCell(ChainOff(h))
  {}
}
