// The remaining steps that write nothing: deleting, searching the free list
// and appending, up to their writes.
module DbStepQuiet {
  import opened Bytes
  import opened DbFormat
  import opened DbWorld
  import opened DbMachine
  import opened DbInv
  import opened DbStepRead

  lemma StepDLockFree(s: Sys, w: World, i: nat)
    requires Inv(s, w) && i < |s.procs| && s.procs[i].pc.DLockFree?
    requires Grantable(s.locks, FreeLock(i))
    ensures Inv(Acquire(s, i, s.procs[i].(pc := DWriteDat), FreeLock(i)), w)
  {
    hide Inv, Hash, ChainOff, NoByte, WorldOk, LocksOk, MyChain, Grantable;
    Mine(s, w, i);
    StepAcquire(s, w, i, s.procs[i].(pc := DWriteDat), FreeList);
  }

  lemma HeadCells(w: World, c: nat)
    requires WorldOk(w) && HdrCell(c)
    ensures c in w.cells && w.cells[c] <= PTR_MAX
  {
    hide PtrAt, RecsOk, DatOk, ListsOk, FreeInv;
  }

  lemma StepDReadFree(s: Sys, w: World, i: nat)
    requires Inv(s, w) && i < |s.procs| && s.procs[i].pc.DReadFree?
    ensures Inv(DoDReadFree(s, i), w)
    ensures Survives(DoDReadFree(s, i), i)
  {
    hide Inv, Hash, ChainOff, NoByte, WorldOk, LocksOk, MyChain, GetPtr;
    var p := s.procs[i];
    Mine(s, w, i);
    HeadCells(w, FREE_OFF);
    GetCell(w, FREE_OFF);
    StepBecome(s, w, i, p.(pc := DWriteIdx, freeptr := w.cells[FREE_OFF], saveptr := p.ptrval));
  }

  lemma StepDUnlockFree(s: Sys, w: World, i: nat)
    requires Inv(s, w) && i < |s.procs| && s.procs[i].pc.DUnlockFree?
    ensures Inv(DoDUnlockFree(s, i), w)
  {
    hide Inv, Hash, ChainOff, NoByte, WorldOk, LocksOk, MyChain, PInv, Eff, CellsFor, HoldsChain;
    var p := s.procs[i];
    Mine(s, w, i);
    UnlockFreeOnly(w, i, p);
    if p.call.Store? {
      AppendOnly(w, i, p.(pc := AReadHead));
      StepRelease(s, w, i, p.(pc := AReadHead), FreeList);
    } else {
      EndOnly(w, i, p.(pc := UnlockChain, result := Code(0)));
      StepRelease(s, w, i, p.(pc := UnlockChain, result := Code(0)), FreeList);
    }
  }

  lemma UnlockFreeOnly(w: World, i: nat, p: Proc)
    requires |w.chains| == NHASH && p.pc.DUnlockFree?
    ensures PInv(w, i, p) <==> GoodCall(p) && WillDelete(p) && p.call.key in w.m
    ensures Eff(p, w.m) == w.m - {p.call.key} && CellsFor(w, p) == w.cells && HoldsChain(p)
  {}

  lemma StepAReadHead(s: Sys, w: World, i: nat)
    requires Inv(s, w) && i < |s.procs| && s.procs[i].pc.AReadHead?
    ensures Inv(DoGetHead(s, i, ALockDat), w)
    ensures Survives(DoGetHead(s, i, ALockDat), i)
  {
    hide Inv, Hash, NoByte, WorldOk, LocksOk, MyChain, GetPtr;
    var p := s.procs[i];
    Mine(s, w, i);
    HeadCells(w, p.chainoff);
    GetCell(w, p.chainoff);
    StepBecome(s, w, i, p.(pc := ALockDat, headval := w.cells[p.chainoff]));
  }

  lemma StepSReadHead(s: Sys, w: World, i: nat)
    requires Inv(s, w) && i < |s.procs| && s.procs[i].pc.SReadHead?
    ensures Inv(DoGetHead(s, i, FLockFree), w)
    ensures Survives(DoGetHead(s, i, FLockFree), i)
  {
    hide Inv, Hash, NoByte, WorldOk, LocksOk, MyChain, GetPtr;
    var p := s.procs[i];
    Mine(s, w, i);
    HeadCells(w, p.chainoff);
    GetCell(w, p.chainoff);
    assert w.m - {p.call.key} == w.m;
    StepBecome(s, w, i, p.(pc := FLockFree, headval := w.cells[p.chainoff]));
  }

  // ---------- _db_findfree ----------

  // The invariant at the counters of one part of the program is that part's.
  lemma AppendOnly(w: World, i: nat, p: Proc)
    requires |w.chains| == NHASH
    requires p.pc.AReadHead? || p.pc.ALockDat? || p.pc.ASeekDat? || p.pc.AWriteDat? || p.pc.AUnlockDat?
      || p.pc.ALockIdx? || p.pc.ASeekIdx? || p.pc.AWriteIdx? || p.pc.AUnlockIdx? || p.pc.LinkHead?
    ensures PInv(w, i, p) <==> GoodCall(p) && AppendInv(w, i, p)
    ensures Eff(p, w.m) == w.m - {p.call.key} && CellsFor(w, p) == w.cells && PatchOf(p).None? && HoldsChain(p)
    ensures !HoldsFree(p)
  {}

  lemma DeleteOnly(w: World, i: nat, p: Proc)
    requires |w.chains| == NHASH
    requires p.pc.DWriteDat? || p.pc.DReadFree? || p.pc.DWriteIdx? || p.pc.DWriteFree? || p.pc.DUnlink?
      || p.pc.DUnlockFree?
    ensures PInv(w, i, p) <==> GoodCall(p) && DeleteInv(w, i, p)
    ensures Eff(p, w.m) == if p.pc.DWriteDat? then w.m else w.m - {p.call.key}
    ensures HoldsChain(p) && HoldsFree(p) && !HoldsDat(p) && !HoldsTail(p)
    ensures p.pc.DWriteDat? || p.pc.DUnlockFree? ==> CellsFor(w, p) == w.cells && PatchOf(p).None?
    ensures p.pc.DReadFree? ==> PatchOf(p) == Some((p.ptroff, p.ptrval))
    ensures p.pc.DWriteIdx? || p.pc.DWriteFree? || p.pc.DUnlink? ==> PatchOf(p) == Some((p.ptroff, p.saveptr))
  {}

  lemma EndOnly(w: World, i: nat, p: Proc)
    requires |w.chains| == NHASH && p.pc.UnlockChain?
    ensures PInv(w, i, p) <==> GoodCall(p) && p.result == SpecResult(w.m, p.call)
    ensures Eff(p, w.m) == SpecMap(w.m, p.call) && CellsFor(w, p) == w.cells && PatchOf(p).None? && HoldsChain(p)
    ensures !HoldsFree(p) && !HoldsDat(p) && !HoldsTail(p)
  {}

  lemma FreeWalkOnly(w: World, i: nat, p: Proc)
    requires |w.chains| == NHASH
    requires
      || p.pc.FReadFree? || p.pc.FWalk1? || p.pc.FWalk2? || p.pc.FTake?
      || p.pc.FUnlockHit? || p.pc.FUnlockMiss? || p.pc.RWriteDat? || p.pc.RWriteIdx?
    ensures PInv(w, i, p) <==> GoodCall(p) && FreeWalkInv(w, i, p)
    ensures Eff(p, w.m) == w.m - {p.call.key} && CellsFor(w, p) == w.cells && PatchOf(p).None? && HoldsChain(p)
    ensures !HoldsDat(p) && !HoldsTail(p)
  {}

  lemma StepFLockFree(s: Sys, w: World, i: nat)
    requires Inv(s, w) && i < |s.procs| && s.procs[i].pc.FLockFree?
    requires Grantable(s.locks, FreeLock(i))
    ensures Inv(Acquire(s, i, s.procs[i].(pc := FReadFree), FreeLock(i)), w)
  {
    hide Inv, Hash, ChainOff, NoByte, WorldOk, LocksOk, MyChain, Grantable;
    Mine(s, w, i);
    StepAcquire(s, w, i, s.procs[i].(pc := FReadFree), FreeList);
  }

  lemma StepFReadFree(s: Sys, w: World, i: nat)
    requires Inv(s, w) && i < |s.procs| && s.procs[i].pc.FReadFree?
    ensures Inv(DoFReadFree(s, i), w)
    ensures Survives(DoFReadFree(s, i), i)
  {
    hide Inv, Hash, ChainOff, NoByte, WorldOk, LocksOk, MyChain, GetPtr;
    var p := s.procs[i];
    Mine(s, w, i);
    HeadCells(w, FREE_OFF);
    GetCell(w, FREE_OFF);
    var v := w.cells[FREE_OFF];
    FreeRecs(w, v);
    FollowStart(w.cells, FREE_OFF, w.free);
    StepBecome(s, w, i, p.(pc := if v == 0 then FUnlockMiss else FWalk1, saveoffset := FREE_OFF, offset := v));
  }

  lemma StepFWalk1(s: Sys, w: World, i: nat)
    requires Inv(s, w) && i < |s.procs| && s.procs[i].pc.FWalk1?
    ensures Inv(DoFWalk1(s, i), w)
    ensures Survives(DoFWalk1(s, i), i)
  {
    hide Inv, Hash, ChainOff, NoByte, WorldOk, LocksOk, MyChain, ReadFront, BodyLen;
    var p := s.procs[i];
    Mine(s, w, i);
    GetFront(w, p, FWalk2);
    StepBecome(s, w, i, p.(pc := FWalk2, idxoff := p.offset, ptrval := w.cells[p.offset],
        idxlen := BodyLen(w.recs[p.offset])));
  }

  lemma StepFWalk2(s: Sys, w: World, i: nat)
    requires Inv(s, w) && i < |s.procs| && s.procs[i].pc.FWalk2?
    ensures Inv(DoFWalk2(s, i), w)
    ensures Survives(DoFWalk2(s, i), i)
  {
    hide Inv, Hash, ChainOff, NoByte, WorldOk, LocksOk, MyChain, ReadRest, BodyLen, Linked, PInv, Eff,
      CellsFor, HoldsChain, HoldsDat, HoldsTail;
    var p := s.procs[i];
    Mine(s, w, i);
    FreeWalkOnly(w, i, p);
    GetRest(w, p);
    var r := w.recs[p.offset];
    var p1 := p.(idxbuf := r.key, datoff := r.datoff, datlen := r.datlen);
    if |r.key| == |p.call.key| && r.datlen == |StoreData(p.call)| {
      FreeWalkOnly(w, i, p1.(pc := FTake));
      StepBecome(s, w, i, p1.(pc := FTake));
    } else {
      FreeRecs(w, p.offset);
      FreeRecs(w, p.ptrval);
      Follow(w.cells, FREE_OFF, w.free, p.offset);
      var p2 := p1.(pc := if p.ptrval == 0 then FUnlockMiss else FWalk1, saveoffset := p.offset, offset := p.ptrval);
      FreeWalkOnly(w, i, p2);
      StepBecome(s, w, i, p2);
    }
  }

  lemma StepFUnlockHit(s: Sys, w: World, i: nat)
    requires Inv(s, w) && i < |s.procs| && s.procs[i].pc.FUnlockHit?
    ensures Inv(Release(s, i, s.procs[i].(pc := RWriteDat), FreeLock(i)), w)
  {
    hide Inv, Hash, ChainOff, NoByte, WorldOk, LocksOk, MyChain, PInv, Eff, CellsFor, HoldsChain, HoldsDat,
      HoldsTail;
    var p := s.procs[i];
    Mine(s, w, i);
    FreeWalkOnly(w, i, p);
    FreeWalkOnly(w, i, p.(pc := RWriteDat));
    StepRelease(s, w, i, p.(pc := RWriteDat), FreeList);
  }

  lemma StepFUnlockMiss(s: Sys, w: World, i: nat)
    requires Inv(s, w) && i < |s.procs| && s.procs[i].pc.FUnlockMiss?
    ensures Inv(Release(s, i, s.procs[i].(pc := ALockDat), FreeLock(i)), w)
  {
    hide Inv, Hash, ChainOff, NoByte, WorldOk, LocksOk, MyChain, PInv, Eff, CellsFor, HoldsChain;
    var p := s.procs[i];
    Mine(s, w, i);
    FreeWalkOnly(w, i, p);
    AppendOnly(w, i, p.(pc := ALockDat));
    StepRelease(s, w, i, p.(pc := ALockDat), FreeList);
  }

  // ---------- appending ----------

  lemma StepALockDat(s: Sys, w: World, i: nat)
    requires Inv(s, w) && i < |s.procs| && s.procs[i].pc.ALockDat?
    requires Grantable(s.locks, DatLock(i))
    ensures Inv(Acquire(s, i, s.procs[i].(pc := ASeekDat), DatLock(i)), w)
  {
    hide Inv, Hash, ChainOff, NoByte, WorldOk, LocksOk, MyChain, PInv, Eff, CellsFor, HoldsChain, HoldsFree,
      Grantable;
    var p := s.procs[i];
    Mine(s, w, i);
    AppendOnly(w, i, p);
    AppendOnly(w, i, p.(pc := ASeekDat));
    StepAcquire(s, w, i, p.(pc := ASeekDat), DataFile);
  }

  lemma StepASeekDat(s: Sys, w: World, i: nat)
    requires Inv(s, w) && i < |s.procs| && s.procs[i].pc.ASeekDat?
    ensures Inv(Become(s, i, s.procs[i].(pc := AWriteDat, datoff := |s.dat|,
        datlen := |StoreData(s.procs[i].call)|)), w)
  {
    hide Inv, Hash, ChainOff, NoByte, WorldOk, LocksOk, MyChain, PInv, Eff, CellsFor, HoldsChain, HoldsFree;
    var p := s.procs[i];
    Mine(s, w, i);
    AppendOnly(w, i, p);
    AppendOnly(w, i, p.(pc := AWriteDat, datoff := |s.dat|, datlen := |StoreData(p.call)|));
    StepBecome(s, w, i, p.(pc := AWriteDat, datoff := |s.dat|, datlen := |StoreData(p.call)|));
  }

  lemma StepAUnlockDat(s: Sys, w: World, i: nat)
    requires Inv(s, w) && i < |s.procs| && s.procs[i].pc.AUnlockDat?
    requires SizesOk(s.procs[i])
    ensures Inv(DoAUnlockDat(s, i), w)
    ensures Survives(DoAUnlockDat(s, i), i)
  {
    hide Inv, Hash, NoByte, WorldOk, LocksOk, MyChain, PInv, Eff, CellsFor, HoldsChain, HoldsFree, BodyLen;
    var p := s.procs[i];
    Mine(s, w, i);
    AppendOnly(w, i, p);
    AppendOnly(w, i, p.(pc := ALockIdx, ptrval := p.headval));
    HeadCells(w, p.chainoff);
    StepRelease(s, w, i, p.(pc := ALockIdx, ptrval := p.headval), DataFile);
  }

  lemma StepALockIdx(s: Sys, w: World, i: nat)
    requires Inv(s, w) && i < |s.procs| && s.procs[i].pc.ALockIdx?
    requires Grantable(s.locks, TailLock(i))
    ensures Inv(Acquire(s, i, s.procs[i].(pc := ASeekIdx), TailLock(i)), w)
  {
    hide Inv, Hash, ChainOff, NoByte, WorldOk, LocksOk, MyChain, PInv, Eff, CellsFor, HoldsChain, HoldsFree,
      Grantable;
    var p := s.procs[i];
    Mine(s, w, i);
    AppendOnly(w, i, p);
    AppendOnly(w, i, p.(pc := ASeekIdx));
    StepAcquire(s, w, i, p.(pc := ASeekIdx), IndexTail);
  }

  lemma StepASeekIdx(s: Sys, w: World, i: nat)
    requires Inv(s, w) && i < |s.procs| && s.procs[i].pc.ASeekIdx?
    ensures Inv(Become(s, i, s.procs[i].(pc := AWriteIdx, idxoff := |s.idx|)), w)
  {
    hide Inv, Hash, ChainOff, NoByte, WorldOk, LocksOk, MyChain, PInv, Eff, CellsFor, HoldsChain, HoldsFree;
    var p := s.procs[i];
    Mine(s, w, i);
    AppendOnly(w, i, p);
    AppendOnly(w, i, p.(pc := AWriteIdx, idxoff := |s.idx|));
    StepBecome(s, w, i, p.(pc := AWriteIdx, idxoff := |s.idx|));
  }

  lemma StepAUnlockIdx(s: Sys, w: World, i: nat)
    requires Inv(s, w) && i < |s.procs| && s.procs[i].pc.AUnlockIdx?
    ensures Inv(Release(s, i, s.procs[i].(pc := LinkHead), TailLock(i)), w)
  {
    hide Inv, Hash, ChainOff, NoByte, WorldOk, LocksOk, MyChain, PInv, Eff, CellsFor, HoldsChain, HoldsFree;
    var p := s.procs[i];
    Mine(s, w, i);
    AppendOnly(w, i, p);
    AppendOnly(w, i, p.(pc := LinkHead));
    StepRelease(s, w, i, p.(pc := LinkHead), IndexTail);
  }
}
