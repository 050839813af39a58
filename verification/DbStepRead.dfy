// The steps that only read, seek, lock or unlock.
module DbStepRead {
  import opened Bytes
  import opened DbFormat
  import opened DbWorld
  import opened DbMachine
  import opened DbInv
  import opened DbStepFrame

  // ---------- walking a list ----------

  lemma IndexOfAt(path: seq<nat>, k: nat)
    requires NoDup(path) && k < |path|
    ensures path[k] in path && IndexOf(path, path[k]) == k
  {}

  // The cell of the record at position k leads to position k + 1.
  lemma Follow(cells: map<nat, nat>, start: nat, path: seq<nat>, o: nat)
    requires Linked(cells, start, path) && NoDup(path) && o in path && 0 !in path
    ensures o in cells
    ensures var k := IndexOf(path, o);
      if cells[o] == 0 then k + 1 == |path|
      else k + 1 < |path| && cells[o] == path[k + 1] && cells[o] in path && IndexOf(path, cells[o]) == k + 1
  {
    var k := IndexOf(path, o);
    assert At(start, path, k + 1) == o;
    if k + 1 < |path| {
      IndexOfAt(path, k + 1);
      assert path[k + 1] in path;
    }
  }

  lemma FollowStart(cells: map<nat, nat>, start: nat, path: seq<nat>)
    requires Linked(cells, start, path) && NoDup(path) && 0 !in path
    ensures start in cells
    ensures if cells[start] == 0 then path == []
            else path != [] && cells[start] == path[0] && cells[start] in path && IndexOf(path, cells[start]) == 0
  {
    assert At(start, path, 0) == start;
    if path != [] {
      IndexOfAt(path, 0);
      assert path[0] in path;
    }
  }

  lemma ChainRecs(w: World, h: nat, o: nat)
    requires WorldOk(w) && h < NHASH
    ensures o in w.chains[h] ==> o in w.recs && o in w.cells && HDR <= o && w.cells[o] <= PTR_MAX && RecOk(w.recs[o])
    ensures 0 !in w.chains[h] && NoDup(w.chains[h])
  {
    hide RecAt, PtrAt, DatOk, HeaderOk, FreeInv;
    assert 0 !in w.recs;
    assert 0 !in w.loc;
  }

  lemma FreeRecs(w: World, o: nat)
    requires WorldOk(w)
    ensures o in w.free ==> o in w.recs && o in w.cells && HDR <= o && w.cells[o] <= PTR_MAX && RecOk(w.recs[o])
    ensures 0 !in w.free && NoDup(w.free)
    ensures Linked(w.cells, FREE_OFF, w.free)
  {
    hide RecAt, PtrAt, DatOk, HeaderOk;
    assert 0 !in w.recs;
    assert 0 !in w.loc;
  }

  // No record of the chain has the key, so the map has not either.
  lemma NotOnChain(w: World, h: nat, m: Map, key: bytes)
    requires h < |w.chains| && Content(w, h, m) && Hash(key) == h
    requires forall j :: 0 <= j < |w.chains[h]| && w.chains[h][j] in w.recs ==> w.recs[w.chains[h][j]].key != key
    ensures key !in m
  {
    hide DataOf;
    assert !HasKey(w, w.chains[h], key);
  }

  // Six bytes at a cell, as the code reads them.
  lemma GetCell(w: World, c: nat)
    requires WorldOk(w) && c in w.cells
    ensures GetPtr(w.idx, c) == Some(w.cells[c])
  {
    hide Atol, Rep, ListsOk, FreeInv;
    ReadCell(w, c);
  }

  lemma GetFront(w: World, p: Proc, next: PC)
    requires WorldOk(w) && p.offset in w.recs && p.offset in w.cells
    ensures ReadFront(w.idx, p, next)
      == Some(p.(pc := next, idxoff := p.offset, ptrval := w.cells[p.offset], idxlen := BodyLen(w.recs[p.offset])))
  {
    hide Atol, ReadAt, BodyLen, ListsOk, FreeInv, RecAt, PtrAt, HeaderOk, DatOk;
    ReadRec(w, p.offset);
    assert RecOk(w.recs[p.offset]);
  }

  lemma GetRest(w: World, p: Proc)
    requires WorldOk(w) && p.offset in w.recs && p.idxoff == p.offset && p.idxlen == BodyLen(w.recs[p.offset])
    ensures var r := w.recs[p.offset];
      ReadRest(w.idx, p) == Some(p.(idxbuf := r.key, datoff := r.datoff, datlen := r.datlen))
  {
    hide Atol, ReadAt, BodyLen, ParseBody, Rep, ListsOk, FreeInv;
    ReadRec(w, p.offset);
  }

  // What the invariant says about the process that moves.
  lemma Mine(s: Sys, w: World, i: nat)
    requires Inv(s, w) && i < |s.procs|
    ensures WorldOk(w) && w.idx == s.idx && w.dat == s.dat && w.m == Replay(s.log)
    ensures PInv(w, i, s.procs[i]) && (HoldsChain(s.procs[i]) ==> MyChain(w, s.procs[i]))
  {}

  // ---------- locks ----------

  lemma StepLockChain(s: Sys, w: World, i: nat)
    requires Inv(s, w) && i < |s.procs| && s.procs[i].pc.LockChain?
    requires Grantable(s.locks, ChainLock(i, s.procs[i]))
    ensures Inv(Acquire(s, i, s.procs[i].(pc := ReadHead), ChainLock(i, s.procs[i])), w)
  {
    hide WorldOk, ChainInv, Hash, CallOk;
    var p := s.procs[i];
    var l := ChainLock(i, p);
    var p' := p.(pc := ReadHead);
    forall q | 0 <= q < |s.procs| && WritesChain(s.procs[q])
      ensures HashOf(s.procs[q]) != HashOf(p)
    {
      var x := ChainLock(q, s.procs[q]);
      assert x in Held(q, s.procs[q]);
      assert x in s.locks;
      assert !Conflict(l, x);
    }
    assert NoWriter(s, HashOf(p));
    AcquireLocks(s, i, p', l);
    Quiet(s, w, i, Acquire(s, i, p', l));
  }

  lemma HeldSame(i: nat, p: Proc, p': Proc)
    requires SameHolds(p, p')
    ensures Held(i, p') == Held(i, p)
  {}

  lemma HeldGain(i: nat, p: Proc, p': Proc, r: Region)
    requires GainsRegion(p, p', r)
    ensures Held(i, p') == Held(i, p) + {RegionLock(i, r)}
    ensures Held(i, p) == Held(i, p') - {RegionLock(i, r)}
  {
    hide Hash, HoldsChain, HoldsFree, HoldsDat, HoldsTail;
    match r
    case FreeList =>
    case DataFile =>
    case IndexTail =>
  }

  // The process moves on inside its call, its chain as it was.
  ghost predicate MovesOn(w: World, i: nat, p: Proc, p': Proc)
    requires |w.chains| == NHASH
  {
    CellsFor(w, p') == CellsFor(w, p) && Eff(p', w.m) == Eff(p, w.m) && PInv(w, i, p')
  }

  // A lock acquired or released by a process that keeps its chain.
  lemma StepAcquire(s: Sys, w: World, i: nat, p': Proc, r: Region)
    requires Inv(s, w) && i < |s.procs|
    requires Grantable(s.locks, RegionLock(i, r)) && GainsRegion(s.procs[i], p', r)
    requires |w.chains| == NHASH && MovesOn(w, i, s.procs[i], p')
    ensures Inv(Acquire(s, i, p', RegionLock(i, r)), w)
  {
    hide WorldOk, ChainInv, Hash, CallOk, PInv, Held, CellsFor, Eff, Grantable, LocksOk, Coupled, HoldsChain,
      HoldsRegion;
    HeldGain(i, s.procs[i], p', r);
    AcquireLocks(s, i, p', RegionLock(i, r));
    Quiet(s, w, i, Acquire(s, i, p', RegionLock(i, r)));
  }

  lemma StepRelease(s: Sys, w: World, i: nat, p': Proc, r: Region)
    requires Inv(s, w) && i < |s.procs|
    requires GainsRegion(p', s.procs[i], r)
    requires |w.chains| == NHASH && MovesOn(w, i, s.procs[i], p')
    ensures Inv(Release(s, i, p', RegionLock(i, r)), w)
  {
    hide WorldOk, ChainInv, Hash, CallOk, PInv, Held, CellsFor, Eff, Grantable, LocksOk, Coupled, HoldsChain,
      HoldsRegion;
    HeldGain(i, p', s.procs[i], r);
    ReleaseLocks(s, i, p', RegionLock(i, r));
    Quiet(s, w, i, Release(s, i, p', RegionLock(i, r)));
  }

  // A step that only moves the process on, locks and chain unchanged.
  lemma StepBecome(s: Sys, w: World, i: nat, p': Proc)
    requires Inv(s, w) && i < |s.procs|
    requires SameHolds(s.procs[i], p')
    requires |w.chains| == NHASH && MovesOn(w, i, s.procs[i], p')
    ensures Inv(Become(s, i, p'), w)
  {
    hide WorldOk, ChainInv, Hash, CallOk, PInv, Held, CellsFor, Eff, LocksOk, Coupled, HoldsChain;
    HeldSame(i, s.procs[i], p');
    SameLocks(s, Become(s, i, p'), i, p');
    Quiet(s, w, i, Become(s, i, p'));
  }

  // ---------- _db_find_and_lock ----------

  lemma MissingInv(w: World, i: nat, p: Proc)
    requires |w.chains| == NHASH && GoodCall(p) && p.call.key !in w.m
    ensures PInv(w, i, OnMissing(p)) && HoldsChain(OnMissing(p)) && OnMissing(p).call == p.call
    ensures Eff(OnMissing(p), w.m) == w.m && CellsFor(w, OnMissing(p)) == w.cells
    ensures !HoldsFree(OnMissing(p)) && !HoldsDat(OnMissing(p)) && !HoldsTail(OnMissing(p)) && !OnMissing(p).pc.Dead?
  {
    hide Hash, ChainOff, NoByte;
  }

  lemma FoundInv(w: World, i: nat, p: Proc)
    requires |w.chains| == NHASH && GoodCall(p) && Found(w, p) && p.call.key in w.m && p.idxbuf == p.call.key
    ensures PInv(w, i, OnFound(p)) && HoldsChain(OnFound(p)) && OnFound(p).call == p.call
    ensures Eff(OnFound(p), w.m) == w.m && CellsFor(w, OnFound(p)) == w.cells
    ensures !HoldsFree(OnFound(p)) && !HoldsDat(OnFound(p)) && !HoldsTail(OnFound(p)) && !OnFound(p).pc.Dead?
  {
    hide Hash, ChainOff, NoByte;
  }

  lemma StepReadHead(s: Sys, w: World, i: nat)
    requires Inv(s, w) && i < |s.procs| && s.procs[i].pc.ReadHead?
    ensures Inv(DoReadHead(s, i), w)
    ensures Survives(DoReadHead(s, i), i)
  {
    hide Inv, Coupled, Hash, ChainOff, NoByte, Rep, ListsOk, FreeInv, LocksOk, GetPtr, Replay, Legal;
    Mine(s, w, i);
    var p := s.procs[i];
    var h := HashOf(p);
    var c := w.chains[h];
    assert MyChain(w, p);
    ChainRecs(w, h, 0);
    FollowStart(w.cells, ChainOff(h), c);
    GetCell(w, p.ptroff);
    var v := w.cells[p.ptroff];
    if v == 0 {
      NotOnChain(w, h, w.m, p.call.key);
      MissingInv(w, i, p.(offset := 0));
      StepBecome(s, w, i, OnMissing(p.(offset := 0)));
    } else {
      ChainRecs(w, h, v);
      StepBecome(s, w, i, p.(pc := Walk1, offset := v));
    }
  }

  lemma StepWalk1(s: Sys, w: World, i: nat)
    requires Inv(s, w) && i < |s.procs| && s.procs[i].pc.Walk1?
    ensures Inv(DoWalk1(s, i), w)
    ensures Survives(DoWalk1(s, i), i)
  {
    hide Inv, Coupled, Hash, ChainOff, NoByte, Rep, ListsOk, FreeInv, LocksOk, ReadFront, BodyLen, Replay,
      Legal, PInv, Eff, PatchOf, HoldsChain, HoldsFree, HoldsDat, HoldsTail;
    Mine(s, w, i);
    var p := s.procs[i];
    WalkOnly(w, i, p);
    GetFront(w, p, Walk2);
    var n := BodyLen(w.recs[p.offset]);
    var p' := p.(pc := Walk2, idxoff := p.offset, ptrval := w.cells[p.offset], idxlen := n);
    WalkOnly(w, i, p');
    StepBecome(s, w, i, p');
  }

  lemma StepWalk2(s: Sys, w: World, i: nat)
    requires Inv(s, w) && i < |s.procs| && s.procs[i].pc.Walk2?
    ensures Inv(DoWalk2(s, i), w)
    ensures Survives(DoWalk2(s, i), i)
  {
    hide Inv, Coupled, Hash, ChainOff, NoByte, Rep, ListsOk, FreeInv, LocksOk, ReadRest, BodyLen, Replay,
      Legal, DataOf, PInv, OnFound, OnMissing, Eff, PatchOf, CellsFor, HoldsChain, HoldsFree, HoldsDat,
      HoldsTail;
    Mine(s, w, i);
    var p := s.procs[i];
    var h := HashOf(p);
    var c := w.chains[h];
    Walk2Facts(w, i, p);
    WalkOnly(w, i, p);
    GetRest(w, p);
    var r := w.recs[p.offset];
    var p1 := p.(idxbuf := r.key, datoff := r.datoff, datlen := r.datlen);
    if r.key == p.call.key {
      assert MyChain(w, p);
      FoundInv(w, i, p1);
      StepBecome(s, w, i, OnFound(p1));
    } else if p.ptrval == 0 {
      assert MyChain(w, p);
      WalkOver(w, p);
      var p2 := p1.(ptroff := p.offset, offset := 0);
      MissingInv(w, i, p2);
      StepBecome(s, w, i, OnMissing(p2));
    } else {
      assert MyChain(w, p);
      WalkOn(w, i, p, p1);
      var p2 := p1.(pc := Walk1, ptroff := p.offset, offset := p.ptrval);
      WalkOnly(w, i, p2);
      StepBecome(s, w, i, p2);
    }
  }

  lemma WalkOnly(w: World, i: nat, p: Proc)
    requires |w.chains| == NHASH
    requires p.pc.Walk1? || p.pc.Walk2? || p.pc.FReadDat? || p.pc.OverWrite?
    ensures PInv(w, i, p) <==> GoodCall(p) && WalkInv(w, i, p)
    ensures Eff(p, w.m) == w.m && CellsFor(w, p) == w.cells && PatchOf(p).None?
    ensures HoldsChain(p) && !HoldsFree(p) && !HoldsDat(p) && !HoldsTail(p)
  {}

  lemma Walk2Facts(w: World, i: nat, p: Proc)
    requires |w.chains| == NHASH && PInv(w, i, p) && p.pc.Walk2?
    ensures GoodCall(p) && AtNode(w, p) && p.idxoff == p.offset && p.ptrval == w.cells[p.offset]
    ensures p.idxlen == BodyLen(w.recs[p.offset])
  {}

  lemma WalkOver(w: World, p: Proc)
    requires WorldOk(w) && AtNode(w, p) && MyChain(w, p) && p.pc.Walk2? && GoodCall(p)
    requires p.ptrval == w.cells[p.offset] == 0 && w.recs[p.offset].key != p.call.key
    ensures p.call.key !in w.m
  {
    hide Hash, ChainOff, NoByte, Rep, ListsOk, FreeInv, DataOf;
    var h := HashOf(p);
    ChainRecs(w, h, p.offset);
    Follow(w.cells, ChainOff(h), w.chains[h], p.offset);
    NotOnChain(w, h, w.m, p.call.key);
  }

  lemma WalkOn(w: World, i: nat, p: Proc, p1: Proc)
    requires WorldOk(w) && AtNode(w, p) && MyChain(w, p) && p.pc.Walk2? && GoodCall(p)
    requires p.ptrval == w.cells[p.offset] != 0 && w.recs[p.offset].key != p.call.key
    requires p1.call == p.call && p1.chainoff == p.chainoff && p1.pc == p.pc
    ensures PInv(w, i, p1.(pc := Walk1, ptroff := p.offset, offset := p.ptrval))
  {
    hide Hash, ChainOff, NoByte, Rep, ListsOk, FreeInv, DataOf;
    var h := HashOf(p);
    var c := w.chains[h];
    ChainRecs(w, h, p.ptrval);
    Follow(w.cells, ChainOff(h), c, p.offset);
    assert At(p.chainoff, c, IndexOf(c, p.ptrval)) == p.offset;
  }

  // The data record of a record that was found.
  lemma FoundData(w: World, p: Proc)
    requires WorldOk(w) && GoodCall(p) && Found(w, p) && Content(w, HashOf(p), w.m)
    ensures p.call.key in w.m
    ensures |ReadAt(w.dat, p.datoff, p.datlen)| == p.datlen
    ensures ReadAt(w.dat, p.datoff, p.datlen) == w.m[p.call.key] + [NEWLINE]
    ensures p.datlen == |w.m[p.call.key]| + 1
  {
    hide Hash, ChainOff, NoByte, ListsOk, FreeInv, HeaderOk, RecsOk, CellsOk, ReadAt;
    ReadData(w, p.datoff);
  }

  lemma StepReadDat(s: Sys, w: World, i: nat)
    requires Inv(s, w) && i < |s.procs| && s.procs[i].pc.FReadDat?
    ensures Inv(DoReadDat(s, i), w)
    ensures Survives(DoReadDat(s, i), i)
  {
    hide Inv, Coupled, Hash, ChainOff, NoByte, WorldOk, LocksOk, Replay, Legal, Linked, ReadAt;
    var p := s.procs[i];
    Mine(s, w, i);
    FoundData(w, p);
    var b := ReadAt(s.dat, p.datoff, p.datlen);
    assert b[..|b| - 1] == w.m[p.call.key];
    StepBecome(s, w, i, p.(pc := UnlockChain, result := Value(b[..|b| - 1])));
  }
}
