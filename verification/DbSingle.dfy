// The process machine run by one process, in the stretches that the functions
// of db.c run through: what each stretch reads and writes, and where it ends.
module DbSingle {
  import opened Bytes
  import opened DbFormat
  import opened DbWorld
  import opened DbMachine
  import opened DbInv
  import opened DbStepRead
  import opened DbStepQuiet
  import opened DbStepWrite
  import opened DbStepDelete
  import opened DbStepStore
  import opened DbTheorems
  import opened DbProgress
  import opened DbOwners

  // One process, in a reachable state.
  ghost predicate Machine(s: Sys, w: World) {
    |s.procs| == 1 && Inv(s, w) && Owners(s, w)
  }

  // ... whose files are these.
  ghost predicate Mirrors(s: Sys, w: World, idx: bytes, dat: bytes) {
    Machine(s, w) && s.idx == idx && s.dat == dat
  }

  // A pointer field of its index file.
  ghost predicate CellOf(s: Sys, w: World, c: nat) { WorldOk(w) && w.idx == s.idx && c in w.cells }

  lemma Go(s: Sys, w: World) returns (s': Sys, w': World)
    requires Machine(s, w) && MidCall(s.procs[0])
    ensures Machine(s', w') && s' == Next(s, 0) && w' == WNext(s, w, 0)
    ensures s'.procs[0].pc.Dead? <==> AtLimit(s.procs[0])
  {
    hide Inv, Owners, Next, WNext, Ready, AtLimit;
    AloneReady(s, w, 0);
    InvNext(s, w, 0);
    OwnersNext(s, w, 0, Next(s, 0), WNext(s, w, 0));
    s', w' := Next(s, 0), WNext(s, w, 0);
  }

  // The files, the history and the world are as they were; the process moved on.
  ghost predicate Moved(s: Sys, s': Sys, p': Proc) {
    |s'.procs| == 1 && s'.procs[0] == p' && s'.idx == s.idx && s'.dat == s.dat && s'.log == s.log
  }

  // ---------- searching a chain ----------

  predicate Walking(p: Proc, offset: nat, c: Call, ptroff: nat, chainoff: nat) {
    p.pc.Walk1? && p.offset == offset && p.call == c && p.ptroff == ptroff && p.chainoff == chainoff
  }

  // Where the call goes on after the search.
  function FoundPC(c: Call, datlen: nat): PC {
    match c
    case Fetch(_) => FReadDat
    case Delete(_) => DLockFree
    case Store(_, data, flag) =>
      if flag == Insert then UnlockChain else if |data| + 1 != datlen then DLockFree else OverWrite
  }

  function MissingPC(c: Call): PC {
    if c.Store? && c.flag != Replace then SReadHead else UnlockChain
  }

  predicate Searched(p: Proc, p0: Proc, pc: PC) {
    && p.pc == pc && p.call == p0.call && p.chainoff == p0.chainoff && p.ptroff == p0.ptroff
    && p.idxoff == p0.idxoff && p.ptrval == p0.ptrval && p.datoff == p0.datoff && p.datlen == p0.datlen
  }

  lemma GoLock(s: Sys, w: World) returns (s': Sys)
    requires Machine(s, w) && s.procs[0].pc.LockChain?
    ensures Machine(s', w) && Moved(s, s', s.procs[0].(pc := ReadHead))
    ensures var p := s.procs[0];
      p.ptroff == p.chainoff == ChainOff(HashOf(p)) && CellOf(s, w, p.ptroff)
  {
    hide Inv, Owners, Hash, WorldOk, Held, GetPtr, AtLimit;
    Mine(s, w, 0);
    HeadCells(w, s.procs[0].chainoff);
    GetCell(w, s.procs[0].chainoff);
    var w';
    s', w' := Go(s, w);
  }

  lemma GoHead(s: Sys, w: World) returns (s': Sys)
    requires Machine(s, w) && s.procs[0].pc.ReadHead?
    ensures Machine(s', w) && Moved(s, s', s'.procs[0])
    ensures var p := s.procs[0];
      && GetPtr(s.idx, p.ptroff).Some?
      && var v := GetPtr(s.idx, p.ptroff).value;
         if v == 0 then Searched(s'.procs[0], p, MissingPC(p.call)) && p.call.key !in w.m
         else Walking(s'.procs[0], v, p.call, p.ptroff, p.chainoff)
  {
    hide Inv, Owners, Hash, WorldOk, GetPtr, Content, Linked, AtLimit;
    var p := s.procs[0];
    var h := HashOf(p);
    Mine(s, w, 0);
    HeadCells(w, p.ptroff);
    GetCell(w, p.ptroff);
    if w.cells[p.ptroff] == 0 {
      ChainRecs(w, h, 0);
      FollowStart(w.cells, ChainOff(h), w.chains[h]);
      NotOnChain(w, h, w.m, p.call.key);
    }
    var w';
    s', w' := Go(s, w);
  }

  lemma GoFront(s: Sys, w: World) returns (s': Sys)
    requires Machine(s, w) && s.procs[0].pc.Walk1?
    ensures Machine(s', w) && WorldOk(w) && w.idx == s.idx
    ensures var o := s.procs[0].offset;
      && o in w.recs && o in w.cells && o != 0
      && Moved(s, s', s.procs[0].(pc := Walk2, idxoff := o, ptrval := w.cells[o], idxlen := BodyLen(w.recs[o])))
    ensures Left(w, s'.procs[0]) < Left(w, s.procs[0])
  {
    hide Inv, Owners, Hash, ChainOff, WorldOk, ReadFront, BodyLen, MyChain, AtLimit;
    var p := s.procs[0];
    Mine(s, w, 0);
    GetFront(w, p, Walk2);
    FrontNearer(s, w, 0);
    ChainRecs(w, HashOf(p), p.offset);
    var w';
    s', w' := Go(s, w);
  }

  // The record is the key's, or the walk goes on, or the list is at its end.
  ghost predicate Compared(w: World, p: Proc, p': Proc) {
    && p.offset in w.recs && p.offset in w.cells && p.ptrval == w.cells[p.offset]
    && var r := w.recs[p.offset];
       if r.key == p.call.key then
         && Searched(p', p.(datoff := r.datoff, datlen := r.datlen), FoundPC(p.call, r.datlen))
         && p.call.key in w.m && r.datlen == |w.m[p.call.key]| + 1
       else if p.ptrval == 0 then
         && Searched(p', p.(ptroff := p.offset, datoff := r.datoff, datlen := r.datlen), MissingPC(p.call))
         && p.call.key !in w.m
       else
         Walking(p', p.ptrval, p.call, p.offset, p.chainoff) && Left(w, p') < Left(w, p)
  }

  lemma GoRest(s: Sys, w: World) returns (s': Sys)
    requires Machine(s, w) && s.procs[0].pc.Walk2?
    ensures Machine(s', w) && Moved(s, s', s'.procs[0])
    ensures Compared(w, s.procs[0], s'.procs[0])
  {
    hide Inv, Owners, DoWalk2, AtLimit, Compared;
    RestCompared(s, w);
    var w';
    s', w' := Go(s, w);
  }

  lemma RestCompared(s: Sys, w: World)
    requires Machine(s, w) && s.procs[0].pc.Walk2?
    ensures var s' := DoWalk2(s, 0); Moved(s, s', s'.procs[0]) && Compared(w, s.procs[0], s'.procs[0])
  {
    hide Inv, Owners, Hash, ChainOff, WorldOk, ReadRest, BodyLen, MyChain;
    var p := s.procs[0];
    Mine(s, w, 0);
    GetRest(w, p);
    WalkNearer(s, w, 0);
    if w.recs[p.offset].key == p.call.key {
      KeyThere(w, p);
    } else if p.ptrval == 0 {
      WalkOver(w, p);
    }
  }

  lemma KeyThere(w: World, p: Proc)
    requires WorldOk(w) && AtNode(w, p) && MyChain(w, p) && p.pc.Walk2? && w.recs[p.offset].key == p.call.key
    ensures p.call.key in w.m && w.recs[p.offset].datlen == |w.m[p.call.key]| + 1
  {
    hide Linked, Hash, HeaderOk, RecsOk, CellsOk, ListsOk, FreeInv, ReadAt;
    var r := w.recs[p.offset];
    RecFacts(w, p.offset);
    ReadData(w, r.datoff);
  }

  // ---------- deleting ----------

  predicate OfDelete(pc: PC) {
    pc.DLockFree? || pc.DWriteDat? || pc.DReadFree? || pc.DWriteIdx? || pc.DWriteFree? || pc.DUnlink? || pc.DUnlockFree?
  }

  // What _db_writeidx checks.
  predicate Writable(ptr: nat, r: Rec) { ptr <= PTR_MAX && IDXLEN_MIN <= BodyLen(r) <= IDXLEN_MAX }

  ghost predicate DeleteStep(s: Sys, w: World, s': Sys, w': World)
    requires |s.procs| == 1
  {
    var p := s.procs[0];
    && |s'.procs| == 1 && s'.log == s.log && w'.m == w.m && w'.recs.Keys == w.recs.Keys
    && |s'.idx| == |s.idx| && |s'.dat| == |s.dat|
    && |w'.free| == |w.free| + (if p.pc.DWriteFree? then 1 else 0)
    && (p.pc.DWriteDat? ==> DATLEN_MIN <= p.datlen)
    && (p.pc.DWriteIdx? ==> Writable(p.freeptr, Rec(p.idxbuf, p.datoff, p.datlen)))
    && (p.pc.DWriteFree? ==> p.idxoff <= PTR_MAX)
    && (p.pc.DUnlink? ==> p.saveptr <= PTR_MAX)
    && s'.dat == (if p.pc.DWriteDat? then WriteAt(s.dat, p.datoff, BlankData(p.datlen)) else s.dat)
    && s'.idx == (match p.pc
                  case DWriteIdx => WriteAt(s.idx, p.idxoff, Enc(p.freeptr, Rec(p.idxbuf, p.datoff, p.datlen)))
                  case DWriteFree => WriteAt(s.idx, FREE_OFF, Pad(p.idxoff, PTR_SZ))
                  case DUnlink => WriteAt(s.idx, p.ptroff, Pad(p.saveptr, PTR_SZ))
                  case _ => s.idx)
    && (p.pc.DReadFree? ==> GetPtr(s.idx, FREE_OFF).Some?)
    && s'.procs[0] == (match p.pc
                       case DLockFree => p.(pc := DWriteDat)
                       case DWriteDat => p.(pc := DReadFree, datlen := |BlankData(p.datlen)|)
                       case DReadFree => p.(pc := DWriteIdx, freeptr := GetPtr(s.idx, FREE_OFF).value,
                           saveptr := p.ptrval)
                       case DWriteIdx => p.(pc := DWriteFree, ptrval := p.freeptr)
                       case DWriteFree => p.(pc := DUnlink)
                       case DUnlink => p.(pc := DUnlockFree)
                       case _ => if p.call.Store? then p.(pc := AReadHead)
                           else p.(pc := UnlockChain, result := Code(0)))
  }

  lemma DeleteFacts(s: Sys, w: World)
    requires Inv(s, w) && |s.procs| == 1 && OfDelete(s.procs[0].pc) && Survives(Next(s, 0), 0)
    requires |Next(s, 0).idx| == |s.idx| && |Next(s, 0).dat| == |s.dat|
    ensures DeleteStep(s, w, Next(s, 0), WNext(s, w, 0))
  {
    hide Inv, Next, WNext, DeleteStep;
    if s.procs[0].pc.DWriteDat? || s.procs[0].pc.DWriteIdx? {
      DeleteBlanks(s, w);
    } else {
      DeleteLinks(s, w);
    }
  }

  lemma DeleteBlanks(s: Sys, w: World)
    requires Inv(s, w) && |s.procs| == 1 && Survives(Next(s, 0), 0)
    requires |Next(s, 0).idx| == |s.idx| && |Next(s, 0).dat| == |s.dat|
    requires s.procs[0].pc.DWriteDat? || s.procs[0].pc.DWriteIdx?
    ensures DeleteStep(s, w, Next(s, 0), WNext(s, w, 0))
  {
    hide Inv, Hash, ChainOff, WorldOk, MyChain, WriteAt, GetPtr, Enc, Pad, BodyLen, Blanks, Body, FreeWalkInv,
      AppendInv, IndexOf, RemoveAt;
    Mine(s, w, 0);
    var p := s.procs[0];
    if p.pc.DWriteDat? {
      FoundSize(w, p);
    } else {
      assert w.recs[p.idxoff := Rec(p.idxbuf, p.datoff, p.datlen)].Keys == w.recs.Keys;
    }
  }

  lemma DeleteLinks(s: Sys, w: World)
    requires |s.procs| == 1 && OfDelete(s.procs[0].pc) && Survives(Next(s, 0), 0)
    requires |Next(s, 0).idx| == |s.idx| && |Next(s, 0).dat| == |s.dat|
    requires !s.procs[0].pc.DWriteDat? && !s.procs[0].pc.DWriteIdx?
    ensures DeleteStep(s, w, Next(s, 0), WNext(s, w, 0))
  {
    hide Inv, Hash, ChainOff, WriteAt, GetPtr, Enc, Pad, BodyLen, Blanks, Body, IndexOf, RemoveAt;
  }

  lemma SameFileSizes(s: Sys, w: World, s': Sys, w': World)
    requires Inv(s, w) && Inv(s', w') && |w'.idx| == |w.idx| && |w'.dat| == |w.dat|
    ensures |s'.idx| == |s.idx| && |s'.dat| == |s.dat|
  {}

  // A deletion writes inside both files.
  lemma DeleteSizes(s: Sys, w: World)
    requires Inv(s, w) && |s.procs| == 1 && OfDelete(s.procs[0].pc)
    ensures |WNext(s, w, 0).idx| == |w.idx| && |WNext(s, w, 0).dat| == |w.dat|
  {
    hide Inv, Hash, ChainOff, WorldOk, MyChain, WriteAt, Enc, Pad, BodyLen, Blanks, BlankData, FreeWalkInv,
      AppendInv, WalkInv, IndexOf, RemoveAt;
    var p := s.procs[0];
    Mine(s, w, 0);
    if p.pc.DWriteDat? {
      RecFacts(w, p.offset);
      FoundSize(w, p);
      BlankLength(p.datlen);
      DataChange(w, 0, p, p.offset, BlankData(p.datlen));
    } else if p.pc.DWriteIdx? {
      CellBound(w, FREE_OFF);
      HeldOff(w, p.idxoff, 0);
      BlankKey(|p.call.key|);
      RecChange(w, 0, p, p.idxoff, p.freeptr, Rec(p.idxbuf, p.datoff, p.datlen));
    } else if p.pc.DWriteFree? {
      PtrLength(w, FREE_OFF, p.idxoff);
    } else if p.pc.DUnlink? {
      UnlinkedWorld(w, 0, p);
    }
  }

  lemma FoundSize(w: World, p: Proc)
    requires WorldOk(w) && Found(w, p)
    ensures DATLEN_MIN <= p.datlen
  {
    hide ListsOk, FreeInv, HeaderOk, CellsOk, DatOk, RecAt;
  }

  lemma FoundNow(s: Sys, w: World)
    requires Inv(s, w) && |s.procs| == 1 && s.procs[0].pc.DLockFree?
    ensures DATLEN_MIN <= s.procs[0].datlen && s.procs[0].idxbuf == Blanks(|s.procs[0].call.key|)
  {
    hide Inv, Hash, ChainOff, WorldOk, MyChain, Blanks;
    Mine(s, w, 0);
    FoundSize(w, s.procs[0]);
  }

  lemma GoDeleteStep(s: Sys, w: World) returns (s': Sys, w': World)
    requires Machine(s, w) && OfDelete(s.procs[0].pc)
    ensures Machine(s', w') && DeleteStep(s, w, s', w')
  {
    hide Inv, Owners, Next, WNext, DeleteStep;
    s', w' := Go(s, w);
    DeleteSizes(s, w);
    SameFileSizes(s, w, s', w');
    DeleteFacts(s, w);
  }

  lemma FreeCell(s: Sys, w: World)
    requires Inv(s, w)
    ensures CellOf(s, w, FREE_OFF)
  {
    hide PInv, Replay, Legal, LocksOk, ChainInv;
    HeadCells(w, FREE_OFF);
  }

  // The seven system calls of _db_dodelete.
  lemma GoDelete(s: Sys, w: World) returns (s': Sys, w': World)
    requires Machine(s, w) && s.procs[0].pc.DLockFree?
    ensures Machine(s', w') && w'.m == w.m && s'.log == s.log
    ensures var p, p' := s.procs[0], s'.procs[0];
      && p'.call == p.call && p'.chainoff == p.chainoff
      && p'.pc == (if p.call.Store? then AReadHead else UnlockChain)
      && DATLEN_MIN <= p.datlen && GetPtr(s.idx, FREE_OFF).Some? && p.idxoff <= PTR_MAX && p.ptrval <= PTR_MAX
      && s'.dat == WriteAt(s.dat, p.datoff, BlankData(p.datlen))
      && var r := Rec(Blanks(|p.call.key|), p.datoff, |BlankData(p.datlen)|);
         Writable(GetPtr(s.idx, FREE_OFF).value, r) && s'.idx == WriteAt(WriteAt(WriteAt(s.idx,
           p.idxoff, Enc(GetPtr(s.idx, FREE_OFF).value, r)),
           FREE_OFF, Pad(p.idxoff, PTR_SZ)),
           p.ptroff, Pad(p.ptrval, PTR_SZ))
    ensures |w'.free| == |w.free| + 1 && w'.recs.Keys == w.recs.Keys && CellOf(s, w, FREE_OFF)
    ensures |s'.idx| == |s.idx| && |s'.dat| == |s.dat|
  {
    hide Inv, Owners, WriteAt, GetPtr, Enc, Pad, BodyLen, Blanks, Body, BlankData, WorldOk;
    FoundNow(s, w);
    FreeCell(s, w);
    s', w' := GoDeleteStep(s, w);
    s', w' := GoDeleteStep(s', w');
    s', w' := GoDeleteStep(s', w');
    s', w' := GoDeleteStep(s', w');
    s', w' := GoDeleteStep(s', w');
    s', w' := GoDeleteStep(s', w');
    s', w' := GoDeleteStep(s', w');
  }

  // ---------- ending a call ----------

  lemma GoReadDat(s: Sys, w: World) returns (s': Sys)
    requires Machine(s, w) && s.procs[0].pc.FReadDat?
    ensures var p := s.procs[0];
      && p.call.key in w.m && 0 < p.datlen
      && ReadAt(s.dat, p.datoff, p.datlen) == w.m[p.call.key] + [NEWLINE] && p.datlen == |w.m[p.call.key]| + 1
    ensures Machine(s', w) && Moved(s, s', s'.procs[0]) && s'.procs[0].pc.UnlockChain?
        && s'.procs[0].call == s.procs[0].call
  {
    hide Inv, Owners, Hash, ChainOff, WorldOk, ReadAt, Linked, AtLimit;
    Mine(s, w, 0);
    FoundData(w, s.procs[0]);
    var w';
    s', w' := Go(s, w);
  }

  lemma GoUnlock(s: Sys, w: World) returns (s': Sys, w': World)
    requires Machine(s, w) && s.procs[0].pc.UnlockChain?
    ensures var p := s.procs[0];
      && Machine(s', w') && s'.procs[0].pc.Idle? && s'.idx == s.idx && s'.dat == s.dat
      && p.result == SpecResult(w.m, p.call)
      && w' == w.(m := SpecMap(w.m, p.call))
  {
    hide Inv, Owners, Hash, ChainOff, WorldOk, AtLimit, SpecResult, SpecMap;
    Mine(s, w, 0);
    EndOnly(w, 0, s.procs[0]);
    s', w' := Go(s, w);
  }

  lemma GoOverWrite(s: Sys, w: World) returns (s': Sys, w': World)
    requires Machine(s, w) && s.procs[0].pc.OverWrite?
    ensures var p := s.procs[0];
      && Machine(s', w') && s'.procs[0].pc.UnlockChain? && s'.procs[0].call == p.call && s'.procs[0].result == Code(0)
      && s'.log == s.log && s'.idx == s.idx && s'.dat == WriteAt(s.dat, p.datoff, StoreData(p.call))
      && w' == w.(dat := w'.dat)
  {
    hide Inv, Owners, Hash, ChainOff, WorldOk, AtLimit, WriteAt, StoreData;
    s', w' := Go(s, w);
  }

  // ---------- searching the free list ----------

  // The exact fit that _db_findfree looks for.
  ghost predicate Fits(w: World, o: nat, keylen: nat, datlen: nat) {
    o in w.recs && |w.recs[o].key| == keylen && w.recs[o].datlen == datlen
  }

  // The walk stands at a free record, and no record before it fits.
  ghost predicate Seeking(w: World, p: Proc) {
    && p.pc.FWalk1? && p.offset in w.free
    && forall j :: 0 <= j < IndexOf(w.free, p.offset) ==> !Fits(w, w.free[j], |p.call.key|, |StoreData(p.call)|)
  }

  ghost predicate NoFit(w: World, keylen: nat, datlen: nat) {
    forall o :: o in w.free ==> !Fits(w, o, keylen, datlen)
  }

  lemma GoGetHead(s: Sys, w: World) returns (s': Sys)
    requires Machine(s, w) && (s.procs[0].pc.AReadHead? || s.procs[0].pc.SReadHead?)
    ensures var p := s.procs[0];
      && GetPtr(s.idx, p.chainoff).Some? && CellOf(s, w, p.chainoff)
      && Machine(s', w)
      && var next := if p.pc.AReadHead? then ALockDat else FLockFree;
         Moved(s, s', p.(pc := next, headval := GetPtr(s.idx, p.chainoff).value))
  {
    hide Inv, Owners, Hash, WorldOk, GetPtr, AtLimit;
    Mine(s, w, 0);
    HeadCells(w, s.procs[0].chainoff);
    GetCell(w, s.procs[0].chainoff);
    var w';
    s', w' := Go(s, w);
  }

  lemma GoFLock(s: Sys, w: World) returns (s': Sys)
    requires Machine(s, w) && s.procs[0].pc.FLockFree?
    ensures Machine(s', w) && Moved(s, s', s.procs[0].(pc := FReadFree)) && CellOf(s, w, FREE_OFF)
  {
    hide Inv, Owners, Hash, WorldOk, GetPtr, AtLimit;
    Mine(s, w, 0);
    HeadCells(w, FREE_OFF);
    GetCell(w, FREE_OFF);
    var w';
    s', w' := Go(s, w);
  }

  lemma GoFHead(s: Sys, w: World) returns (s': Sys)
    requires Machine(s, w) && s.procs[0].pc.FReadFree?
    ensures GetPtr(s.idx, FREE_OFF).Some? && Machine(s', w)
    ensures var p := s.procs[0];
      var v := GetPtr(s.idx, FREE_OFF).value;
      && Moved(s, s', p.(pc := if v == 0 then FUnlockMiss else FWalk1, saveoffset := FREE_OFF, offset := v))
      && (if v == 0 then w.free == [] else Seeking(w, s'.procs[0]))
  {
    hide Inv, Owners, Hash, WorldOk, GetPtr, AtLimit, Linked;
    Mine(s, w, 0);
    HeadCells(w, FREE_OFF);
    GetCell(w, FREE_OFF);
    FreeRecs(w, 0);
    FollowStart(w.cells, FREE_OFF, w.free);
    var w';
    s', w' := Go(s, w);
  }

  lemma GoFFront(s: Sys, w: World) returns (s': Sys)
    requires Machine(s, w) && Seeking(w, s.procs[0])
    ensures Machine(s', w) && WorldOk(w) && w.idx == s.idx
    ensures var p := s.procs[0];
      var o := p.offset;
      && o in w.recs && o in w.cells && o != 0
      && Moved(s, s', p.(pc := FWalk2, idxoff := o, ptrval := w.cells[o], idxlen := BodyLen(w.recs[o])))
    ensures Left(w, s'.procs[0]) < Left(w, s.procs[0])
  {
    hide Inv, Owners, Hash, ChainOff, WorldOk, ReadFront, BodyLen, MyChain, AtLimit, Linked;
    var p := s.procs[0];
    Mine(s, w, 0);
    FreeWalkOnly(w, 0, p);
    GetFront(w, p, FWalk2);
    FrontNearer(s, w, 0);
    FreeRecs(w, p.offset);
    var w';
    s', w' := Go(s, w);
  }

  lemma GoFRest(s: Sys, w: World) returns (s': Sys)
    requires Machine(s, w) && s.procs[0].pc.FWalk2? && Seeking(w, s.procs[0].(pc := FWalk1))
    ensures Machine(s', w) && Moved(s, s', s'.procs[0])
    ensures var p, p' := s.procs[0], s'.procs[0];
      && p.offset in w.recs && p.offset in w.cells && p.ptrval == w.cells[p.offset] && p.idxoff == p.offset
      && p'.call == p.call && p'.chainoff == p.chainoff && p'.headval == p.headval
      && if Fits(w, p.offset, |p.call.key|, |StoreData(p.call)|) then
           p'.pc.FTake? && p'.offset == p.offset && p'.saveoffset == p.saveoffset && p'.ptrval == p.ptrval
           && p'.idxoff == p.offset && p'.datoff == w.recs[p.offset].datoff && p'.datlen == w.recs[p.offset].datlen
         else if p.ptrval == 0 then p'.pc.FUnlockMiss? && NoFit(w, |p.call.key|, |StoreData(p.call)|)
         else p'.offset == p.ptrval && p'.saveoffset == p.offset && Seeking(w, p') && Left(w, p') < Left(w, p)
  {
    hide Inv, Owners, Hash, ChainOff, WorldOk, ReadRest, BodyLen, MyChain, AtLimit, Linked, StoreData;
    var p := s.procs[0];
    Mine(s, w, 0);
    FreeWalkOnly(w, 0, p);
    GetRest(w, p);
    FreeWalkNearer(s, w, 0);
    FreeRecs(w, p.offset);
    Follow(w.cells, FREE_OFF, w.free, p.offset);
    var w';
    s', w' := Go(s, w);
  }

  lemma FreeBound(w: World, p: Proc)
    requires WorldOk(w) && AtFree(w, p)
    ensures p.offset <= PTR_MAX
  {
    hide Rep, ListsOk, AllBlank;
    var k := IndexOf(w.free, p.offset);
    assert w.cells[At(FREE_OFF, w.free, k)] == Nth(w.free, k);
    CellBound(w, At(FREE_OFF, w.free, k));
  }

  // ---------- writing the new record ----------

  predicate OfStore(pc: PC) {
    pc.FTake? || pc.FUnlockHit? || pc.FUnlockMiss? || pc.RWriteDat? || pc.RWriteIdx?
    || pc.ALockDat? || pc.ASeekDat? || pc.AWriteDat? || pc.AUnlockDat?
    || pc.ALockIdx? || pc.ASeekIdx? || pc.AWriteIdx? || pc.AUnlockIdx? || pc.LinkHead?
  }

  function NewRec(p: Proc): Rec { Rec(p.call.key, p.datoff, p.datlen) }

  ghost predicate StoreStep(s: Sys, w: World, s': Sys, w': World)
    requires |s.procs| == 1
  {
    var p := s.procs[0];
    && |s'.procs| == 1 && s'.log == s.log && w'.m == w.m
    && |w'.free| + (if p.pc.FTake? then 1 else 0) == |w.free|
    && |w'.recs| == |w.recs| + (if p.pc.AWriteIdx? then 1 else 0)
    && (p.pc.AWriteIdx? ==> w'.recs == w.recs[p.idxoff := NewRec(p)])
    && (!p.pc.AWriteIdx? && !p.pc.RWriteIdx? ==> w'.recs == w.recs)
    && (p.pc.FTake? ==> p.offset <= PTR_MAX && p.idxoff == p.offset && p.ptrval <= PTR_MAX)
    && (p.pc.RWriteIdx? ==> Writable(p.headval, NewRec(p)))
    && (p.pc.AUnlockDat? ==> p.headval <= PTR_MAX)
    && s'.dat == (if p.pc.RWriteDat? || p.pc.AWriteDat? then WriteAt(s.dat, p.datoff, StoreData(p.call)) else s.dat)
    && s'.idx == (match p.pc
                  case FTake => WriteAt(s.idx, p.saveoffset, Pad(p.ptrval, PTR_SZ))
                  case RWriteIdx => WriteAt(s.idx, p.idxoff, Enc(p.headval, NewRec(p)))
                  case AWriteIdx => WriteAt(s.idx, p.idxoff, Enc(p.headval, NewRec(p)))
                  case LinkHead => WriteAt(s.idx, p.chainoff, Pad(p.idxoff, PTR_SZ))
                  case _ => s.idx)
    && s'.procs[0] == (match p.pc
                       case FTake => p.(pc := FUnlockHit)
                       case FUnlockHit => p.(pc := RWriteDat)
                       case FUnlockMiss => p.(pc := ALockDat)
                       case RWriteDat => p.(pc := RWriteIdx, datlen := |StoreData(p.call)|)
                       case RWriteIdx => p.(pc := LinkHead, ptrval := p.headval)
                       case ALockDat => p.(pc := ASeekDat)
                       case ASeekDat => p.(pc := AWriteDat, datoff := |s.dat|, datlen := |StoreData(p.call)|)
                       case AWriteDat => p.(pc := AUnlockDat)
                       case AUnlockDat => p.(pc := ALockIdx, ptrval := p.headval)
                       case ALockIdx => p.(pc := ASeekIdx)
                       case ASeekIdx => p.(pc := AWriteIdx, idxoff := |s.idx|)
                       case AWriteIdx => p.(pc := AUnlockIdx)
                       case AUnlockIdx => p.(pc := LinkHead)
                       case _ => p.(pc := UnlockChain, result := Code(0)))
  }

  // A store that reaches a size limit is gone, with its key absent.
  ghost predicate DieStep(s: Sys, w: World, s': Sys, w': World)
    requires |s.procs| == 1
  {
    && |s'.procs| == 1 && s'.procs[0].pc.Dead? && s'.idx == s.idx && s'.dat == s.dat
    && w'.m == w.m - {s.procs[0].call.key} && w'.free == w.free && w'.recs == w.recs
    && (s.procs[0].pc.AUnlockDat? ==> s.procs[0].headval <= PTR_MAX)
  }

  lemma TakePart(s: Sys, w: World)
    requires Inv(s, w) && |s.procs| == 1 && Survives(Next(s, 0), 0) && s.procs[0].pc.FTake?
    ensures StoreStep(s, w, Next(s, 0), WNext(s, w, 0))
  {
    hide Inv, Hash, ChainOff, WorldOk, MyChain, WriteAt, Enc, Pad, BodyLen, StoreData, PInv, Eff, CellsFor,
      PatchOf, IndexOf;
    Mine(s, w, 0);
    var p := s.procs[0];
    FreeWalkOnly(w, 0, p);
    FreeBound(w, p);
  }

  lemma FreePart(s: Sys, w: World)
    requires |s.procs| == 1 && (s.procs[0].pc.FUnlockHit? || s.procs[0].pc.FUnlockMiss?)
    ensures StoreStep(s, w, Next(s, 0), WNext(s, w, 0))
  {
    hide Hash, ChainOff, WriteAt, Enc, Pad, BodyLen, StoreData;
  }

  lemma ReusePart(s: Sys, w: World)
    requires Inv(s, w) && |s.procs| == 1 && Survives(Next(s, 0), 0)
    requires s.procs[0].pc.RWriteDat? || s.procs[0].pc.RWriteIdx?
    ensures StoreStep(s, w, Next(s, 0), WNext(s, w, 0))
  {
    hide Inv, StoreStep, DoRWriteDat, DoRWriteIdx, WRWriteDat, WRWriteIdx;
    if s.procs[0].pc.RWriteDat? {
      ReuseValue(s, w);
      assert Next(s, 0) == DoRWriteDat(s, 0) && WNext(s, w, 0) == WRWriteDat(w, s.procs[0]);
    } else {
      assert Next(s, 0) == DoRWriteIdx(s, 0) && WNext(s, w, 0) == WRWriteIdx(w, s.procs[0]);
      ReuseRecord(s, w);
    }
  }

  lemma ReuseValue(s: Sys, w: World)
    requires |s.procs| == 1 && s.procs[0].pc.RWriteDat?
    ensures StoreStep(s, w, DoRWriteDat(s, 0), WRWriteDat(w, s.procs[0]))
  {
    hide WriteAt, Enc, Pad, BodyLen, StoreData;
  }

  lemma ReuseRecord(s: Sys, w: World)
    requires Inv(s, w) && |s.procs| == 1 && s.procs[0].pc.RWriteIdx? && Survives(DoRWriteIdx(s, 0), 0)
    ensures StoreStep(s, w, DoRWriteIdx(s, 0), WRWriteIdx(w, s.procs[0]))
  {
    hide Inv, WriteAt, Enc, Pad, BodyLen, StoreData;
    var p := s.procs[0];
    ReuseHeld(s, w);
    SetCount(w.recs, p.idxoff, NewRec(p));
  }

  lemma ReuseHeld(s: Sys, w: World)
    requires Inv(s, w) && |s.procs| == 1 && s.procs[0].pc.RWriteIdx?
    ensures s.procs[0].idxoff in w.recs
  {
    hide Inv, Hash, ChainOff, WorldOk, MyChain, BodyLen, StoreData, PInv, Eff, CellsFor, PatchOf, HoldsChain;
    Mine(s, w, 0);
    FreeWalkOnly(w, 0, s.procs[0]);
  }

  lemma SetCount(m: map<nat, Rec>, o: nat, r: Rec)
    requires o in m
    ensures |m[o := r]| == |m|
  {
    assert m[o := r].Keys == m.Keys;
    assert |m[o := r].Keys| == |m[o := r]| && |m.Keys| == |m|;
  }

  lemma ValuePart(s: Sys, w: World)
    requires Inv(s, w) && |s.procs| == 1 && Survives(Next(s, 0), 0)
    requires OfStore(s.procs[0].pc) && 8 <= Stage(s.procs[0].pc) < 12
    ensures StoreStep(s, w, Next(s, 0), WNext(s, w, 0))
  {
    hide Inv, Hash, ChainOff, WorldOk, MyChain, WriteAt, Enc, Pad, BodyLen, StoreData, PInv, Eff, CellsFor,
      PatchOf;
    Mine(s, w, 0);
    AppendOnly(w, 0, s.procs[0]);
  }

  lemma RecordPart(s: Sys, w: World)
    requires Inv(s, w) && |s.procs| == 1 && Survives(Next(s, 0), 0)
    requires OfStore(s.procs[0].pc) && Stage(s.procs[0].pc) < 8 && !s.procs[0].pc.AWriteIdx?
    ensures StoreStep(s, w, Next(s, 0), WNext(s, w, 0))
  {
    hide Inv, Hash, ChainOff, WorldOk, MyChain, WriteAt, Enc, Pad, BodyLen, StoreData, PInv, Eff, CellsFor,
      PatchOf;
    ChainCount(s, w);
  }

  lemma NewRecordPart(s: Sys, w: World)
    requires Inv(s, w) && |s.procs| == 1 && Survives(Next(s, 0), 0) && s.procs[0].pc.AWriteIdx?
    ensures StoreStep(s, w, Next(s, 0), WNext(s, w, 0))
  {
    hide Inv, Hash, WriteAt, Enc, Pad, BodyLen, Next, WNext, DropAll;
    NewRecordNext(s, w);
    NewRecordCount(s, w);
  }

  lemma NewRecordCount(s: Sys, w: World)
    requires Inv(s, w) && |s.procs| == 1 && s.procs[0].pc.AWriteIdx?
    ensures |WAWriteIdx(w, 0, s.procs[0]).recs| == |w.recs| + 1
    ensures var p := s.procs[0];
      WAWriteIdx(w, 0, p).recs == w.recs[p.idxoff := NewRec(p)]
  {
    hide Inv, Hash, ChainOff, WriteAt, Enc, Pad, BodyLen, StoreData;
    RecordAtEnd(s, w);
    AddCount(w.recs, s.procs[0].idxoff, NewRec(s.procs[0]));
  }

  lemma RecordAtEnd(s: Sys, w: World)
    requires Inv(s, w) && |s.procs| == 1 && s.procs[0].pc.AWriteIdx?
    ensures s.procs[0].idxoff == |w.idx| && |w.idx| !in w.recs
  {
    hide Inv, Hash, ChainOff, WorldOk, MyChain, BodyLen, StoreData, PInv, Eff, CellsFor, PatchOf, HoldsChain,
      HoldsFree;
    Mine(s, w, 0);
    AppendOnly(w, 0, s.procs[0]);
    NewOffset(w);
  }

  lemma NewRecordNext(s: Sys, w: World)
    requires |s.procs| == 1 && s.procs[0].pc.AWriteIdx?
    ensures Next(s, 0) == DoAWriteIdx(s, 0) && WNext(s, w, 0) == WAWriteIdx(w, 0, s.procs[0])
  {
    hide Hash, WriteAt, Enc, Pad, BodyLen, StoreData;
  }

  lemma AddCount(m: map<nat, Rec>, o: nat, r: Rec)
    requires o !in m
    ensures |m[o := r]| == |m| + 1
  {
    var m' := m[o := r];
    assert m'.Keys == m.Keys + {o};
    assert |m'.Keys| == |m'| && |m.Keys| == |m|;
  }

  lemma GoStore(s: Sys, w: World) returns (s': Sys, w': World)
    requires Machine(s, w) && OfStore(s.procs[0].pc)
    ensures Machine(s', w')
    ensures if AtLimit(s.procs[0]) then DieStep(s, w, s', w') else StoreStep(s, w, s', w')
  {
    hide Inv, Owners, Next, WNext, StoreStep, DieStep, AtLimit;
    s', w' := Go(s, w);
    if AtLimit(s.procs[0]) {
      DiePart(s, w);
    } else if s.procs[0].pc.AWriteIdx? {
      NewRecordPart(s, w);
    } else if Stage(s.procs[0].pc) < 8 {
      RecordPart(s, w);
    } else if Stage(s.procs[0].pc) < 12 {
      ValuePart(s, w);
    } else if s.procs[0].pc.RWriteDat? || s.procs[0].pc.RWriteIdx? {
      ReusePart(s, w);
    } else if s.procs[0].pc.FTake? {
      TakePart(s, w);
    } else {
      FreePart(s, w);
    }
  }

  // ... away from the two places where it can die.
  lemma GoCalm(s: Sys, w: World) returns (s': Sys, w': World)
    requires Machine(s, w) && OfStore(s.procs[0].pc) && !s.procs[0].pc.AUnlockDat? && !s.procs[0].pc.LinkHead?
    ensures Machine(s', w') && StoreStep(s, w, s', w')
  {
    hide Machine, StoreStep;
    s', w' := GoStore(s, w);
  }

  lemma DiePart(s: Sys, w: World)
    requires Inv(s, w) && |s.procs| == 1 && AtLimit(s.procs[0])
    ensures DieStep(s, w, Next(s, 0), WNext(s, w, 0))
  {
    hide Inv, Hash, ChainOff, WorldOk, WriteAt, Enc, Pad, BodyLen, StoreData;
    var p := s.procs[0];
    if p.pc.AUnlockDat? {
      LimitSizes(s, w);
    }
  }

  lemma LimitSizes(s: Sys, w: World)
    requires Inv(s, w) && |s.procs| == 1 && s.procs[0].pc.AUnlockDat?
    ensures s.procs[0].headval <= PTR_MAX
  {
    hide Inv, Hash, ChainOff, WorldOk, MyChain, PInv, Eff, CellsFor, PatchOf;
    Mine(s, w, 0);
    AppendOnly(w, 0, s.procs[0]);
    CellBound(w, s.procs[0].chainoff);
  }

  // Taking the record that fits, and letting go of the free list.
  lemma GoTake(s: Sys, w: World) returns (s': Sys, w': World)
    requires Machine(s, w) && s.procs[0].pc.FTake?
    ensures Machine(s', w') && Taken(s, w, s', w')
  {
    hide Inv, Owners, WriteAt, Pad, Enc, StoreData;
    s', w' := GoCalm(s, w);
    s', w' := GoCalm(s', w');
  }

  // Nothing fits.
  lemma GoMiss(s: Sys, w: World) returns (s': Sys)
    requires Machine(s, w) && s.procs[0].pc.FUnlockMiss?
    ensures Machine(s', w) && Moved(s, s', s.procs[0].(pc := ALockDat))
  {
    hide Inv, Owners, AtLimit;
    var w';
    s', w' := Go(s, w);
  }

  ghost predicate Taken(s: Sys, w: World, s': Sys, w': World)
    requires |s.procs| == 1
  {
    var p := s.procs[0];
    && |s'.procs| == 1 && s'.procs[0] == p.(pc := RWriteDat) && s'.dat == s.dat && s'.log == s.log
    && s'.idx == WriteAt(s.idx, p.saveoffset, Pad(p.ptrval, PTR_SZ))
    && p.offset <= PTR_MAX && p.idxoff == p.offset && p.ptrval <= PTR_MAX
    && |w'.free| + 1 == |w.free| && |w'.recs| == |w.recs| && w'.m == w.m
  }

  // Writing the new value and record over the ones taken.
  lemma GoReuse(s: Sys, w: World) returns (s': Sys, w': World)
    requires Machine(s, w) && s.procs[0].pc.RWriteDat? && s.procs[0].idxoff <= PTR_MAX
    ensures Machine(s', w') && Reused(s, w, s', w')
  {
    hide Inv, Owners, WriteAt, Pad, Enc, StoreData;
    s', w' := GoCalm(s, w);
    s', w' := GoCalm(s', w');
    s', w' := GoStore(s', w');
  }

  ghost predicate Reused(s: Sys, w: World, s': Sys, w': World)
    requires |s.procs| == 1
  {
    var p := s.procs[0];
    var r := Rec(p.call.key, p.datoff, |StoreData(p.call)|);
    && |s'.procs| == 1 && s'.procs[0].pc.UnlockChain? && s'.procs[0].call == p.call && s'.log == s.log
    && s'.dat == WriteAt(s.dat, p.datoff, StoreData(p.call)) && Writable(p.headval, r)
    && s'.idx == WriteAt(WriteAt(s.idx, p.idxoff, Enc(p.headval, r)), p.chainoff, Pad(p.idxoff, PTR_SZ))
    && |w'.free| == |w.free| && |w'.recs| == |w.recs| && w'.m == w.m
  }

  // Appending the value; the length of the index record is then checked.
  lemma GoAppendDat(s: Sys, w: World) returns (s': Sys, w': World)
    requires Machine(s, w) && s.procs[0].pc.ALockDat?
    ensures Machine(s', w') && ValueAppended(s, w, s', w')
  {
    hide Inv, Owners, WriteAt, Pad, Enc, StoreData, BodyLen;
    s', w' := GoCalm(s, w);
    s', w' := GoCalm(s', w');
    s', w' := GoCalm(s', w');
    s', w' := GoStore(s', w');
  }

  ghost predicate ValueAppended(s: Sys, w: World, s': Sys, w': World)
    requires |s.procs| == 1
  {
    var p := s.procs[0];
    var n := |StoreData(p.call)|;
    && |s'.procs| == 1 && |w'.free| == |w.free| && |w'.recs| == |w.recs| && p.headval <= PTR_MAX
    && s'.idx == s.idx && s'.dat == WriteAt(s.dat, |s.dat|, StoreData(p.call))
    && if IDXLEN_MIN <= BodyLen(Rec(p.call.key, |s.dat|, n)) <= IDXLEN_MAX then
         && w'.m == w.m && s'.log == s.log
         && s'.procs[0] == p.(pc := ALockIdx, datoff := |s.dat|, datlen := n, ptrval := p.headval)
       else
         w'.m == w.m - {p.call.key} && s'.procs[0].pc.Dead?
  }

  // Appending the index record.
  lemma GoRecord(s: Sys, w: World) returns (s': Sys, w': World)
    requires Machine(s, w) && s.procs[0].pc.ALockIdx?
    ensures Machine(s', w') && RecordWritten(s, w, s', w')
  {
    hide Inv, Owners, WriteAt, Pad, Enc, StoreData, BodyLen;
    s', w' := GoCalm(s, w);
    s', w' := GoCalm(s', w');
    s', w' := GoCalm(s', w');
    s', w' := GoCalm(s', w');
  }

  ghost predicate RecordWritten(s: Sys, w: World, s': Sys, w': World)
    requires |s.procs| == 1
  {
    var p := s.procs[0];
    && |s'.procs| == 1 && s'.procs[0] == p.(pc := LinkHead, idxoff := |s.idx|) && s'.dat == s.dat && s'.log == s.log
    && s'.idx == WriteAt(s.idx, |s.idx|, Enc(p.headval, NewRec(p)))
    && |w'.free| == |w.free| && |w'.recs| == |w.recs| + 1 && w'.recs == w.recs[|s.idx| := NewRec(p)] && w'.m == w.m
  }

  // ... and linking it, unless its offset is too large.
  lemma GoAppendIdx(s: Sys, w: World) returns (s': Sys, w': World)
    requires Machine(s, w) && s.procs[0].pc.ALockIdx?
    ensures Machine(s', w') && RecordAppended(s, w, s', w')
  {
    hide Inv, Owners, WriteAt, Pad, Enc, StoreData, BodyLen;
    s', w' := GoRecord(s, w);
    s', w' := GoStore(s', w');
  }

  ghost predicate RecordAppended(s: Sys, w: World, s': Sys, w': World)
    requires |s.procs| == 1
  {
    var p := s.procs[0];
    var idx := WriteAt(s.idx, |s.idx|, Enc(p.headval, NewRec(p)));
    && |s'.procs| == 1 && |w'.free| == |w.free| && s'.dat == s.dat
    && |w'.recs| == |w.recs| + 1 && w'.recs == w.recs[|s.idx| := NewRec(p)]
    && if |s.idx| > PTR_MAX then
         s'.procs[0].pc.Dead? && s'.idx == idx && w'.m == w.m - {p.call.key}
       else
         && s'.procs[0].pc.UnlockChain? && s'.procs[0].call == p.call && s'.log == s.log
         && s'.idx == WriteAt(idx, p.chainoff, Pad(|s.idx|, PTR_SZ)) && w'.m == w.m
  }
}
