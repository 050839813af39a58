// The lock protocol of the database: who can wait for whom, why nobody waits
// for ever in a circle, and why both list walks come to an end.
module DbProgress {
  import opened Bytes
  import opened DbFormat
  import opened DbWorld
  import opened DbMachine
  import opened DbInv
  import opened DbStepFrame
  import opened DbStepRead
  import opened DbStepQuiet
  import opened DbStepEnd
  import opened DbTheorems

  predicate MidCall(p: Proc) { !p.pc.Idle? && !p.pc.Dead? }

  // ---------- the locked byte ranges ----------

  // Two locks overlap only when they are the same resource: one chain's byte,
  // the free-list byte, the index tail, or the whole data file.
  lemma RangesDisjoint(s: Sys, w: World, a: Lock, b: Lock)
    requires Inv(s, w) && a in s.locks && b in s.locks
    ensures Overlap(a, b) <==> a.file == b.file && a.start == b.start
    ensures a.pid != b.pid && Overlap(a, b) ==> !a.write && !b.write
  {
    hide Hash, Coupled, WorldOk, MyChain, ChainInv, PInv;
    assert a in Held(a.pid, s.procs[a.pid]) && b in Held(b.pid, s.procs[b.pid]);
    assert !Conflict(a, b);
  }

  // A process that waits holds nothing, or exactly the byte of its chain; and
  // it waits for its chain only in the first case.
  lemma WaitOrder(i: nat, p: Proc)
    requires Wanted(i, p).Some?
    ensures p.pc.LockChain? ==> Held(i, p) == {} && Wanted(i, p).value == ChainLock(i, p)
    ensures !p.pc.LockChain? ==>
      && Held(i, p) == {ChainLock(i, p)}
      && Wanted(i, p).value in {FreeLock(i), TailLock(i), DatLock(i)}
    ensures !HoldsFree(p) && !HoldsDat(p) && !HoldsTail(p)
  {
    hide Hash;
  }

  // Whoever holds the free list, the data file or the index tail is not waiting.
  lemma RegionHolderMoves(s: Sys, q: nat)
    requires q < |s.procs| && (HoldsFree(s.procs[q]) || HoldsDat(s.procs[q]) || HoldsTail(s.procs[q]))
    ensures Ready(s, q)
  {}

  // A process kept from one of the three is kept by one that can move.
  lemma RegionWait(s: Sys, w: World, i: nat) returns (q: nat)
    requires Inv(s, w) && i < |s.procs| && MidCall(s.procs[i]) && !Ready(s, i) && !s.procs[i].pc.LockChain?
    ensures q < |s.procs| && Ready(s, q)
  {
    hide Hash, Coupled, WorldOk, MyChain, ChainInv, PInv;
    var l := Wanted(i, s.procs[i]).value;
    var x :| x in s.locks && Conflict(l, x);
    q := x.pid;
    assert x in Held(q, s.procs[q]);
    RegionHolderMoves(s, q);
  }

  // Main result: no state of any run is a deadlock.
  lemma NoDeadlock(t: seq<Sys>, n: nat, i: nat) returns (j: nat)
    requires Run(t, n)
    requires i < |t[|t| - 1].procs| && MidCall(t[|t| - 1].procs[i])
    ensures j < |t[|t| - 1].procs| && Ready(t[|t| - 1], j)
  {
    var w := RunInv(t, n);
    j := SomeoneReady(t[|t| - 1], w, i);
  }

  lemma SomeoneReady(s: Sys, w: World, i: nat) returns (j: nat)
    requires Inv(s, w) && i < |s.procs| && MidCall(s.procs[i])
    ensures j < |s.procs| && Ready(s, j)
  {
    hide Inv, Ready;
    if Ready(s, i) {
      j := i;
    } else if !s.procs[i].pc.LockChain? {
      j := RegionWait(s, w, i);
    } else {
      var q := ChainWait(s, w, i);
      if Ready(s, q) {
        j := q;
      } else {
        j := RegionWait(s, w, q);
      }
    }
  }

  lemma ChainWait(s: Sys, w: World, i: nat) returns (q: nat)
    requires Inv(s, w) && i < |s.procs| && s.procs[i].pc.LockChain? && !Ready(s, i)
    ensures q < |s.procs| && MidCall(s.procs[q]) && !s.procs[q].pc.LockChain?
  {
    hide Hash, Coupled, WorldOk, MyChain, ChainInv, PInv;
    var l := ChainLock(i, s.procs[i]);
    var x :| x in s.locks && Conflict(l, x);
    q := x.pid;
    assert x in Held(q, s.procs[q]);
  }

  // ---------- the walks end ----------

  // How far a call still is from its end: the stage it is in, and inside a
  // list walk the records left.
  function Stage(pc: PC): nat {
    match pc
    case Idle => 0 case Dead => 0
    case UnlockChain => 1
    case FReadDat => 2 case OverWrite => 2
    case LinkHead => 3
    case AUnlockIdx => 4 case AWriteIdx => 5 case ASeekIdx => 6 case ALockIdx => 7
    case AUnlockDat => 8 case AWriteDat => 9 case ASeekDat => 10 case ALockDat => 11
    case FUnlockMiss => 12
    case RWriteIdx => 13 case RWriteDat => 14 case FUnlockHit => 15 case FTake => 16
    case FWalk1 => 17 case FWalk2 => 17
    case FReadFree => 18 case FLockFree => 19 case SReadHead => 20
    case AReadHead => 21
    case DUnlockFree => 22 case DUnlink => 23 case DWriteFree => 24 case DWriteIdx => 25
    case DReadFree => 26 case DWriteDat => 27 case DLockFree => 28
    case Walk1 => 29 case Walk2 => 29
    case ReadHead => 30 case LockChain => 31
  }

  ghost function Left(w: World, p: Proc): nat {
    var h := HashOf(p);
    if p.pc.Walk1? && h < |w.chains| && p.offset in w.chains[h] then
      2 * (|w.chains[h]| - IndexOf(w.chains[h], p.offset)) + 1
    else if p.pc.Walk2? && h < |w.chains| && p.offset in w.chains[h] then
      2 * (|w.chains[h]| - IndexOf(w.chains[h], p.offset))
    else if p.pc.FWalk1? && p.offset in w.free then 2 * (|w.free| - IndexOf(w.free, p.offset)) + 1
    else if p.pc.FWalk2? && p.offset in w.free then 2 * (|w.free| - IndexOf(w.free, p.offset))
    else 0
  }

  ghost predicate Nearer(w: World, p: Proc, w': World, p': Proc) {
    Stage(p'.pc) < Stage(p.pc) || (Stage(p'.pc) == Stage(p.pc) && Left(w', p') < Left(w, p))
  }

  lemma WalkNearer(s: Sys, w: World, i: nat)
    requires Inv(s, w) && i < |s.procs| && s.procs[i].pc.Walk2?
    ensures Nearer(w, s.procs[i], w, DoWalk2(s, i).procs[i])
  {
    hide Inv, Hash, ChainOff, NoByte, WorldOk, LocksOk, MyChain, ReadRest, BodyLen, DataOf, Content;
    var p := s.procs[i];
    var h := HashOf(p);
    Mine(s, w, i);
    GetRest(w, p);
    MyLinks(s, w, i);
    ChainRecs(w, h, p.offset);
    Follow(w.cells, ChainOff(h), w.chains[h], p.offset);
  }

  lemma MyLinks(s: Sys, w: World, i: nat)
    requires Inv(s, w) && i < |s.procs| && HoldsChain(s.procs[i]) && PatchOf(s.procs[i]).None?
    ensures Linked(w.cells, ChainOff(HashOf(s.procs[i])), w.chains[HashOf(s.procs[i])])
  {
    hide Hash, Rep, ListsOk, FreeInv, PInv, Content, LocksOk, Eff, PatchOf, ChainOff;
    assert MyChain(w, s.procs[i]);
  }

  lemma FreeWalkNearer(s: Sys, w: World, i: nat)
    requires Inv(s, w) && i < |s.procs| && s.procs[i].pc.FWalk2?
    ensures Nearer(w, s.procs[i], w, DoFWalk2(s, i).procs[i])
  {
    hide Inv, Hash, ChainOff, NoByte, WorldOk, LocksOk, MyChain, ReadRest, BodyLen;
    var p := s.procs[i];
    Mine(s, w, i);
    FreeWalkOnly(w, i, p);
    GetRest(w, p);
    FreeRecs(w, p.offset);
    Follow(w.cells, FREE_OFF, w.free, p.offset);
  }

  lemma FrontNearer(s: Sys, w: World, i: nat)
    requires Inv(s, w) && i < |s.procs|
    ensures s.procs[i].pc.Walk1? ==> Nearer(w, s.procs[i], w, DoWalk1(s, i).procs[i])
    ensures s.procs[i].pc.FWalk1? ==> Nearer(w, s.procs[i], w, DoFWalk1(s, i).procs[i])
  {
    hide Inv, Hash, ChainOff, NoByte, WorldOk, LocksOk, MyChain, ReadFront, BodyLen;
    var p := s.procs[i];
    Mine(s, w, i);
    if p.pc.Walk1? {
      GetFront(w, p, Walk2);
    } else if p.pc.FWalk1? {
      FreeWalkOnly(w, i, p);
      GetFront(w, p, FWalk2);
    }
  }

  predicate Early(pc: PC) { Stage(pc) >= 21 }

  lemma EarlyDown(s: Sys, i: nat)
    requires i < |s.procs| && Early(s.procs[i].pc) && !s.procs[i].pc.Walk1? && !s.procs[i].pc.Walk2?
    ensures Stage(Next(s, i).procs[i].pc) < Stage(s.procs[i].pc)
  {
    hide GetPtr, ReadAt, WriteAt, BodyLen, Enc, Pad, Hash, ChainLock, FreeLock, DatLock, TailLock, DropAll,
      StoreData, BlankData;
  }

  lemma SearchDown(s: Sys, i: nat)
    requires i < |s.procs| && 12 <= Stage(s.procs[i].pc) < 21 && !s.procs[i].pc.FWalk1? && !s.procs[i].pc.FWalk2?
    ensures Stage(Next(s, i).procs[i].pc) < Stage(s.procs[i].pc)
  {
    hide GetPtr, ReadAt, WriteAt, BodyLen, Enc, Pad, Hash, ChainLock, FreeLock, DatLock, TailLock, DropAll,
      StoreData, BlankData;
  }

  lemma LateDown(s: Sys, i: nat)
    requires i < |s.procs| && 0 < Stage(s.procs[i].pc) < 12
    ensures Stage(Next(s, i).procs[i].pc) < Stage(s.procs[i].pc)
  {
    hide Next;
    if Stage(s.procs[i].pc) < 6 {
      LastDown(s, i);
    } else {
      AppendDown(s, i);
    }
  }

  lemma LastDown(s: Sys, i: nat)
    requires i < |s.procs| && 0 < Stage(s.procs[i].pc) < 6
    ensures Stage(Next(s, i).procs[i].pc) < Stage(s.procs[i].pc)
  {
    hide GetPtr, ReadAt, WriteAt, BodyLen, Enc, Pad, Hash, ChainLock, FreeLock, DatLock, TailLock, DropAll,
      StoreData, BlankData;
  }

  lemma AppendDown(s: Sys, i: nat)
    requires i < |s.procs| && 6 <= Stage(s.procs[i].pc) < 12
    ensures Stage(Next(s, i).procs[i].pc) < Stage(s.procs[i].pc)
  {
    hide GetPtr, ReadAt, WriteAt, BodyLen, Enc, Pad, Hash, ChainLock, FreeLock, DatLock, TailLock, DropAll,
      StoreData, BlankData;
  }

  // ---------- the history ----------

  // A call leaves one line in the history, by the system call that ends it: its
  // own call with its own result, or its death. So each line lies between the
  // beginning and the end of its call, and the order of the lines respects the
  // order of calls that do not overlap.
  lemma OneLinePerCall(s: Sys, i: nat)
    requires i < |s.procs| && MidCall(s.procs[i])
    ensures OneLine(s, i, Next(s, i))
  {
    hide OneLine, Next;
    if s.procs[i].pc.ReadHead? || s.procs[i].pc.Walk2? {
      OneLineWalk(s, i);
    } else if 22 <= Stage(s.procs[i].pc) < 29 {
      OneLineDelete(s, i);
    } else if Early(s.procs[i].pc) {
      OneLineEarly(s, i);
    } else if Stage(s.procs[i].pc) >= 17 {
      OneLineSearch(s, i);
    } else if Stage(s.procs[i].pc) >= 12 {
      OneLineReuse(s, i);
    } else {
      OneLineLate(s, i);
    }
  }

  predicate OneLine(s: Sys, i: nat, s': Sys)
    requires i < |s.procs| == |s'.procs|
  {
    var p, p' := s.procs[i], s'.procs[i];
    && p'.call == p.call
    && (if MidCall(p') then s'.log == s.log
        else if p'.pc.Idle? then s'.log == s.log + [Done(i, p.call, p.result)]
        else s'.log == s.log + [Died(i, p.call)])
  }

  lemma OneLineWalk(s: Sys, i: nat)
    requires i < |s.procs| && (s.procs[i].pc.ReadHead? || s.procs[i].pc.Walk2?)
    ensures OneLine(s, i, Next(s, i))
  {
    hide Hash, ParseBody, BodyLen, Digits, Atol, Enc;
  }

  lemma OneLineDelete(s: Sys, i: nat)
    requires i < |s.procs| && 22 <= Stage(s.procs[i].pc) < 29
    ensures OneLine(s, i, Next(s, i))
  {
    hide Hash, ParseBody, BodyLen, Digits, Atol, Enc, WriteAt, Pad, DropAll, BlankData;
  }

  lemma OneLineEarly(s: Sys, i: nat)
    requires i < |s.procs| && (s.procs[i].pc.AReadHead? || s.procs[i].pc.Walk1? || s.procs[i].pc.LockChain?)
    ensures OneLine(s, i, Next(s, i))
  {
    hide Hash, ParseBody, BodyLen, Digits, Atol, Enc;
  }

  lemma OneLineReuse(s: Sys, i: nat)
    requires i < |s.procs| && 12 <= Stage(s.procs[i].pc) < 17
    ensures OneLine(s, i, Next(s, i))
  {
    hide Hash, ParseBody, BodyLen, Digits, Atol, Enc, WriteAt, Pad, DropAll;
  }

  lemma OneLineSearch(s: Sys, i: nat)
    requires i < |s.procs| && 17 <= Stage(s.procs[i].pc) < 21
    ensures OneLine(s, i, Next(s, i))
  {
    hide Hash, ParseBody, BodyLen, Digits, Atol, Enc;
  }

  lemma OneLineLate(s: Sys, i: nat)
    requires i < |s.procs| && 0 < Stage(s.procs[i].pc) < 12
    ensures OneLine(s, i, Next(s, i))
  {
    hide Hash, ParseBody, BodyLen, Digits, Atol, Enc;
  }

  // ---------- every system call ----------

  // Every system call of a process brings its call nearer to its end.
  lemma StepNearer(s: Sys, w: World, i: nat, s': Sys, w': World)
    requires Inv(s, w) && i < |s.procs| && Ready(s, i)
    requires s' == Next(s, i) && w' == WNext(s, w, i)
    ensures i < |s'.procs| && Nearer(w, s.procs[i], w', s'.procs[i])
  {
    hide Inv, Left, Grantable, DoWalk1, DoWalk2, DoFWalk1, DoFWalk2;
    var pc := s.procs[i].pc;
    if pc.Walk2? {
      WalkNearer(s, w, i);
    } else if pc.FWalk2? {
      FreeWalkNearer(s, w, i);
    } else if pc.Walk1? || pc.FWalk1? {
      FrontNearer(s, w, i);
    } else {
      if Early(pc) {
        EarlyDown(s, i);
      } else if Stage(pc) >= 12 {
        SearchDown(s, i);
      } else {
        LateDown(s, i);
      }
    }
  }

  // And no step of another process takes it further away.
  lemma OthersNearer(s: Sys, w: World, i: nat, q: nat, s': Sys, w': World)
    requires Inv(s, w) && i < |s.procs| && q < |s.procs| && q != i && Ready(s, i)
    requires s' == Next(s, i) && w' == WNext(s, w, i)
    ensures |s'.procs| == |s.procs| && s'.procs[q] == s.procs[q]
    ensures Left(w', s.procs[q]) == Left(w, s.procs[q])
  {
    hide Inv, Hash, WorldOk, LocksOk, PInv, Grantable, Next, WNext;
    LegalLog(s, w);
    Writers(s, w, i);
    ChainsMoved(s, w, i);
    if !HoldsFree(s.procs[i]) {
      FreeMoved(s, w, i);
    }
    if HoldsChain(s.procs[q]) && WritesChain(s.procs[i]) {
      ChainExclusion(s, i, q);
    }
    if HoldsFree(s.procs[i]) {
      FreeExclusion(s, i, q);
    }
  }

  lemma Writers(s: Sys, w: World, i: nat)
    requires Inv(s, w) && i < |s.procs|
    ensures |w.chains| == NHASH
    ensures s.procs[i].pc.DWriteDat? || s.procs[i].pc.LinkHead? ==> WritesChain(s.procs[i])
  {
    hide Inv, Hash, WorldOk, LocksOk, MyChain;
    ChainCount(s, w);
    Mine(s, w, i);
  }

  lemma ChainCount(s: Sys, w: World)
    requires Inv(s, w)
    ensures |w.chains| == NHASH
  {}

  // Only two steps change a chain, and only two the free list.
  lemma ChainsMoved(s: Sys, w: World, i: nat)
    requires i < |s.procs| && |w.chains| == NHASH
    ensures var p := s.procs[i];
      var w' := WNext(s, w, i);
      && |w'.chains| == NHASH
      && (forall h :: 0 <= h < NHASH && !((p.pc.DWriteDat? || p.pc.LinkHead?) && HashOf(p) == h) ==>
          w'.chains[h] == w.chains[h])
  {
    hide WriteAt, Enc, Pad, BodyLen, Hash, SizesOk, StoreData, BlankData, SpecMap, IndexOf, RemoveAt, WNext;
    var p := s.procs[i];
    if p.pc.DWriteDat? || p.pc.LinkHead? {
      OneChainMoved(s, w, i);
    } else {
      NoChainMoved(s, w, i);
    }
  }

  lemma OneChainMoved(s: Sys, w: World, i: nat)
    requires i < |s.procs| && |w.chains| == NHASH && (s.procs[i].pc.DWriteDat? || s.procs[i].pc.LinkHead?)
    ensures var w' := WNext(s, w, i);
      |w'.chains| == NHASH && forall h :: 0 <= h < NHASH && h != HashOf(s.procs[i]) ==> w'.chains[h] == w.chains[h]
  {
    hide WriteAt, Enc, Pad, BodyLen, Hash, StoreData, BlankData, IndexOf, RemoveAt;
  }

  lemma NoChainMoved(s: Sys, w: World, i: nat)
    requires i < |s.procs| && !s.procs[i].pc.DWriteDat? && !s.procs[i].pc.LinkHead?
    ensures WNext(s, w, i).chains == w.chains
  {
    hide WNext;
    if Stage(s.procs[i].pc) < 12 {
      LateMoves(s, w, i);
    } else {
      EarlyMoves(s, w, i);
    }
  }

  lemma FreeMoved(s: Sys, w: World, i: nat)
    requires i < |s.procs| && !HoldsFree(s.procs[i])
    ensures WNext(s, w, i).free == w.free
  {
    hide WNext;
    if Stage(s.procs[i].pc) < 12 {
      LateMoves(s, w, i);
    } else {
      EarlyMoves(s, w, i);
    }
  }

  lemma LateMoves(s: Sys, w: World, i: nat)
    requires i < |s.procs| && Stage(s.procs[i].pc) < 12
    ensures WNext(s, w, i).free == w.free
    ensures !s.procs[i].pc.LinkHead? ==> WNext(s, w, i).chains == w.chains
  {
    hide WNext;
    if Stage(s.procs[i].pc) < 5 {
      LastMoves(s, w, i);
    } else {
      AppendMoves(s, w, i);
    }
  }

  lemma LastMoves(s: Sys, w: World, i: nat)
    requires i < |s.procs| && Stage(s.procs[i].pc) < 5
    ensures WNext(s, w, i).free == w.free
    ensures !s.procs[i].pc.LinkHead? ==> WNext(s, w, i).chains == w.chains
  {
    hide WriteAt, Enc, Pad, BodyLen, Hash, SizesOk, StoreData, BlankData, SpecMap, IndexOf, RemoveAt;
  }

  lemma AppendMoves(s: Sys, w: World, i: nat)
    requires i < |s.procs| && 5 <= Stage(s.procs[i].pc) < 12
    ensures WNext(s, w, i).free == w.free && WNext(s, w, i).chains == w.chains
  {
    hide WriteAt, Enc, Pad, BodyLen, Hash, SizesOk, StoreData, BlankData, SpecMap, IndexOf, RemoveAt;
  }

  lemma EarlyMoves(s: Sys, w: World, i: nat)
    requires i < |s.procs| && Stage(s.procs[i].pc) >= 12
    ensures !s.procs[i].pc.DWriteFree? && !s.procs[i].pc.FTake? ==> WNext(s, w, i).free == w.free
    ensures !s.procs[i].pc.DWriteDat? ==> WNext(s, w, i).chains == w.chains
  {
    hide WriteAt, Enc, Pad, BodyLen, Hash, SizesOk, StoreData, BlankData, SpecMap, IndexOf, RemoveAt;
  }

  // ---------- a call alone ends ----------

  // k system calls of process i, nobody else moving.
  function Solo(s: Sys, i: nat, k: nat): (s': Sys)
    requires i < |s.procs|
    ensures OnlyProc(s, i, s')
    decreases k
  {
    if k == 0 then s else Solo(Next(s, i), i, k - 1)
  }

  ghost predicate OthersQuiet(s: Sys, i: nat) {
    forall q :: 0 <= q < |s.procs| && q != i ==> !MidCall(s.procs[q])
  }

  lemma AloneReady(s: Sys, w: World, i: nat)
    requires Inv(s, w) && i < |s.procs| && MidCall(s.procs[i]) && OthersQuiet(s, i)
    ensures Ready(s, i)
  {
    hide Hash, Coupled, WorldOk, MyChain, ChainInv, PInv;
    forall x | x in s.locks
      ensures x.pid == i
    {
      assert x in Held(x.pid, s.procs[x.pid]);
    }
  }

  // Main result. A call that nobody interferes with comes to its end: the
  // lists are acyclic, so both walks stop, whatever the order of the offsets.
  lemma {:induction false} SoloFinishes(s: Sys, w: World, i: nat) returns (k: nat)
    requires Inv(s, w) && i < |s.procs| && OthersQuiet(s, i)
    ensures !MidCall(Solo(s, i, k).procs[i])
    decreases Stage(s.procs[i].pc), Left(w, s.procs[i])
  {
    hide Inv, Next, WNext, Left, Hash, Ready;
    if !MidCall(s.procs[i]) {
      k := 0;
    } else {
      AloneReady(s, w, i);
      InvNext(s, w, i);
      StepNearer(s, w, i, Next(s, i), WNext(s, w, i));
      var k' := SoloFinishes(Next(s, i), WNext(s, w, i), i);
      k := k' + 1;
    }
  }

  // ---------- reuse ----------

  // Main result. When a process is about to take a record off the free list,
  // no chain followed from its head, in the bytes as they are, comes to that
  // record: deletion unlinks before it lets go of the free list.
  lemma ReuseSafe(t: seq<Sys>, n: nat, i: nat) returns (w: World)
    requires Run(t, n)
    requires i < |t[|t| - 1].procs| && t[|t| - 1].procs[i].pc.FTake?
    ensures w.idx == t[|t| - 1].idx && Rep(w) && |w.chains| == NHASH
    ensures forall h :: 0 <= h < NHASH ==>
      Linked(w.cells, ChainOff(h), w.chains[h]) && t[|t| - 1].procs[i].offset !in w.chains[h]
  {
    hide Inv, Step, Init, Hash, WorldOk, LocksOk, Linked, MyChain, PInv;
    var s := t[|t| - 1];
    w := RunInv(t, n);
    Mine(s, w, i);
    FreeWalkOnly(w, i, s.procs[i]);
    ReuseWorld(w, s.procs[i].offset);
    forall h | 0 <= h < NHASH
      ensures Linked(w.cells, ChainOff(h), w.chains[h])
    {
      ChainWhole(s, w, i, h);
    }
  }

  lemma ReuseWorld(w: World, o: nat)
    requires WorldOk(w) && o in w.free
    ensures Rep(w) && forall h :: 0 <= h < NHASH ==> o !in w.chains[h]
  {
    hide Rep, Linked, AllBlank;
  }

  // While somebody holds the free list, nobody else is half way through an unlinking.
  lemma ChainWhole(s: Sys, w: World, i: nat, h: nat)
    requires Inv(s, w) && i < |s.procs| && s.procs[i].pc.FTake? && h < NHASH
    ensures |w.chains| == NHASH && Linked(w.cells, ChainOff(h), w.chains[h])
  {
    hide Hash, Rep, ListsOk, FreeInv, Content, LocksOk, Linked, PInv, Coupled;
    if NoWriter(s, h) {
      assert ChainInv(w, h, w.cells, w.m);
    } else {
      var q :| 0 <= q < |s.procs| && WritesChain(s.procs[q]) && HashOf(s.procs[q]) == h;
      assert MyChain(w, s.procs[q]);
      if q != i {
        FreeExclusion(s, i, q);
      }
    }
  }
}
