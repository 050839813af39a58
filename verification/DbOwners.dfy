// Who has each record. Between two lists a record is in the hands of exactly
// the process whose program counter says so; when no call is in progress every
// record is on its key's chain or on the free list, and the values of those
// records tile the data file.
module DbOwners {
  import opened Bytes
  import opened DbFormat
  import opened DbWorld
  import opened DbMachine
  import opened DbInv
  import opened DbStepRead
  import opened DbStepQuiet
  import opened DbStepWrite
  import opened DbStepDelete
  import opened DbStepStore
  import opened DbStepEnd
  import opened DbTheorems

  predicate HoldsRecord(p: Proc) {
    p.pc.DReadFree? || p.pc.DWriteIdx? || p.pc.DWriteFree? || p.pc.FUnlockHit?
    || p.pc.RWriteDat? || p.pc.RWriteIdx? || p.pc.AUnlockIdx? || p.pc.LinkHead?
  }

  predicate HoldsPending(p: Proc) {
    p.pc.AUnlockDat? || p.pc.ALockIdx? || p.pc.ASeekIdx? || p.pc.AWriteIdx?
  }

  predicate NoDeaths(log: seq<Event>) {
    forall k :: 0 <= k < |log| ==> log[k].Done?
  }

  ghost predicate HeldRight(s: Sys, w: World) {
    && (forall o :: o in w.loc && w.loc[o].HeldBy? ==>
          w.loc[o].pid < |s.procs| && HoldsRecord(s.procs[w.loc[o].pid]) && s.procs[w.loc[o].pid].idxoff == o)
    && (forall a :: a in w.dloc && w.dloc[a].Pending? ==>
          w.dloc[a].pid < |s.procs| && HoldsPending(s.procs[w.dloc[a].pid]) && s.procs[w.dloc[a].pid].datoff == a)
  }

  // A value is that of the record it is said to be of; a record is abandoned
  // only where no pointer can lead to it.
  ghost predicate PlacesRight(w: World) {
    && (forall a :: a in w.dloc && w.dloc[a].OfRec? ==> w.dloc[a].o in w.recs && w.recs[w.dloc[a].o].datoff == a)
    && (forall o :: o in w.loc && w.loc[o].Lost? ==> o > PTR_MAX)
  }

  ghost predicate NothingLost(w: World) {
    && (forall o :: o in w.loc ==> !w.loc[o].Lost?)
    && (forall a :: a in w.dloc ==> !w.dloc[a].LostData?)
  }

  ghost predicate Owners(s: Sys, w: World) {
    HeldRight(s, w) && PlacesRight(w) && (NoDeaths(s.log) ==> NothingLost(w))
  }

  // What process i has after its step it holds rightly; nobody gains by it.
  lemma OwnersBy(s: Sys, w: World, i: nat, s': Sys, w': World)
    requires HeldRight(s, w) && OnlyProc(s, i, s')
    requires forall o :: o in w'.loc && w'.loc[o].HeldBy? ==>
      if w'.loc[o].pid == i then HoldsRecord(s'.procs[i]) && s'.procs[i].idxoff == o
      else o in w.loc && w.loc[o] == w'.loc[o]
    requires forall a :: a in w'.dloc && w'.dloc[a].Pending? ==>
      if w'.dloc[a].pid == i then HoldsPending(s'.procs[i]) && s'.procs[i].datoff == a
      else a in w.dloc && w.dloc[a] == w'.dloc[a]
    ensures HeldRight(s', w')
  {}

  predicate Keeps(p: Proc, p': Proc) {
    && (HoldsRecord(p) ==> HoldsRecord(p') && p'.idxoff == p.idxoff)
    && (HoldsPending(p) ==> HoldsPending(p') && p'.datoff == p.datoff)
  }

  // Steps after which every record and every extent has the owner it had.
  predicate Passive(p: Proc) {
    && !p.pc.DWriteDat? && !p.pc.DWriteFree? && !p.pc.FTake?
    && !p.pc.AWriteDat? && !p.pc.AWriteIdx? && !p.pc.LinkHead? && !AtLimit(p)
  }

  lemma PassiveKeeps(s: Sys, i: nat)
    requires i < |s.procs| && Passive(s.procs[i]) && Survives(Next(s, i), i)
    ensures Keeps(s.procs[i], Next(s, i).procs[i])
  {
    hide GetPtr, ReadFront, ReadRest, ReadAt, WriteAt, BodyLen, Enc, Pad, Hash, ChainLock, FreeLock, DatLock,
      TailLock, StoreData, BlankData, DropAll, DoWalk1, DoWalk2, DoFWalk1, DoFWalk2, DoReadHead, DoReadDat,
      DoUnlockChain;
  }

  // Those of them that write.
  predicate Rewrites(p: Proc) {
    p.pc.OverWrite? || p.pc.DWriteIdx? || p.pc.DUnlink? || p.pc.RWriteDat? || p.pc.RWriteIdx?
  }

  lemma PassiveWorld(s: Sys, w: World, i: nat)
    requires Inv(s, w) && i < |s.procs| && Passive(s.procs[i]) && PlacesRight(w)
    ensures WNext(s, w, i).loc == w.loc && WNext(s, w, i).dloc == w.dloc && PlacesRight(WNext(s, w, i))
  {
    hide Inv, PlacesRight, WNext;
    if Rewrites(s.procs[i]) {
      RewriteWorld(s, w, i);
    } else {
      ReadingWorld(s, w, i);
    }
  }

  lemma RewriteWorld(s: Sys, w: World, i: nat)
    requires Inv(s, w) && i < |s.procs| && Rewrites(s.procs[i]) && PlacesRight(w)
    ensures WNext(s, w, i).loc == w.loc && WNext(s, w, i).dloc == w.dloc && PlacesRight(WNext(s, w, i))
  {
    hide Inv, Hash, ChainOff, WorldOk, MyChain, WriteAt, ReadAt, Enc, Pad, BodyLen, StoreData, BlankData,
      AppendInv, WalkInv;
    Mine(s, w, i);
  }

  lemma ReadingWorld(s: Sys, w: World, i: nat)
    requires i < |s.procs| && Passive(s.procs[i]) && !Rewrites(s.procs[i]) && PlacesRight(w)
    ensures WNext(s, w, i).loc == w.loc && WNext(s, w, i).dloc == w.dloc && PlacesRight(WNext(s, w, i))
  {
    hide Hash, ChainOff, BodyLen, SpecMap;
  }

  lemma PassiveOwners(s: Sys, w: World, i: nat, s': Sys, w': World)
    requires Inv(s, w) && Owners(s, w) && i < |s.procs| && Ready(s, i) && Passive(s.procs[i])
    requires s' == Next(s, i) && w' == WNext(s, w, i)
    ensures Owners(s', w')
  {
    hide Inv, WNext, Next, Keeps, HoldsRecord, HoldsPending, Ready;
    InvNext(s, w, i);
    PassiveKeeps(s, i);
    PassiveWorld(s, w, i);
    KeepsHeld(s, w, i, s', w');
    if NoDeaths(s'.log) {
      DeathsBefore(s, i);
    }
  }

  lemma KeepsHeld(s: Sys, w: World, i: nat, s': Sys, w': World)
    requires HeldRight(s, w) && OnlyProc(s, i, s') && Keeps(s.procs[i], s'.procs[i])
    requires w'.loc == w.loc && w'.dloc == w.dloc
    ensures HeldRight(s', w')
  {
    hide HoldsRecord, HoldsPending;
    OwnersBy(s, w, i, s', w');
  }

  // A step adds at most one line to the history, never removes one.
  lemma DeathsBefore(s: Sys, i: nat)
    requires i < |s.procs| && NoDeaths(Next(s, i).log)
    ensures NoDeaths(s.log)
  {
    LogGrows(s, i);
    var l := Next(s, i).log;
    forall k | 0 <= k < |s.log|
      ensures s.log[k].Done?
    {
      assert l[k] == s.log[k];
    }
  }

  lemma LogGrows(s: Sys, i: nat)
    requires i < |s.procs|
    ensures |s.log| <= |Next(s, i).log| && Next(s, i).log[..|s.log|] == s.log
  {
    hide GetPtr, ReadFront, ReadRest, ReadAt, WriteAt, BodyLen, Enc, Pad, Hash, ChainLock, FreeLock, DatLock,
      TailLock, StoreData, BlankData, DropAll, OnFound, OnMissing;
  }

  // ---------- the steps that move a record or an extent ----------

  lemma TakeChain(s: Sys, w: World, i: nat, s': Sys, w': World)
    requires Inv(s, w) && HeldRight(s, w) && PlacesRight(w) && i < |s.procs|
    requires s.procs[i].pc.DWriteDat?
    requires |w.chains| == NHASH && s.procs[i].offset in w.chains[HashOf(s.procs[i])] && s' == DoDWriteDat(s, i)
        && w' == WDWriteDat(w, i, s.procs[i]) && Survives(s', i)
    ensures HeldRight(s', w') && PlacesRight(w') && (NothingLost(w) ==> NothingLost(w'))
  {
    hide Inv, Hash, ChainOff, MyChain, WriteAt, ReadAt, Enc, Pad, BodyLen, StoreData, BlankData, SpecMap,
      SpecResult, WorldOk, FreeWalkInv, AppendInv, WalkInv, IndexOf, RemoveAt;
    Mine(s, w, i);
    OwnersBy(s, w, i, s', w');
  }

  lemma TakeFree(s: Sys, w: World, i: nat, s': Sys, w': World)
    requires Inv(s, w) && HeldRight(s, w) && PlacesRight(w) && i < |s.procs|
    requires s.procs[i].pc.FTake?
    requires s.procs[i].offset in w.free && s' == DoFTake(s, i) && w' == WFTake(w, i, s.procs[i]) && Survives(s', i)
    ensures HeldRight(s', w') && PlacesRight(w') && (NothingLost(w) ==> NothingLost(w'))
  {
    hide Inv, Hash, ChainOff, MyChain, WriteAt, ReadAt, Enc, Pad, BodyLen, StoreData, BlankData, SpecMap,
      SpecResult, WorldOk, PInv, Eff, CellsFor, PatchOf, IndexOf, RemoveAt;
    Mine(s, w, i);
    FreeWalkOnly(w, i, s.procs[i]);
    OwnersBy(s, w, i, s', w');
  }

  lemma GiveFree(s: Sys, w: World, i: nat, s': Sys, w': World)
    requires Inv(s, w) && HeldRight(s, w) && PlacesRight(w) && i < |s.procs|
    requires s.procs[i].pc.DWriteFree?
    requires s' == DoDWriteFree(s, i) && w' == WDWriteFree(w, s.procs[i]) && Survives(s', i)
    ensures HeldRight(s', w') && PlacesRight(w') && (NothingLost(w) ==> NothingLost(w'))
  {
    hide Inv, Hash, ChainOff, MyChain, WriteAt, ReadAt, Enc, Pad, BodyLen, StoreData, BlankData, SpecMap,
      SpecResult, WorldOk, FreeWalkInv, AppendInv, WalkInv;
    Mine(s, w, i);
    OwnersBy(s, w, i, s', w');
  }

  lemma GiveChain(s: Sys, w: World, i: nat, s': Sys, w': World)
    requires Inv(s, w) && HeldRight(s, w) && PlacesRight(w) && i < |s.procs|
    requires s.procs[i].pc.LinkHead? && !AtLimit(s.procs[i])
    requires s' == Next(s, i) && w' == WNext(s, w, i) && Survives(s', i)
    ensures HeldRight(s', w') && PlacesRight(w') && (NothingLost(w) ==> NothingLost(w'))
  {
    hide Inv, Hash, ChainOff, MyChain, WriteAt, ReadAt, Enc, Pad, BodyLen, StoreData, BlankData, SpecMap,
      SpecResult, WorldOk, PInv, Eff, CellsFor, PatchOf;
    Mine(s, w, i);
    AppendOnly(w, i, s.procs[i]);
    OwnersBy(s, w, i, s', w');
  }

  lemma AppendValue(s: Sys, w: World, i: nat, s': Sys, w': World)
    requires Inv(s, w) && HeldRight(s, w) && PlacesRight(w) && i < |s.procs|
    requires s.procs[i].pc.AWriteDat?
    requires s' == DoAWriteDat(s, i) && w' == WAWriteDat(w, i, s.procs[i]) && Survives(s', i)
    ensures HeldRight(s', w') && PlacesRight(w') && (NothingLost(w) ==> NothingLost(w'))
  {
    hide Inv, Hash, ChainOff, MyChain, WriteAt, ReadAt, Enc, Pad, BodyLen, StoreData, BlankData, SpecMap,
      SpecResult, WorldOk, PInv, Eff, CellsFor, PatchOf;
    Mine(s, w, i);
    AppendOnly(w, i, s.procs[i]);
    OwnersBy(s, w, i, s', w');
  }

  lemma AppendRecord(s: Sys, w: World, i: nat, s': Sys, w': World)
    requires Inv(s, w) && HeldRight(s, w) && PlacesRight(w) && i < |s.procs|
    requires s.procs[i].pc.AWriteIdx?
    requires s' == DoAWriteIdx(s, i) && w' == WAWriteIdx(w, i, s.procs[i]) && Survives(s', i)
    ensures HeldRight(s', w') && PlacesRight(w') && (NothingLost(w) ==> NothingLost(w'))
  {
    hide Inv, Hash, ChainOff, MyChain, WriteAt, ReadAt, Enc, Pad, BodyLen, StoreData, WorldOk, PInv, Eff,
      CellsFor, PatchOf, HeldRight, PlacesRight, NothingLost;
    Mine(s, w, i);
    AppendOnly(w, i, s.procs[i]);
    NewOffset(w);
    RecordHeld(s, w, i, s', w');
    RecordPlaces(w, i, s.procs[i]);
  }

  lemma RecordHeld(s: Sys, w: World, i: nat, s': Sys, w': World)
    requires HeldRight(s, w) && i < |s.procs| && s.procs[i].pc.AWriteIdx? && s.procs[i].idxoff == |w.idx|
    requires s.procs[i].datoff in w.dloc && w.dloc[s.procs[i].datoff] == Pending(i)
    requires s' == DoAWriteIdx(s, i) && w' == WAWriteIdx(w, i, s.procs[i])
    ensures HeldRight(s', w')
  {
    hide Hash, WriteAt, Enc, BodyLen;
    OwnersBy(s, w, i, s', w');
  }

  lemma RecordPlaces(w: World, i: nat, p: Proc)
    requires PlacesRight(w) && |w.idx| !in w.recs
    ensures PlacesRight(WAWriteIdx(w, i, p)) && (NothingLost(w) ==> NothingLost(WAWriteIdx(w, i, p)))
  {
    hide WriteAt, Enc, BodyLen;
  }

  lemma NewOffset(w: World)
    requires WorldOk(w)
    ensures |w.idx| !in w.recs
  {
    hide ListsOk, FreeInv, HeaderOk, CellsOk, DatOk, RecAt, RecOk;
    AddRecTiling(w, Rec([], 0, 0));
  }

  lemma ActiveDie(s: Sys, w: World, i: nat, s': Sys, w': World)
    requires Inv(s, w) && HeldRight(s, w) && PlacesRight(w) && i < |s.procs| && AtLimit(s.procs[i])
    requires s' == Next(s, i) && w' == WNext(s, w, i)
    ensures HeldRight(s', w') && PlacesRight(w') && !NoDeaths(s'.log)
  {
    hide Inv, Hash, ChainOff, WorldOk, MyChain, ReadAt, StoreData, BodyLen, PInv, Eff, CellsFor, PatchOf,
      Next, WNext, HeldRight, PlacesRight, DropAll;
    Mine(s, w, i);
    AppendOnly(w, i, s.procs[i]);
    CellBound(w, s.procs[i].chainoff);
    DeathNext(s, w, i);
    DeathHeld(s, w, i, w');
    assert s'.log[|s.log|] == Died(i, s.procs[i].call);
  }

  lemma DeathNext(s: Sys, w: World, i: nat)
    requires i < |s.procs| && AtLimit(s.procs[i])
    ensures Next(s, i) == Die(s, i)
    ensures WNext(s, w, i) ==
      if s.procs[i].pc.LinkHead? then WDieLink(w, s.procs[i]) else WDieAppend(w, s.procs[i])
  {
    hide Hash, BodyLen, WriteAt, DropAll;
  }

  lemma DeathHeld(s: Sys, w: World, i: nat, w': World)
    requires HeldRight(s, w) && PlacesRight(w) && i < |s.procs| && AtLimit(s.procs[i])
    requires s.procs[i].pc.AUnlockDat? ==> s.procs[i].datoff in w.dloc && w.dloc[s.procs[i].datoff] == Pending(i)
    requires s.procs[i].pc.LinkHead? ==> s.procs[i].idxoff in w.loc && w.loc[s.procs[i].idxoff] == HeldBy(i)
    requires w' == if s.procs[i].pc.LinkHead? then WDieLink(w, s.procs[i]) else WDieAppend(w, s.procs[i])
    ensures HeldRight(Die(s, i), w') && PlacesRight(w')
  {
    hide Hash, BodyLen, DropAll;
    OwnersBy(s, w, i, Die(s, i), w');
  }

  // What those steps are.
  lemma ActiveNext(s: Sys, w: World, i: nat)
    requires Inv(s, w) && i < |s.procs|
    ensures var p := s.procs[i];
      && (p.pc.DWriteDat? ==>
            && |w.chains| == NHASH && p.offset in w.chains[HashOf(p)]
            && Next(s, i) == DoDWriteDat(s, i) && WNext(s, w, i) == WDWriteDat(w, i, p))
      && (p.pc.FTake? ==>
            p.offset in w.free && Next(s, i) == DoFTake(s, i) && WNext(s, w, i) == WFTake(w, i, p))
  {
    hide Inv, Hash, ChainOff, WorldOk, MyChain, WriteAt, Enc, Pad, BodyLen, StoreData, BlankData, AppendInv,
      WalkInv, Eff, CellsFor, PatchOf, IndexOf, RemoveAt;
    Mine(s, w, i);
    Whole(s, w);
  }

  lemma AppendNext(s: Sys, w: World, i: nat)
    requires i < |s.procs|
    ensures var p := s.procs[i];
      && (p.pc.AWriteDat? ==> Next(s, i) == DoAWriteDat(s, i) && WNext(s, w, i) == WAWriteDat(w, i, p))
      && (p.pc.AWriteIdx? ==> Next(s, i) == DoAWriteIdx(s, i) && WNext(s, w, i) == WAWriteIdx(w, i, p))
      && (p.pc.DWriteFree? ==> Next(s, i) == DoDWriteFree(s, i) && WNext(s, w, i) == WDWriteFree(w, p))
  {
    hide Hash, ChainOff, WriteAt, Enc, Pad, BodyLen, StoreData;
  }

  lemma OwnersNext(s: Sys, w: World, i: nat, s': Sys, w': World)
    requires Inv(s, w) && Owners(s, w) && i < |s.procs| && Ready(s, i)
    requires s' == Next(s, i) && w' == WNext(s, w, i)
    ensures Owners(s', w')
  {
    hide Inv, WNext, Next, HeldRight, PlacesRight, NothingLost, Ready, NoDeaths;
    var p := s.procs[i];
    InvNext(s, w, i);
    ActiveNext(s, w, i);
    AppendNext(s, w, i);
    if NoDeaths(s'.log) {
      DeathsBefore(s, i);
    }
    if Passive(p) {
      PassiveOwners(s, w, i, s', w');
    } else if AtLimit(p) {
      ActiveDie(s, w, i, s', w');
    } else if p.pc.DWriteDat? {
      TakeChain(s, w, i, s', w');
    } else if p.pc.FTake? {
      TakeFree(s, w, i, s', w');
    } else if p.pc.AWriteDat? {
      AppendValue(s, w, i, s', w');
    } else if p.pc.AWriteIdx? {
      AppendRecord(s, w, i, s', w');
    } else if p.pc.DWriteFree? {
      GiveFree(s, w, i, s', w');
    } else {
      GiveChain(s, w, i, s', w');
    }
  }

  lemma OwnersBegin(s: Sys, w: World, i: nat, c: Call)
    requires Owners(s, w) && i < |s.procs| && s.procs[i].pc.Idle?
    ensures Owners(Begin(s, i, c), w)
  {
    hide Hash, PlacesRight, NothingLost;
    var s' := Begin(s, i, c);
    OwnersBy(s, w, i, s', w);
    if NoDeaths(s'.log) {
      forall k | 0 <= k < |s.log|
        ensures s.log[k].Done?
      {
        assert s'.log[k] == s.log[k];
      }
    }
  }

  lemma {:induction false} RunOwners(t: seq<Sys>, n: nat) returns (w: World)
    requires Run(t, n)
    ensures Inv(t[|t| - 1], w) && Owners(t[|t| - 1], w)
  {
    hide Inv, Owners, Next, Begin, CallOk, Ready, WNext, Init;
    if |t| == 1 {
      InvInit(n);
      w := EmptyWorld();
      OwnersInit(n);
    } else {
      var t0 := t[..|t| - 1];
      var s, s' := t[|t| - 2], t[|t| - 1];
      assert s == t0[|t0| - 1];
      var w0 := RunOwners(t0, n);
      assert Step(s, s');
      var i :| Moves(s, i, s');
      if Ready(s, i) && s' == Next(s, i) {
        InvNext(s, w0, i);
        w := WNext(s, w0, i);
        OwnersNext(s, w0, i, s', w);
      } else {
        var c :| CallOk(c) && s' == Begin(s, i, c);
        StepBegin(s, w0, i, c);
        OwnersBegin(s, w0, i, c);
        w := w0;
      }
    }
  }

  lemma OwnersInit(n: nat)
    ensures Owners(Init(n), EmptyWorld())
  {
    hide EmptyIndex;
  }

  // ---------- results about every run ----------

  // No call is in progress; some processes may have died.
  ghost predicate AllQuiet(s: Sys) {
    forall i :: 0 <= i < |s.procs| ==> s.procs[i].pc.Idle? || s.procs[i].pc.Dead?
  }

  // The record is on no list.
  ghost predicate Unlisted(w: World, o: nat) {
    o !in w.free && forall c :: c in w.chains ==> o !in c
  }

  ghost predicate OfSomeRecord(w: World, a: nat)
    requires a in w.ext
  {
    exists o :: o in w.recs && w.recs[o].datoff == a && w.recs[o].datlen == w.ext[a]
  }

  // Main result. Whenever no call is in progress the index file is, after its
  // header, a run of well-formed records. Each of them is on exactly one list,
  // the chain of its key's hash or the free list, unless it starts past the
  // largest pointer: then it is on none, and the process that appended it has
  // died. All 138 lists end in 0 without repeating a record. The data file is
  // tiled by lines, the values of those records and what a process that died
  // left behind; and the records on the chains are exactly the map.
  lemma QuietPartition(t: seq<Sys>, n: nat) returns (w: World)
    requires Run(t, n) && AllQuiet(t[|t| - 1])
    ensures w.idx == t[|t| - 1].idx && w.dat == t[|t| - 1].dat && Rep(w) && |w.chains| == NHASH
    ensures Linked(w.cells, FREE_OFF, w.free) && NoDup(w.free)
    ensures forall h :: 0 <= h < NHASH ==>
      Linked(w.cells, ChainOff(h), w.chains[h]) && NoDup(w.chains[h]) && Content(w, h, Replay(t[|t| - 1].log))
    ensures forall o :: o in w.recs ==>
      if o > PTR_MAX then Unlisted(w, o) && !NoDeaths(t[|t| - 1].log)
      else (o in w.free && AllBlank(w.recs[o].key)) != (o in w.chains[Hash(w.recs[o].key)])
    ensures forall a :: a in w.ext ==> OfSomeRecord(w, a) || !NoDeaths(t[|t| - 1].log)
  {
    hide Step, Init, Hash, Rep, Linked, Content, ChainOff, NoDup, AllBlank, Replay, Legal, Unlisted, NoDeaths;
    w := RunOwners(t, n);
    var s := t[|t| - 1];
    Whole(s, w);
    QuietChains(s, w);
    forall h | 0 <= h < NHASH
      ensures Linked(w.cells, ChainOff(h), w.chains[h]) && NoDup(w.chains[h]) && Content(w, h, w.m)
    {
      assert ChainInv(w, h, w.cells, w.m);
    }
    forall o | o in w.recs
      ensures if o > PTR_MAX then Unlisted(w, o) && !NoDeaths(s.log)
              else (o in w.free && AllBlank(w.recs[o].key)) != (o in w.chains[Hash(w.recs[o].key)])
    {
      QuietRecord(s, w, o);
      RecFacts(w, o);
    }
    forall a | a in w.ext
      ensures OfSomeRecord(w, a) || !NoDeaths(s.log)
    {
      ExtFacts(w, a);
      if w.dloc[a].OfRec? {
        RecFacts(w, w.dloc[a].o);
      }
    }
  }

  lemma QuietChains(s: Sys, w: World)
    requires Inv(s, w) && AllQuiet(s)
    ensures forall h :: 0 <= h < NHASH ==> ChainInv(w, h, w.cells, w.m)
  {
    hide WorldOk, LocksOk, Coupled, PInv, MyChain, ChainInv;
    Whole(s, w);
    forall h | 0 <= h < NHASH
      ensures ChainInv(w, h, w.cells, w.m)
    {
      assert NoWriter(s, h);
    }
  }

  lemma QuietRecord(s: Sys, w: World, o: nat)
    requires Inv(s, w) && HeldRight(s, w) && PlacesRight(w) && AllQuiet(s) && o in w.recs
    ensures o > PTR_MAX <==> o in w.loc && w.loc[o].Lost?
    ensures
      if o > PTR_MAX then Unlisted(w, o)
      else (o in w.free && AllBlank(w.recs[o].key)) != (o in w.chains[Hash(w.recs[o].key)])
  {
    hide Inv, WorldOk, LocksOk, Coupled, PInv, MyChain, Linked, Hash, DataOf, AllBlank;
    Whole(s, w);
    RecFacts(w, o);
    QuietChains(s, w);
    QuietPlace(w, o);
    assert !w.loc[o].HeldBy?;
    if w.loc[o].OnChain? {
      assert ChainInv(w, w.loc[o].h, w.cells, w.m);
      ListedSmall(w, ChainOff(w.loc[o].h), w.chains[w.loc[o].h], o);
    } else if w.loc[o].OnFree? {
      FreeRecs(w, o);
      ListedSmall(w, FREE_OFF, w.free, o);
    }
  }

  lemma ListedSmall(w: World, start: nat, path: seq<nat>, o: nat)
    requires WorldOk(w) && Linked(w.cells, start, path) && o in path
    ensures o <= PTR_MAX
  {
    hide WorldOk;
    var k := IndexOf(path, o);
    assert w.cells[At(start, path, k)] == Nth(path, k);
    CellBound(w, At(start, path, k));
  }

  lemma Whole(s: Sys, w: World)
    requires Inv(s, w)
    ensures WorldOk(w) && |w.chains| == NHASH
  {}

  lemma QuietPlace(w: World, o: nat)
    requires WorldOk(w) && o in w.loc
    ensures w.loc[o].OnChain? ==> w.loc[o].h < NHASH && o in w.chains[w.loc[o].h]
    ensures o in w.free <==> w.loc[o] == OnFree
    ensures o in w.free ==> o in w.recs && AllBlank(w.recs[o].key)
    ensures forall h :: 0 <= h < NHASH && o in w.chains[h] ==> w.loc[o] == OnChain(h)
  {
    hide Rep, Linked, AllBlank;
  }
}
