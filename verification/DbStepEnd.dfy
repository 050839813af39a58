// How a call starts and how it ends: by releasing its chain with a result, or
// by dying at a size limit.
module DbStepEnd {
  import opened Bytes
  import opened DbFormat
  import opened DbWorld
  import opened DbMachine
  import opened DbInv
  import opened DbStable
  import opened DbStepFrame
  import opened DbStepRead
  import opened DbStepQuiet
  import opened DbStepLists
  import opened DbStepWrite

  // ---------- the history grows ----------

  lemma ReplayAppend(log: seq<Event>, e: Event)
    ensures Replay(log + [e]) == Effect(Replay(log), e)
  {
    assert (log + [e])[..|log|] == log;
  }

  lemma LegalAppend(log: seq<Event>, e: Event)
    requires Legal(log)
    requires e.Done? ==> e.result == SpecResult(Replay(log), e.call)
    ensures Legal(log + [e])
  {
    hide SpecResult, Replay;
    var log' := log + [e];
    forall k | 0 <= k < |log'| && log'[k].Done?
      ensures log'[k].result == SpecResult(Replay(log'[..k]), log'[k].call)
    {
      assert log'[..k] == log[..k];
      if k == |log| {
        assert log[..k] == log;
      }
    }
  }

  // A call changes the map at its own key only.
  lemma SpecKeys(m: Map, c: Call, h: nat)
    requires h != Hash(c.key)
    ensures SameKeys(m, SpecMap(m, c), h) && SameKeys(m, m - {c.key}, h)
  {}

  lemma FetchKeys(m: Map, c: Call, h: nat)
    requires c.Fetch?
    ensures SameKeys(m, SpecMap(m, c), h)
  {}

  // Changing the map at one's own key, and letting go of what one holds.
  lemma LetGo(w: World, w': World, i: nat, p: Proc, t: set<nat>)
    requires WorldOk(w) && HoldsChain(p)
    requires w' == w.(m := w'.m, loc := w'.loc, dloc := w'.dloc) && WorldOk(w')
    requires forall h :: 0 <= h < NHASH && !(WritesChain(p) && HashOf(p) == h) ==> SameKeys(w.m, w'.m, h)
    requires forall o :: o in t && o in w.recs ==> Owned(w, i, p, o)
    requires forall o :: o in w.loc && o !in t ==> o in w'.loc && w'.loc[o] == w.loc[o]
    requires forall a :: a in w.dloc && w.dloc[a].Pending? && w.dloc[a] != Pending(i) ==>
      a in w'.dloc && w'.dloc[a] == w.dloc[a]
    ensures Guarantee(w, w', i, p)
  {
    hide Rep, ListsOk, FreeInv, Hash, SameKeys, Owned, ReadAt, HoldsFree, HoldsDat, HoldsTail, HoldsChain;
    forall x | x in w.recs && x !in t
      ensures SameRec(w, w', x) && x in w.loc
    {
      RecFacts(w, x);
    }
    forall a | a in w.dloc
      ensures a in w.ext
    {
      ExtFacts(w, a);
    }
    forall h | 0 <= h < NHASH
      ensures ChainOff(h) in w.cells && FREE_OFF in w.cells
    {
      StartsOutside(w, h);
    }
    StartsOutside(w, 0);
    Guaranteed(w, w', i, p, t);
  }

  // ---------- the end of a call ----------

  function WUnlockChain(w: World, p: Proc): World { w.(m := SpecMap(w.m, p.call)) }

  lemma MapOnly(w: World, m: Map)
    requires WorldOk(w)
    ensures WorldOk(w.(m := m))
  {
    hide Rep, Linked, AllBlank;
    SameFiles(w, w.(m := m));
  }

  lemma UnlockLocks(i: nat, p: Proc)
    requires p.pc.UnlockChain?
    ensures Held(i, p.(pc := Idle)) == Held(i, p) - {ChainLock(i, p)}
  {}

  // A chain whose contents are what the map now says.
  lemma ChainHandedBack(w: World, w': World, p: Proc)
    requires |w.chains| == NHASH && w'.chains == w.chains && w'.recs == w.recs && w'.dat == w.dat && w'.cells == w.cells
    requires MyChain(w, p) && PatchOf(p).None? && w'.m == Eff(p, w.m)
    ensures ChainInv(w', HashOf(p), w'.cells, w'.m)
  {
    hide Hash, DataOf, Eff, PatchOf;
    var h := HashOf(p);
    forall key | key in w'.m && Hash(key) == h
      ensures HasKey(w', w'.chains[h], key)
    {
      assert HasKey(w, w.chains[h], key);
    }
  }

  lemma StepUnlockChain(s: Sys, w: World, i: nat)
    requires Inv(s, w) && i < |s.procs| && s.procs[i].pc.UnlockChain?
    ensures Inv(DoUnlockChain(s, i), WUnlockChain(w, s.procs[i]))
  {
    hide Inv, Hash, ChainOff, NoByte, WorldOk, LocksOk, MyChain, PInv, SpecMap, SpecResult, Held, Guarantee,
      ChainInv, Replay, Legal, Eff, PatchOf;
    var p := s.procs[i];
    var s' := DoUnlockChain(s, i);
    var w' := WUnlockChain(w, p);
    Mine(s, w, i);
    EndOnly(w, i, p);
    MapOnly(w, w'.m);
    NothingToKnow(w', i, s'.procs[i]);
    UnlockLocks(i, p);
    ReleaseLocksLogged(s, w, i, s');
    var e := Done(i, p.call, p.result);
    ReplayAppend(s.log, e);
    LegalLog(s, w);
    LegalAppend(s.log, e);
    forall h | 0 <= h < NHASH && !(WritesChain(p) && HashOf(p) == h)
      ensures SameKeys(w.m, w'.m, h)
    {
      if p.call.Fetch? {
        FetchKeys(w.m, p.call, h);
      } else {
        SpecKeys(w.m, p.call, h);
      }
    }
    LetGo(w, w', i, p, {});
    ChainHandedBack(w, w', p);
    Assemble(s, w, i, s', w');
  }

  lemma LegalLog(s: Sys, w: World)
    requires Inv(s, w)
    ensures Legal(s.log) && LocksOk(s)
  {}

  lemma ReleaseLocksLogged(s: Sys, w: World, i: nat, s': Sys)
    requires Inv(s, w) && i < |s.procs| && s.procs[i].pc.UnlockChain? && s' == DoUnlockChain(s, i)
    ensures LocksOk(s')
  {
    hide Inv, Held, Overlap, Conflict;
    var p := s.procs[i];
    LegalLog(s, w);
    UnlockLocks(i, p);
    ReleaseLocks(s, i, p.(pc := Idle), ChainLock(i, p));
  }

  // ---------- dying at a limit ----------

  // The value was appended, but its index record would be too short or too long.
  function WDieAppend(w: World, p: Proc): World {
    w.(m := w.m - {p.call.key}, dloc := w.dloc[p.datoff := LostData])
  }

  // The record was appended past the largest offset a pointer field can hold.
  function WDieLink(w: World, p: Proc): World {
    w.(m := w.m - {p.call.key}, loc := w.loc[p.idxoff := Lost])
  }

  lemma DieAppendWorld(w: World, i: nat, p: Proc)
    requires WorldOk(w) && HasPending(w, i, p)
    ensures WorldOk(WDieAppend(w, p))
  {
    hide HeaderOk, CellsOk, RecsOk, HasValue, LinesOk, ListsOk, FreeInv;
    var w' := WDieAppend(w, p);
    SameLines(w, w');
    SameLists(w, w');
    assert w'.dloc.Keys == w.dloc.Keys;
    KeepIndex(w, w');
    ExtKeys(w, w', p.datoff);
  }

  lemma SameLists(w: World, w': World)
    requires ListsOk(w) && FreeInv(w) && w'.chains == w.chains && w'.free == w.free && w'.loc == w.loc
    requires w'.recs == w.recs && w'.cells == w.cells
    ensures ListsOk(w') && FreeInv(w')
  {
    hide Linked, AllBlank;
  }

  lemma KeepIndex(w: World, w': World)
    requires HeaderOk(w) && CellsOk(w) && RecsOk(w)
    requires w'.idx == w.idx && w'.cells == w.cells && w'.recs == w.recs
    ensures HeaderOk(w') && CellsOk(w') && RecsOk(w')
  {
    SameIdx(w, w');
  }

  lemma ExtKeys(w: World, w': World, a: nat)
    requires DatOk(w) && a in w.dloc && !w.dloc[a].OfRec?
    requires w'.dat == w.dat && w'.ext == w.ext && w'.recs == w.recs && w'.dloc == w.dloc[a := LostData]
    ensures DatOk(w')
  {
    assert w'.dloc.Keys == w.dloc.Keys;
  }

  lemma DieLinkWorld(w: World, i: nat, p: Proc)
    requires WorldOk(w) && p.idxoff in w.loc && w.loc[p.idxoff] == HeldBy(i)
    ensures WorldOk(WDieLink(w, p))
  {
    hide Rep, Linked, AllBlank;
    var w' := WDieLink(w, p);
    SameFiles(w, w');
    assert w'.loc.Keys == w.loc.Keys;
  }

  lemma DieStore(s: Sys, w: World, i: nat, w': World, t: set<nat>)
    requires Inv(s, w) && i < |s.procs|
    requires var p := s.procs[i];
      p.call.Store? && WritesChain(p) && PatchOf(p).None? && Eff(p, w.m) == w.m - {p.call.key}
      && w' == w.(m := w.m - {p.call.key}, loc := w'.loc, dloc := w'.dloc) && WorldOk(w')
      && (forall o :: o in t && o in w.recs ==> Owned(w, i, p, o))
      && (forall o :: o in w.loc && o !in t ==> o in w'.loc && w'.loc[o] == w.loc[o])
      && (forall a :: a in w.dloc && w.dloc[a].Pending? && w.dloc[a] != Pending(i) ==>
            a in w'.dloc && w'.dloc[a] == w.dloc[a])
    ensures Inv(Die(s, i), w')
  {
    hide Inv, Hash, WorldOk, LocksOk, MyChain, PInv, Held, Guarantee, ChainInv, Replay, Legal, Eff, PatchOf,
      HoldsChain, Owned;
    var p := s.procs[i];
    var s' := Die(s, i);
    Mine(s, w, i);
    LegalLog(s, w);
    DieLocks(s, i);
    NothingToKnow(w', i, s'.procs[i]);
    ReplayAppend(s.log, Died(i, p.call));
    LegalAppend(s.log, Died(i, p.call));
    forall h | 0 <= h < NHASH && !(WritesChain(p) && HashOf(p) == h)
      ensures SameKeys(w.m, w'.m, h)
    {
      SpecKeys(w.m, p.call, h);
    }
    LetGo(w, w', i, p, t);
    ChainHandedBack(w, w', p);
    DeadHolds(p);
    Assemble(s, w, i, s', w');
  }

  lemma DeadHolds(p: Proc)
    ensures !HoldsChain(p.(pc := Dead))
  {}

  lemma StepDieAppend(s: Sys, w: World, i: nat)
    requires Inv(s, w) && i < |s.procs| && s.procs[i].pc.AUnlockDat?
    requires !SizesOk(s.procs[i])
    ensures Inv(DoAUnlockDat(s, i), WDieAppend(w, s.procs[i]))
  {
    hide Inv, Hash, ChainOff, NoByte, WorldOk, LocksOk, MyChain, PInv, BodyLen, HoldsFree, HoldsDat,
      HoldsTail, Eff, CellsFor, PatchOf;
    var p := s.procs[i];
    Mine(s, w, i);
    AppendOnly(w, i, p);
    DieAppendWorld(w, i, p);
    DieStore(s, w, i, WDieAppend(w, p), {});
  }

  lemma StepDieLink(s: Sys, w: World, i: nat)
    requires Inv(s, w) && i < |s.procs| && s.procs[i].pc.LinkHead? && s.procs[i].idxoff > PTR_MAX
    ensures Inv(DoLinkHead(s, i), WDieLink(w, s.procs[i]))
  {
    hide Inv, Hash, ChainOff, NoByte, WorldOk, LocksOk, MyChain, PInv, BodyLen, HoldsFree, HoldsDat,
      HoldsTail, Eff, CellsFor, PatchOf;
    var p := s.procs[i];
    Mine(s, w, i);
    AppendOnly(w, i, p);
    DieLinkWorld(w, i, p);
    DieStore(s, w, i, WDieLink(w, p), {p.idxoff});
  }

  // ---------- the start of a call ----------

  lemma StepBegin(s: Sys, w: World, i: nat, c: Call)
    requires Inv(s, w) && i < |s.procs| && s.procs[i].pc.Idle? && CallOk(c)
    ensures Inv(Begin(s, i, c), w)
  {
    hide Inv, Hash, WorldOk, LocksOk, MyChain, Replay, Legal, KeyOk, NoByte, Guarantee;
    var p := s.procs[i];
    var s' := Begin(s, i, c);
    Mine(s, w, i);
    LegalLog(s, w);
    BeginLocks(s, i, c);
    if c.Store? && c.flag == BadFlag {
      var e := Done(i, c, Code(-1));
      ReplayAppend(s.log, e);
      LegalAppend(s.log, e);
      GuaranteeRefl(w, i, p);
      Assemble(s, w, i, s', w);
    } else {
      Quiet(s, w, i, s');
    }
  }

  lemma BeginLocks(s: Sys, i: nat, c: Call)
    requires LocksOk(s) && i < |s.procs| && s.procs[i].pc.Idle?
    ensures LocksOk(Begin(s, i, c))
  {
    hide Hash, Conflict;
    var s' := Begin(s, i, c);
    assert s'.procs == s.procs[i := s'.procs[i]];
    SameLocks(s, s', i, s'.procs[i]);
  }
}
