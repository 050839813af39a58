// Every schedule of the database comes to an end: how many system calls the
// calls in progress can still make between them, whatever the interleaving.
module DbSchedules {
  import opened Bytes
  import opened DbFormat
  import opened DbWorld
  import opened DbMachine
  import opened DbInv
  import opened DbStepRead
  import opened DbStepDelete
  import opened DbStepStore
  import opened DbStepEnd
  import opened DbTheorems
  import opened DbProgress
  import opened DbOwners

  // The calls that may still append an index record.
  function Appenders(ps: seq<Proc>): nat {
    if ps == [] then 0 else Appenders(ps[..|ps| - 1]) + (if Stage(ps[|ps| - 1].pc) >= 5 then 1 else 0)
  }

  // No list can ever be longer than k.
  ghost predicate Bounded(s: Sys, w: World, k: nat) { |w.recs| + Appenders(s.procs) <= k }

  // What is left of a call: its stage, and within the stage the records left.
  ghost function Rest(w: World, p: Proc, k: nat): nat { Stage(p.pc) * (2 * k + 2) + Left(w, p) }

  ghost function Total(w: World, ps: seq<Proc>, k: nat): nat {
    if ps == [] then 0 else Total(w, ps[..|ps| - 1], k) + Rest(w, ps[|ps| - 1], k)
  }

  lemma {:induction false} AppendersUpdate(ps: seq<Proc>, i: nat, p: Proc)
    requires i < |ps|
    ensures Appenders(ps[i := p]) ==
      Appenders(ps) - (if Stage(ps[i].pc) >= 5 then 1 else 0) + (if Stage(p.pc) >= 5 then 1 else 0)
  {
    var n := |ps| - 1;
    if i == n {
      assert ps[i := p][..n] == ps[..n];
    } else {
      assert ps[i := p][..n] == ps[..n][i := p];
      AppendersUpdate(ps[..n], i, p);
    }
  }

  lemma {:induction false} TotalDown(w: World, w': World, ps: seq<Proc>, ps': seq<Proc>, i: nat, k: nat)
    requires i < |ps| == |ps'| && Rest(w', ps'[i], k) < Rest(w, ps[i], k)
    requires forall q :: 0 <= q < |ps| && q != i ==> Rest(w', ps'[q], k) == Rest(w, ps[q], k)
    ensures Total(w', ps', k) < Total(w, ps, k)
  {
    hide Rest;
    var n := |ps| - 1;
    if i == n {
      TotalSame(w, w', ps[..n], ps'[..n], k);
    } else {
      TotalDown(w, w', ps[..n], ps'[..n], i, k);
    }
  }

  lemma {:induction false} TotalSame(w: World, w': World, ps: seq<Proc>, ps': seq<Proc>, k: nat)
    requires |ps| == |ps'| && forall q :: 0 <= q < |ps| ==> Rest(w', ps'[q], k) == Rest(w, ps[q], k)
    ensures Total(w', ps', k) == Total(w, ps, k)
  {
    hide Rest;
    if ps != [] {
      TotalSame(w, w', ps[..|ps| - 1], ps'[..|ps| - 1], k);
    }
  }

  // ---------- lists are no longer than the file has records ----------

  lemma {:induction false} ListLength(path: seq<nat>, keys: set<nat>)
    requires NoDup(path) && forall k :: 0 <= k < |path| ==> path[k] in keys
    ensures |path| <= |keys|
    decreases |path|
  {
    if path != [] {
      var n := |path| - 1;
      assert |keys - {path[n]}| == |keys| - 1;
      ListLength(path[..n], keys - {path[n]});
    }
  }

  lemma LeftBound(s: Sys, w: World, i: nat)
    requires Inv(s, w) && i < |s.procs|
    ensures Left(w, s.procs[i]) <= 2 * |w.recs| + 1
  {
    hide Inv, WorldOk, Hash;
    Whole(s, w);
    var h := HashOf(s.procs[i]);
    forall k | 0 <= k < |w.chains[h]|
      ensures w.chains[h][k] in w.recs.Keys
    {
      ChainRecs(w, h, w.chains[h][k]);
    }
    ChainRecs(w, h, 0);
    ListLength(w.chains[h], w.recs.Keys);
    forall k | 0 <= k < |w.free|
      ensures w.free[k] in w.recs.Keys
    {
      FreeRecs(w, w.free[k]);
    }
    FreeRecs(w, 0);
    ListLength(w.free, w.recs.Keys);
    assert |w.recs.Keys| == |w.recs|;
  }

  // ---------- one step ----------

  // Only an append adds a record.
  lemma RecordsAfter(s: Sys, w: World, i: nat)
    requires Inv(s, w) && i < |s.procs|
    ensures |WNext(s, w, i).recs| <= |w.recs| + (if s.procs[i].pc.AWriteIdx? then 1 else 0)
  {
    hide Inv, WNext;
    if s.procs[i].pc.AWriteIdx? || s.procs[i].pc.RWriteIdx? || s.procs[i].pc.DWriteIdx? {
      RecordsWritten(s, w, i);
    } else {
      RecordsKept(s, w, i);
    }
  }

  lemma RecordsKept(s: Sys, w: World, i: nat)
    requires i < |s.procs| && !s.procs[i].pc.AWriteIdx? && !s.procs[i].pc.RWriteIdx? && !s.procs[i].pc.DWriteIdx?
    ensures WNext(s, w, i).recs == w.recs
  {
    hide WNext;
    if Stage(s.procs[i].pc) < 5 {
      KeptAtEnd(s, w, i);
    } else if Stage(s.procs[i].pc) < 12 {
      KeptAppending(s, w, i);
    } else if Stage(s.procs[i].pc) < 22 {
      KeptSearching(s, w, i);
    } else {
      KeptDeleting(s, w, i);
    }
  }

  lemma KeptAtEnd(s: Sys, w: World, i: nat)
    requires i < |s.procs| && Stage(s.procs[i].pc) < 5
    ensures WNext(s, w, i).recs == w.recs
  {
    hide Hash, WriteAt, Pad, BodyLen, StoreData, SpecMap;
    var p := s.procs[i];
    if p.pc.OverWrite? {
      assert WNext(s, w, i) == WOverWrite(w, p);
    } else if p.pc.UnlockChain? {
      assert WNext(s, w, i) == WUnlockChain(w, p);
    }
  }

  lemma KeptAppending(s: Sys, w: World, i: nat)
    requires i < |s.procs| && 5 < Stage(s.procs[i].pc) < 12
    ensures WNext(s, w, i).recs == w.recs
  {
    hide Hash, WriteAt, Pad, BodyLen, StoreData, SpecMap;
  }

  lemma KeptSearching(s: Sys, w: World, i: nat)
    requires i < |s.procs| && 12 <= Stage(s.procs[i].pc) < 22 && !s.procs[i].pc.RWriteIdx?
    ensures WNext(s, w, i).recs == w.recs
  {
    hide Hash, WriteAt, Pad, BodyLen, StoreData, BlankData, IndexOf, RemoveAt;
    var p := s.procs[i];
    if p.pc.RWriteDat? {
      assert WNext(s, w, i) == WRWriteDat(w, p);
    }
  }

  lemma KeptDeleting(s: Sys, w: World, i: nat)
    requires i < |s.procs| && Stage(s.procs[i].pc) >= 22 && !s.procs[i].pc.DWriteIdx?
    ensures WNext(s, w, i).recs == w.recs
  {
    hide Hash, WriteAt, Pad, BodyLen, StoreData, BlankData, IndexOf, RemoveAt;
    var p := s.procs[i];
    if p.pc.DWriteFree? {
      assert WNext(s, w, i) == WDWriteFree(w, p);
    } else if p.pc.DUnlink? {
      assert WNext(s, w, i) == WDUnlink(w, p);
    }
  }

  lemma RecordsWritten(s: Sys, w: World, i: nat)
    requires Inv(s, w) && i < |s.procs|
    requires s.procs[i].pc.AWriteIdx? || s.procs[i].pc.RWriteIdx? || s.procs[i].pc.DWriteIdx?
    ensures |WNext(s, w, i).recs| <= |w.recs| + (if s.procs[i].pc.AWriteIdx? then 1 else 0)
  {
    hide Inv, Hash, WorldOk, MyChain, WriteAt, ReadAt, Enc, Pad, BodyLen, StoreData, BlankData, SpecMap, Eff,
      CellsFor, PatchOf;
    Mine(s, w, i);
    var p := s.procs[i];
    var o := if p.pc.AWriteIdx? then |w.idx| else p.idxoff;
    PutSize(w.recs, o, WNext(s, w, i).recs[o]);
  }

  lemma PutSize(m: map<nat, Rec>, o: nat, r: Rec)
    ensures |m[o := r]| == |m| + (if o in m then 0 else 1)
  {
    var m' := m[o := r];
    assert m'.Keys == m.Keys + {o};
    assert |m'.Keys| == |m'| && |m.Keys| == |m|;
  }

  // A system call takes at least one off the total and keeps the bound.
  lemma StepTotal(s: Sys, w: World, i: nat, k: nat)
    requires Inv(s, w) && i < |s.procs| && Ready(s, i) && Bounded(s, w, k)
    ensures var s', w' := Next(s, i), WNext(s, w, i);
      Inv(s', w') && |s'.procs| == |s.procs| && Bounded(s', w', k) && Total(w', s'.procs, k) < Total(w, s.procs, k)
  {
    hide Inv, Next, WNext, Left, Ready;
    var s', w' := Next(s, i), WNext(s, w, i);
    InvNext(s, w, i);
    StepNearer(s, w, i, s', w');
    RecordsAfter(s, w, i);
    if s.procs[i].pc.AWriteIdx? {
      LateDown(s, i);
    }
    AppendersUpdate(s.procs, i, s'.procs[i]);
    LeftBound(s', w', i);
    RestDown(w, s.procs[i], w', s'.procs[i], k);
    forall q | 0 <= q < |s.procs| && q != i
      ensures Rest(w', s'.procs[q], k) == Rest(w, s.procs[q], k)
    {
      OthersNearer(s, w, i, q, s', w');
    }
    TotalDown(w, w', s.procs, s'.procs, i, k);
  }

  lemma RestDown(w: World, p: Proc, w': World, p': Proc, k: nat)
    requires Nearer(w, p, w', p') && Left(w', p') <= 2 * k + 1
    ensures Rest(w', p', k) < Rest(w, p, k)
  {
    hide Left, Stage;
    if Stage(p'.pc) < Stage(p.pc) {
      assert Stage(p.pc) * (2 * k + 2) >= (Stage(p'.pc) + 1) * (2 * k + 2);
    }
  }

  // ---------- whole schedules ----------

  // who makes the k-th system call.
  ghost predicate Schedule(t: seq<Sys>, who: seq<nat>) {
    && |t| == |who| + 1
    && forall k :: 0 <= k < |who| ==> who[k] < |t[k].procs| && Ready(t[k], who[k]) && t[k + 1] == Next(t[k], who[k])
  }

  lemma {:induction false} ScheduleTotal(t: seq<Sys>, who: seq<nat>, w: World, k: nat) returns (w': World)
    requires Schedule(t, who) && Inv(t[0], w) && Bounded(t[0], w, k)
    ensures Inv(t[|who|], w') && |who| + Total(w', t[|who|].procs, k) <= Total(w, t[0].procs, k)
    decreases |who|
  {
    hide Inv, Next, WNext, Ready, Total, Bounded;
    if who == [] {
      w' := w;
    } else {
      StepTotal(t[0], w, who[0], k);
      assert Schedule(t[1..], who[1..]) by {
        ScheduleRest(t, who);
      }
      w' := ScheduleTotal(t[1..], who[1..], WNext(t[0], w, who[0]), k);
    }
  }

  lemma ScheduleRest(t: seq<Sys>, who: seq<nat>)
    requires Schedule(t, who) && who != []
    ensures Schedule(t[1..], who[1..])
  {
    hide Next, Ready;
    forall k | 0 <= k < |who| - 1
      ensures who[1..][k] < |t[1..][k].procs| && Ready(t[1..][k], who[1..][k])
          && t[1..][k + 1] == Next(t[1..][k], who[1..][k])
    {
      assert who[1..][k] == who[k + 1] && t[1..][k] == t[k + 1] && t[1..][k + 1] == t[k + 2];
    }
  }

  // Main result. From any state of any run, if no new call begins, every
  // schedule of system calls is over after a number of them that the state
  // bounds; and where nobody can make another one, every process has returned
  // from its call or died.
  lemma SchedulesEnd(t: seq<Sys>, n: nat) returns (bound: nat)
    requires Run(t, n)
    ensures forall u, who :: Schedule(u, who) && u[0] == t[|t| - 1] ==>
      |who| <= bound && (Stuck(u[|who|]) ==> AllQuiet(u[|who|]))
  {
    hide Inv, Stuck, AllQuiet, Total, Bounded, Ready, Next, Step, Init;
    var w := RunInv(t, n);
    var s := t[|t| - 1];
    var k := |w.recs| + Appenders(s.procs);
    assert Bounded(s, w, k) by {
      ItsBound(s, w);
    }
    bound := Total(w, s.procs, k);
    forall u, who | Schedule(u, who) && u[0] == s
      ensures |who| <= bound && (Stuck(u[|who|]) ==> AllQuiet(u[|who|]))
    {
      var w' := ScheduleTotal(u, who, w, k);
      StuckQuiet(u[|who|], w');
    }
  }

  lemma ItsBound(s: Sys, w: World)
    ensures Bounded(s, w, |w.recs| + Appenders(s.procs))
  {}

  // Nobody can make a system call.
  ghost predicate Stuck(s: Sys) { forall i: nat :: i < |s.procs| ==> !Ready(s, i) }

  lemma StuckQuiet(s: Sys, w: World)
    requires Inv(s, w)
    ensures Stuck(s) ==> AllQuiet(s)
  {
    hide Inv, Ready;
    if Stuck(s) {
      forall i | 0 <= i < |s.procs|
        ensures !MidCall(s.procs[i])
      {
        if MidCall(s.procs[i]) {
          var j := SomeoneReady(s, w, i);
          assert false;
        }
      }
    }
  }
}
