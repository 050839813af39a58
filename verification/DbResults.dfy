// What the calls answer and wait for, told without the functions that the
// system of processes is made of.
module DbResults {
  import opened Bytes
  import opened DbFormat
  import opened DbWorld
  import opened DbMachine
  import opened DbInv
  import opened DbStepRead
  import opened DbStepQuiet
  import opened DbTheorems
  import opened DbProgress

  // ---------- who waits ----------

  // A call waits for its chain if and only if another is past its own first
  // lock, on a key of the same hash, and one of the two is no fetch.
  lemma ChainReadyIff(s: Sys, w: World, i: nat)
    requires Inv(s, w) && i < |s.procs| && s.procs[i].pc.LockChain?
    ensures Ready(s, i) <==>
      forall k ::
        && 0 <= k < |s.procs| && k != i && MidCall(s.procs[k]) && !s.procs[k].pc.LockChain?
        && Hash(s.procs[k].call.key) == Hash(s.procs[i].call.key) ==>
          s.procs[k].call.Fetch? && s.procs[i].call.Fetch?
  {
    hide Inv, Hash, ChainLock, Conflict;
    var p := s.procs[i];
    forall k | 0 <= k < |s.procs| && k != i && MidCall(s.procs[k]) && !s.procs[k].pc.LockChain?
      ensures ChainLock(k, s.procs[k]) in s.locks
      ensures Conflict(ChainLock(i, p), ChainLock(k, s.procs[k])) <==>
        Hash(s.procs[k].call.key) == Hash(p.call.key) && !(s.procs[k].call.Fetch? && p.call.Fetch?)
    {
      ChainHeld(s, w, k);
      ChainsConflict(i, p, k, s.procs[k]);
    }
    if !Ready(s, i) {
      var x :| x in s.locks && Conflict(ChainLock(i, p), x);
      ChainHolder(s, w, i, x);
    }
  }

  lemma ChainHeld(s: Sys, w: World, k: nat)
    requires Inv(s, w) && k < |s.procs| && MidCall(s.procs[k]) && !s.procs[k].pc.LockChain?
    ensures ChainLock(k, s.procs[k]) in s.locks
  {
    hide Hash, Coupled, WorldOk, MyChain, ChainInv, PInv;
    assert ChainLock(k, s.procs[k]).pid == k && ChainLock(k, s.procs[k]) in Held(k, s.procs[k]);
  }

  lemma ChainsConflict(i: nat, p: Proc, k: nat, q: Proc)
    ensures i != k ==>
      (Conflict(ChainLock(i, p), ChainLock(k, q)) <==>
        Hash(q.call.key) == Hash(p.call.key) && !(q.call.Fetch? && p.call.Fetch?))
  {
    hide Hash;
  }

  // What a chain's byte overlaps with is another hold of a chain.
  lemma ChainHolder(s: Sys, w: World, i: nat, x: Lock)
    requires Inv(s, w) && i < |s.procs| && x in s.locks && Conflict(ChainLock(i, s.procs[i]), x)
    ensures x.pid < |s.procs| && x.pid != i && x == ChainLock(x.pid, s.procs[x.pid])
    ensures MidCall(s.procs[x.pid]) && !s.procs[x.pid].pc.LockChain?
  {
    hide Hash, Coupled, WorldOk, MyChain, ChainInv, PInv;
    assert x in Held(x.pid, s.procs[x.pid]);
  }

  // ---------- how a call begins ----------

  // It is the call that was asked for, unless it is over at once: -1 for an
  // unknown flag, and the end of the process for a value of impossible length.
  lemma CallBegins(s: Sys, i: nat, c: Call)
    requires i < |s.procs| && s.procs[i].pc.Idle?
    ensures var s' := Begin(s, i, c);
      && s'.idx == s.idx && s'.dat == s.dat && s'.locks == s.locks
      && |s'.procs| == |s.procs| && (forall k :: 0 <= k < |s.procs| && k != i ==> s'.procs[k] == s.procs[k])
      && if c.Store? && c.flag == BadFlag then s'.procs == s.procs && s'.log == s.log + [Done(i, c, Code(-1))]
         else
           && s'.log == s.log
           && (s'.procs[i].pc.Dead? <==> c.Store? && (|c.data| < 1 || |c.data| > 1023))
           && (!s'.procs[i].pc.Dead? ==> s'.procs[i].pc.LockChain? && s'.procs[i].call == c)
  {
    hide Hash;
  }

  // ---------- who dies ----------

  // Only a store can die on the way.
  lemma DeathIsStore(s: Sys, w: World, i: nat)
    requires Inv(s, w) && i < |s.procs| && Ready(s, i) && !Survives(Next(s, i), i)
    ensures s.procs[i].call.Store?
  {
    hide Inv, Hash, Coupled, WorldOk, MyChain, BodyLen, Next, Ready;
    InvNext(s, w, i);
    Mine(s, w, i);
    AppendOnly(w, i, s.procs[i]);
  }

  ghost predicate StoresDied(log: seq<Event>) { forall k :: 0 <= k < |log| && log[k].Died? ==> log[k].call.Store? }

  lemma StepStores(s: Sys, w: World, i: nat)
    requires Inv(s, w) && i < |s.procs| && Ready(s, i) && StoresDied(s.log)
    ensures StoresDied(Next(s, i).log)
  {
    hide Inv, Next, Grantable;
    OneLinePerCall(s, i);
    if !Survives(Next(s, i), i) {
      DeathIsStore(s, w, i);
    }
  }

  // Every death in the history of a run is that of a store.
  lemma {:induction false} DeathsAreStores(t: seq<Sys>, n: nat)
    requires Run(t, n)
    ensures StoresDied(t[|t| - 1].log)
  {
    hide Inv, Next, Ready, Begin, CallOk;
    if |t| > 1 {
      var t0 := t[..|t| - 1];
      DeathsAreStores(t0, n);
      var w := RunInv(t0, n);
      var s, s' := t[|t| - 2], t[|t| - 1];
      assert s == t0[|t0| - 1] && Step(s, s');
      var i :| Moves(s, i, s');
      if Ready(s, i) && s' == Next(s, i) {
        StepStores(s, w, i);
      } else {
        var c :| CallOk(c) && s' == Begin(s, i, c);
        CallBegins(s, i, c);
      }
    }
  }

  // The checks of what is read: a walk goes on from an index record if and only
  // if ten bytes are there, with a length from 6 to 1024, and then that many bytes
  // which are a record; a value is returned if and only if all of it is there,
  // with its newline.
  lemma ReadChecks(s: Sys, i: nat)
    requires i < |s.procs|
    ensures s.procs[i].pc.Walk1? ==>
      var b := ReadAt(s.idx, s.procs[i].offset, 10);
      || (|b| == 10 && Atol(b[..6]) < 0)
      || (Next(s, i).procs[i].pc.Dead? <==> |b| != 10 || !(6 <= Atol(b[6..]) <= 1024))
    ensures s.procs[i].pc.Walk2? && s.procs[i].idxlen >= 0 ==>
      var b := ReadAt(s.idx, s.procs[i].idxoff + 10, s.procs[i].idxlen);
      Next(s, i).procs[i].pc.Dead? <==> |b| != s.procs[i].idxlen || ParseBody(b) == None
    ensures s.procs[i].pc.FReadDat? && s.procs[i].datlen > 0 ==>
      var b := ReadAt(s.dat, s.procs[i].datoff, s.procs[i].datlen);
      Next(s, i).procs[i].pc.Dead? <==> |b| != s.procs[i].datlen || b[|b| - 1] != 10
  {
    hide ReadAt, Atol, ParseBody, Hash, DropAll;
  }

  // ---------- what a deletion leaves of a value ----------

  // As many bytes as were there: blanks, and the newline.
  lemma BlankedValue(n: nat)
    requires n > 0
    ensures |BlankData(n)| == n && BlankData(n)[n - 1] == 10 && forall k :: 0 <= k < n - 1 ==> BlankData(n)[k] == 32
  {}
}
