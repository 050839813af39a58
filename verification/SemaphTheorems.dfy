// The results about sem_create and sem_close over whole runs.
module SemaphTheorems {
  import opened Semaph
  import opened SemaphInv

  function Init(n: nat): Sem {
    Sem(false, 0, 0, 0, 0, seq(n, _ => Proc(Out, 0, 0, 0, 0)), 0, false, 0)
  }

  ghost predicate Step(s: Sem, s': Sem) {
    exists i, a :: Allowed(s, i, a) && s' == Next(s, i, a)
  }

  // Any interleaving, calls and crashes included.
  ghost predicate Path(t: seq<Sem>, n: nat) {
    && t != [] && t[0] == Init(n)
    && forall k :: 0 <= k < |t| - 1 ==> Step(t[k], t[k + 1])
  }

  // ... in which there are never BIGCOUNT users at once.
  ghost predicate Run(t: seq<Sem>, n: nat) {
    Path(t, n) && forall k :: 0 <= k < |t| ==> Room(t[k])
  }

  lemma {:induction false} RunInv(t: seq<Sem>, n: nat)
    requires Run(t, n)
    ensures Inv(t[|t| - 1])
  {
    hide Inv, Allowed, Next;
    if |t| == 1 {
      InitInv(n);
    } else {
      var t0 := t[..|t| - 1];
      var s, s' := t[|t| - 2], t[|t| - 1];
      assert s == t0[|t0| - 1];
      RunInv(t0, n);
      assert Step(s, s') && Room(s);
      var i, a :| Allowed(s, i, a) && s' == Next(s, i, a);
      InvNext(s, i, a);
    }
  }

  lemma InitInv(n: nat)
    ensures Inv(Init(n))
  {}

  // With at most BIGCOUNT processes altogether there is always room when one of
  // them is about to look at the counter.
  lemma RoomByNumber(s: Sem, i: nat)
    requires Inv(s) && i < |s.procs| <= BIGCOUNT && !User(s.procs[i].pc)
    ensures Room(s)
  {
    SumUsers(s.procs, i);
  }

  // Main result. In every state of every run: the counter and the outstanding
  // credits make BIGCOUNT once the set is initialised; the lock is 0 or 1 and
  // has exactly one holder when it is 1; nobody has the semaphore open before
  // it is initialised; member 0 is its initial value less what the credits
  // still outstanding will undo, up to undoing that was cut off.
  lemma Conservation(t: seq<Sem>, n: nat)
    requires Run(t, n) && t[|t| - 1].live
    ensures var s := t[|t| - 1];
      && (s.v1 == 0 && Sum1(s.procs) == 0 && !s.returned) != (s.v1 + Sum1(s.procs) == BIGCOUNT)
      && (s.returned ==> s.v0 + Sum0(s.procs) == s.init0 + s.cut)
      && s.v2 <= 1
      && (forall i, k ::
            0 <= i < |s.procs| && 0 <= k < |s.procs| && Holder(s.procs[i].pc) && Holder(s.procs[k].pc) ==> i == k)
      && (s.v2 == 1 <==> exists i :: 0 <= i < |s.procs| && Holder(s.procs[i].pc))
      && (forall i :: 0 <= i < |s.procs| && User(s.procs[i].pc) ==> s.returned)
  {
    RunInv(t, n);
    var s := t[|t| - 1];
    forall i, k | 0 <= i < |s.procs| && 0 <= k < |s.procs| && Holder(s.procs[i].pc) && Holder(s.procs[k].pc)
      ensures i == k && s.v2 == 1
    {
      OneHolder(s, i, k);
    }
    if s.v2 == 1 {
      SomeHolder(s.procs);
    }
  }

  lemma {:induction false} SomeHolder(ps: seq<Proc>)
    requires Sum2(ps) < 0 && forall j :: 0 <= j < |ps| ==> ps[j].adj2 == (if Holder(ps[j].pc) then -1 else 0)
    ensures exists i :: 0 <= i < |ps| && Holder(ps[i].pc)
  {
    var n := |ps| - 1;
    if !Holder(ps[n].pc) {
      SomeHolder(ps[..n]);
      var i :| 0 <= i < n && Holder(ps[..n][i].pc);
      assert Holder(ps[i].pc);
    }
  }

  // Main result. The step by which sem_create returns finds member 0 set: it
  // has the initial value itself if nobody has returned before, and otherwise
  // that value up to the operations of the users.
  lemma CreateReturnsInitialised(t: seq<Sem>, n: nat, i: nat, id: nat)
    requires Run(t, n) && i < |t[|t| - 1].procs| && t[|t| - 1].procs[i].pc == End(id)
    ensures var s := t[|t| - 1];
      && s.live && id == s.gen && s.v1 > 0
      && s.v0 + Sum0(s.procs) == s.init0 + s.cut
      && (!s.returned ==> s.v0 == s.init0)
      && Next(s, i, Go).procs[i].pc == Open(id)
  {
    RunInv(t, n);
    var s := t[|t| - 1];
    OneHolder(s, i, i);
    SumZero(s.procs);
  }

  ghost predicate NobodyHasItOpen(s: Sem) {
    forall k :: 0 <= k < |s.procs| ==> !User(s.procs[k].pc)
  }

  // Main result. An initialiser, even one that follows another that crashed
  // half way, never sets a member once some sem_create has returned.
  lemma NoSetAfterReturn(t: seq<Sem>, n: nat, i: nat)
    requires Run(t, n) && i < |t[|t| - 1].procs|
    requires t[|t| - 1].procs[i].pc.Set0? || t[|t| - 1].procs[i].pc.Set1?
    ensures !t[|t| - 1].returned && NobodyHasItOpen(t[|t| - 1])
  {
    RunInv(t, n);
    var s := t[|t| - 1];
    forall k | 0 <= k < |s.procs|
      ensures !User(s.procs[k].pc)
    {
      NoUsers(s, k);
    }
  }

  // Main result. sem_close removes the set only when nobody has it open.
  lemma RemoveOnlyUnused(t: seq<Sem>, n: nat, i: nat)
    requires Run(t, n) && i < |t[|t| - 1].procs| && t[|t| - 1].procs[i].pc.Remove?
    ensures NobodyHasItOpen(t[|t| - 1])
  {
    RunInv(t, n);
    var s := t[|t| - 1];
    forall k | 0 <= k < |s.procs|
      ensures !User(s.procs[k].pc)
    {
      NoUsers(s, k);
    }
  }

  // No deadlock: while somebody is inside sem_create or sem_close, somebody can
  // make a call that is not just going back to sleep.
  lemma NoDeadlock(t: seq<Sem>, n: nat, i: nat) returns (k: nat)
    requires Run(t, n) && i < |t[|t| - 1].procs|
    requires Allowed(t[|t| - 1], i, Go) || t[|t| - 1].procs[i].pc.Close?
    ensures Allowed(t[|t| - 1], k, Go) && Next(t[|t| - 1], k, Go) != t[|t| - 1]
  {
    RunInv(t, n);
    var s := t[|t| - 1];
    if s.live && s.v2 == 1 {
      SomeHolder(s.procs);
      k :| 0 <= k < |s.procs| && Holder(s.procs[k].pc);
      HolderMoves(s, k);
    } else {
      k := i;
      WaiterMoves(s, i);
    }
  }

  lemma HolderMoves(s: Sem, k: nat)
    requires Inv(s) && Room(s) && s.live && k < |s.procs| && Holder(s.procs[k].pc)
    ensures Next(s, k, Go).procs[k].pc != s.procs[k].pc
  {
    OneHolder(s, k, k);
  }

  lemma WaiterMoves(s: Sem, k: nat)
    requires Inv(s) && Room(s) && Allowed(s, k, Go) && (s.live ==> s.v2 == 0)
    ensures Next(s, k, Go).procs[k].pc != s.procs[k].pc
  {
    if s.live {
      NoHolder(s, k);
    }
  }

  // ---------- how a process can end ----------

  // The operation is nothing, or takes the value above SEMVMX, or takes it where
  // the kernel could not undo what this process has done to it.
  predicate Refused(value: nat, adj: int, n: int) {
    n == 0 || value + n > SEMVMX || (value + n >= 0 && !Undoable(adj - n))
  }

  // By process i's action a, process k ends in err_sys.
  predicate Doomed(s: Sem, i: nat, a: Action, k: nat)
    requires i < |s.procs| && k < |s.procs|
  {
    if k == i then
      || (a.Op? && Refused(s.v0, s.procs[i].adj0, Short(a.amount)))
      || (a.Go? && s.procs[i].pc.Set0? && !(0 <= s.procs[i].initval <= SEMVMX))
    else a.Go? && s.procs[i].pc.Remove? && s.procs[k].pc.Waiting?
  }

  // Main result. Within the bound, a process that does not crash ends only by an
  // initial value that the kernel refuses, by an operation that it refuses once
  // the amount has been cut to 16 bits, or because the set
  // is removed while it sleeps in sem_create; all the other err_sys exits, and
  // the err_dump of sem_close, are never reached.
  lemma EndsIff(t: seq<Sem>, n: nat, i: nat, a: Action, k: nat)
    requires Run(t, n) && Allowed(t[|t| - 1], i, a) && a != Crash
    requires k < |t[|t| - 1].procs| && !t[|t| - 1].procs[k].pc.Dead?
    ensures var s, s' := t[|t| - 1], Next(t[|t| - 1], i, a);
      && |s'.procs| == |s.procs|
      && (s'.procs[k].pc.Dead? <==> Doomed(s, i, a, k))
      && (s.procs[k].pc.Check? ==> s.v1 <= BIGCOUNT)
  {
    RunInv(t, n);
    var s := t[|t| - 1];
    EndsNow(s, i, a, k);
    if s.procs[k].pc.Check? {
      UserBound(s, k);
    }
  }

  lemma EndsNow(s: Sem, i: nat, a: Action, k: nat)
    requires Inv(s) && Room(s) && Allowed(s, i, a) && a != Crash && k < |s.procs| && !s.procs[k].pc.Dead?
    ensures |Next(s, i, a).procs| == |s.procs|
    ensures Next(s, i, a).procs[k].pc.Dead? <==> Doomed(s, i, a, k)
  {
    hide Sum0, Sum1, Sum2;
    if s.live {
      UserBound(s, i);
      if Holder(s.procs[i].pc) {
        OneHolder(s, i, i);
      }
    }
  }

  // ---------- exactly when it goes wrong ----------

  // The bound on the users is exact. A creator that holds the lock goes on to
  // initialise a set that others have open if and only if BIGCOUNT of them do.
  lemma OverwrittenIff(s: Sem, i: nat, id: nat)
    requires Inv(s) && i < |s.procs| && s.procs[i].pc == Read(id)
    ensures Next(s, i, Go).procs[i].pc.Set0? && s.returned <==> Sum1(s.procs) == BIGCOUNT
  {
    if Sum1(s.procs) > 0 {
      SomeUser(s.procs);
    }
  }

  lemma {:induction false} SomeUser(ps: seq<Proc>)
    requires Sum1(ps) > 0 && forall j :: 0 <= j < |ps| ==> ps[j].adj1 == (if User(ps[j].pc) then 1 else 0)
    ensures exists i :: 0 <= i < |ps| && User(ps[i].pc)
  {
    var n := |ps| - 1;
    if !User(ps[n].pc) {
      SomeUser(ps[..n]);
      var i :| 0 <= i < n && User(ps[..n][i].pc);
      assert User(ps[i].pc);
    }
  }

  // The comment in sem_create promises that a creator overtaken by the last
  // sem_close goes back and creates the set again. In every run, the step that
  // removes the set leaves such a creator able to do so exactly if it has not
  // yet called semop; one that sleeps in semop gets EIDRM and has ended in
  // err_sys.
  lemma OvertakenCreator(t: seq<Sem>, n: nat, i: nat, k: nat)
    requires Run(t, n) && i < |t[|t| - 1].procs| && k < |t[|t| - 1].procs|
    requires t[|t| - 1].procs[i].pc.Remove?
    requires t[|t| - 1].procs[k].pc.Lock? || t[|t| - 1].procs[k].pc.Waiting?
    ensures var s, s' := t[|t| - 1], Next(t[|t| - 1], i, Go);
      && !s'.live && |s'.procs| == |s.procs|
      && (s'.procs[k].pc.Dead? <==> s.procs[k].pc.Waiting?)
      && (s.procs[k].pc.Lock? ==> Allowed(s', k, Go) && Next(s', k, Go).procs[k].pc == Get)
  {
    RunInv(t, n);
    OneHolder(t[|t| - 1], i, i);
  }

  // ---------- the bound is reached ----------

  function Filled(n: nat, k: nat): Sem
    requires 0 < k <= n && k <= BIGCOUNT
  {
    Sem(true, 1, 0, BIGCOUNT - k, 0,
        seq(n, j => if j < k then Proc(Open(1), 0, 0, 1, 0) else Proc(Out, 0, 0, 0, 0)), 0, true, 0)
  }

  lemma Extend(t: seq<Sem>, n: nat, i: nat, a: Action) returns (t': seq<Sem>)
    requires t != [] && Path(t, n) && Allowed(t[|t| - 1], i, a)
    ensures t' != [] && Path(t', n) && t'[|t'| - 1] == Next(t[|t| - 1], i, a)
  {
    hide Allowed, Next;
    var s' := Next(t[|t| - 1], i, a);
    t' := t + [s'];
    assert Step(t[|t| - 1], s');
    forall k | 0 <= k < |t'| - 1
      ensures Step(t'[k], t'[k + 1])
    {
      if k < |t| - 1 {
        assert Step(t[k], t[k + 1]);
      }
    }
  }

  // One more process opens the semaphore and keeps it open.
  lemma FillFirst(n: nat) returns (t: seq<Sem>)
    requires n > 0
    ensures t != [] && Path(t, n) && t[|t| - 1] == Filled(n, 1)
  {
    hide Path;
    t := [Init(n)];
    assert Path(t, n) by {
      SinglePath(n);
    }
    t := Extend(t, n, 0, CallCreate(0));
    t := Extend(t, n, 0, Go);
    t := Extend(t, n, 0, Go);
    t := Extend(t, n, 0, Go);
    t := Extend(t, n, 0, Go);
    t := Extend(t, n, 0, Go);
    t := Extend(t, n, 0, Go);
    assert t[|t| - 1].procs == Filled(n, 1).procs;
  }

  lemma SinglePath(n: nat)
    ensures Path([Init(n)], n)
  {}

  lemma {:induction false} Fill(n: nat, k: nat) returns (t: seq<Sem>)
    requires 0 < k <= n && k <= BIGCOUNT
    ensures t != [] && Path(t, n) && t[|t| - 1] == Filled(n, k)
    decreases k
  {
    hide Path;
    if k == 1 {
      t := FillFirst(n);
    } else {
      t := Fill(n, k - 1);
      t := Extend(t, n, k - 1, CallCreate(0));
      t := Extend(t, n, k - 1, Go);
      t := Extend(t, n, k - 1, Go);
      t := Extend(t, n, k - 1, Go);
      t := Extend(t, n, k - 1, Go);
      assert t[|t| - 1].procs == Filled(n, k).procs;
    }
  }

  // A run in which one process is about to remove the set while another sleeps
  // in sem_create, which does not survive it.
  lemma OvertakenReachable(n: nat) returns (t: seq<Sem>)
    requires n >= 2
    ensures t != [] && Path(t, n)
    ensures var s := t[|t| - 1];
      && |s.procs| == n && s.procs[0].pc.Remove? && s.procs[1].pc.Waiting?
      && |Next(s, 0, Go).procs| == n && Next(s, 0, Go).procs[1].pc.Dead?
  {
    hide Path;
    t := FillFirst(n);
    t := Extend(t, n, 0, CallClose);
    t := Extend(t, n, 1, CallCreate(0));
    t := Extend(t, n, 1, Go);
    t := Extend(t, n, 0, Go);
    t := Extend(t, n, 1, Go);
    t := Extend(t, n, 0, Go);
  }

  // With more than BIGCOUNT processes there is a crash-free run in which an
  // initialiser is about to overwrite member 0 of a semaphore in use.
  lemma OverwriteReachable(n: nat) returns (t: seq<Sem>)
    requires n > BIGCOUNT
    ensures t != [] && Path(t, n)
    ensures var s := t[|t| - 1];
      && |s.procs| == n
      && s.procs[BIGCOUNT].pc.Set0? && s.returned && forall j :: 0 <= j < BIGCOUNT ==> s.procs[j].pc.Open?
  {
    hide Path;
    t := Fill(n, BIGCOUNT);
    t := Extend(t, n, BIGCOUNT, CallCreate(5));
    t := Extend(t, n, BIGCOUNT, Go);
    t := Extend(t, n, BIGCOUNT, Go);
    t := Extend(t, n, BIGCOUNT, Go);
  }

  // ---------- amounts ----------

  // A run of two processes with no crash in which the value may be lowered and
  // the kernel still refuses, because it could not undo that.
  lemma UndoRefused(n: nat) returns (t: seq<Sem>)
    requires n >= 2
    ensures t != [] && Path(t, n)
    ensures var s := t[|t| - 1];
      && |s.procs| == n && s.procs[0].pc.Open? && s.v0 == SEMVMX
      && |Next(s, 0, Op(-1)).procs| == n && Next(s, 0, Op(-1)).procs[0].pc.Dead?
  {
    hide Path;
    t := [Init(n)];
    assert Path(t, n) by {
      SinglePath(n);
    }
    t := Extend(t, n, 0, CallCreate(SEMVMX));
    t := Extend(t, n, 0, Go);
    t := Extend(t, n, 0, Go);
    t := Extend(t, n, 0, Go);
    t := Extend(t, n, 0, Go);
    t := Extend(t, n, 0, Go);
    t := Extend(t, n, 0, Go);
    t := Extend(t, n, 1, CallCreate(0));
    t := Extend(t, n, 1, Go);
    t := Extend(t, n, 1, Go);
    t := Extend(t, n, 1, Go);
    t := Extend(t, n, 1, Go);
    t := Extend(t, n, 0, Op(-32767));
    t := Extend(t, n, 1, Op(SEMVMX));
  }
}
