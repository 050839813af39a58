// What every run of the semaphore library keeps, whatever crashes.
module SemaphInv {
  import opened Semaph

  predicate Holder(pc: PC) {
    pc.Read? || pc.Set0? || pc.Set1? || pc.End? || pc.Check? || pc.Remove? || pc.Unlock?
  }

  // Has the semaphore open: sem_create has returned, sem_close has not yet
  // given the count back.
  predicate User(pc: PC) { pc.Open? || pc.Close? }

  predicate OnSet(pc: PC, id: nat) {
    match pc
    case Out => true case Dead => true case Get => true
    case Lock(j) => j <= id
    case Waiting(j) => j == id case Read(j) => j == id case Set0(j) => j == id case Set1(j) => j == id
    case End(j) => j == id case Open(j) => j == id case Close(j) => j == id
    case Check(j) => j == id case Remove(j) => j == id case Unlock(j) => j == id
  }

  ghost predicate ProcOk(s: Sem, p: Proc) {
    && OnSet(p.pc, s.gen)
    && p.adj1 == (if User(p.pc) then 1 else 0)
    && p.adj2 == (if Holder(p.pc) then -1 else 0)
    && (p.pc.Dead? || !s.live || !s.returned ==> p.adj0 == 0)
    && (!s.live ==> !Holder(p.pc) && !User(p.pc) && !p.pc.Waiting?)
    && (User(p.pc) ==> s.returned)
  }

  // Before initialisation, and from the counter's SETVAL on.
  ghost predicate Fresh(s: Sem) { s.v1 == 0 && Sum1(s.procs) == 0 && !s.returned }

  ghost predicate Counted(s: Sem) {
    s.v1 + Sum1(s.procs) == BIGCOUNT && s.v0 + Sum0(s.procs) == s.init0 + s.cut
  }

  ghost predicate PhaseOk(s: Sem, pc: PC) {
    match pc
    case Set0(_) => Fresh(s)
    case Set1(_) => Fresh(s) && s.v0 == s.init0
    case End(_) => Counted(s)
    case Check(_) => Counted(s)
    case Remove(_) => Counted(s) && Sum1(s.procs) == 0
    case Unlock(_) => Counted(s)
    case _ => true
  }

  ghost predicate Inv(s: Sem) {
    && (forall i :: 0 <= i < |s.procs| ==> ProcOk(s, s.procs[i]))
    && (s.live ==>
          && s.v2 + Sum2(s.procs) == 0 && s.v2 <= 1 && s.v0 <= SEMVMX
          && (Fresh(s) || Counted(s))
          && (!s.returned ==> s.cut == 0)
          && (forall i :: 0 <= i < |s.procs| ==> PhaseOk(s, s.procs[i].pc)))
  }

  // Fewer than BIGCOUNT processes have the semaphore open.
  ghost predicate Room(s: Sem) { Sum1(s.procs) < BIGCOUNT }

  // ---------- who holds the lock ----------

  lemma OneHolder(s: Sem, i: nat, k: nat)
    requires Inv(s) && s.live && i < |s.procs| && k < |s.procs|
    requires Holder(s.procs[i].pc) && Holder(s.procs[k].pc)
    ensures i == k && s.v2 == 1
  {
    SumHolder(s.procs, i);
    if i < k {
      SumHolders(s.procs, i, k);
    } else if k < i {
      SumHolders(s.procs, k, i);
    }
  }

  lemma NoHolder(s: Sem, k: nat)
    requires Inv(s) && s.live && s.v2 == 0 && k < |s.procs|
    ensures !Holder(s.procs[k].pc)
  {
    if Holder(s.procs[k].pc) {
      SumHolder(s.procs, k);
    }
  }

  // Process i, holding or taking the lock, is the only one in a locked phase.
  lemma OthersPhase(s: Sem, i: nat, k: nat)
    requires Inv(s) && s.live && i < |s.procs| && k < |s.procs| && k != i
    requires Holder(s.procs[i].pc) || s.v2 == 0
    ensures !Holder(s.procs[k].pc)
  {
    if Holder(s.procs[i].pc) {
      if Holder(s.procs[k].pc) {
        OneHolder(s, i, k);
      }
    } else {
      NoHolder(s, k);
    }
  }

  lemma PhaseFree(s: Sem, pc: PC)
    requires !Holder(pc)
    ensures PhaseOk(s, pc)
  {}

  // ---------- one process changes, member by member ----------

  lemma Changed(s: Sem, i: nat, s': Sem)
    requires i < |s.procs| && |s'.procs| == |s.procs| && s'.procs == s.procs[i := s'.procs[i]]
    ensures Sum0(s'.procs) == Sum0(s.procs) - s.procs[i].adj0 + s'.procs[i].adj0
    ensures Sum1(s'.procs) == Sum1(s.procs) - s.procs[i].adj1 + s'.procs[i].adj1
    ensures Sum2(s'.procs) == Sum2(s.procs) - s.procs[i].adj2 + s'.procs[i].adj2
  {
    SumUpdate(s.procs, i, s'.procs[i]);
  }

  // A step that touches nothing but a process's counter.
  lemma InvBecome(s: Sem, i: nat, p: Proc)
    requires Inv(s) && i < |s.procs|
    requires var q := s.procs[i];
      p.adj0 == q.adj0 && p.adj1 == q.adj1 && p.adj2 == q.adj2 && ProcOk(s, p) && (s.live ==> PhaseOk(s, p.pc))
    ensures Inv(Become(s, i, p))
  {
    Changed(s, i, Become(s, i, p));
  }

  lemma InvExit(s: Sem, i: nat)
    requires Inv(s) && i < |s.procs|
    ensures Inv(Exit(s, i))
  {
    var s' := Exit(s, i);
    Changed(s, i, s');
    if s.live {
      UserBound(s, i);
      if Holder(s.procs[i].pc) {
        OneHolder(s, i, i);
      }
      forall k | 0 <= k < |s'.procs|
        ensures PhaseOk(s', s'.procs[k].pc)
      {
        UserBound(s, k);
      }
    }
  }

  lemma UserBound(s: Sem, i: nat)
    requires Inv(s) && i < |s.procs|
    ensures 0 <= s.procs[i].adj1 <= Sum1(s.procs)
  {
    SumUsers(s.procs, i);
  }

  lemma InvGet(s: Sem, i: nat)
    requires Inv(s) && i < |s.procs| && s.procs[i].pc.Get?
    ensures Inv(DoGet(s, i))
  {
    var s' := DoGet(s, i);
    if s.live {
      InvBecome(s, i, s.procs[i].(pc := Lock(s.gen)));
    } else {
      SumZero(s'.procs);
    }
  }

  lemma InvLock(s: Sem, i: nat, id: nat)
    requires Inv(s) && i < |s.procs| && id <= s.gen
    requires s.procs[i].pc == Lock(id) || (s.procs[i].pc == Waiting(id) && s.v2 == 0)
    ensures Inv(DoLock(s, i, id))
  {
    var s' := DoLock(s, i, id);
    Changed(s, i, s');
    if Valid(s, id) && s.v2 == 0 {
      forall k | 0 <= k < |s.procs|
        ensures PhaseOk(s', s'.procs[k].pc)
      {
        if k != i {
          OthersPhase(s, i, k);
          PhaseFree(s', s'.procs[k].pc);
        }
      }
    }
  }

  lemma ClearSums(ps: seq<Proc>)
    ensures Sum0(ClearAdj0(ps)) == 0 && Sum1(ClearAdj0(ps)) == Sum1(ps) && Sum2(ClearAdj0(ps)) == Sum2(ps)
    ensures Sum1(ClearAdj1(ps)) == 0 && Sum0(ClearAdj1(ps)) == Sum0(ps) && Sum2(ClearAdj1(ps)) == Sum2(ps)
  {
    SumZero(ClearAdj0(ps));
    SumZero(ClearAdj1(ps));
    SumSame(ClearAdj0(ps), ps);
    SumSame(ClearAdj1(ps), ps);
  }

  lemma NoUsers(s: Sem, k: nat)
    requires Inv(s) && Sum1(s.procs) == 0 && k < |s.procs|
    ensures !User(s.procs[k].pc)
  {
    UserBound(s, k);
  }

  lemma InvSet0(s: Sem, i: nat, id: nat)
    requires Inv(s) && s.live && i < |s.procs| && s.procs[i].pc == Set0(id)
    ensures Inv(DoSet0(s, i, id))
  {
    hide Sum0, Sum1, Sum2, Exit;
    var p := s.procs[i];
    if p.initval < 0 || p.initval > SEMVMX {
      InvExit(s, i);
    } else {
      var s' := DoSet0(s, i, id);
      var ps := ClearAdj0(s.procs);
      ClearSums(s.procs);
      SumUpdate(ps, i, s'.procs[i]);
      forall k | 0 <= k < |s.procs|
        ensures PhaseOk(s', s'.procs[k].pc)
      {
        if k != i {
          OthersPhase(s, i, k);
          PhaseFree(s', s'.procs[k].pc);
        }
      }
    }
  }

  lemma InvSet1(s: Sem, i: nat, id: nat)
    requires Inv(s) && s.live && i < |s.procs| && s.procs[i].pc == Set1(id)
    ensures Inv(DoSet1(s, i, id))
  {
    var s' := DoSet1(s, i, id);
    var ps := ClearAdj1(s.procs);
    ClearSums(s.procs);
    SumZero(s.procs);
    SumUpdate(ps, i, s'.procs[i]);
    forall k | 0 <= k < |s.procs|
      ensures ProcOk(s', s'.procs[k]) && PhaseOk(s', s'.procs[k].pc)
    {
      NoUsers(s, k);
      if k != i {
        OthersPhase(s, i, k);
        PhaseFree(s', s'.procs[k].pc);
      }
    }
  }

  lemma InvEnd(s: Sem, i: nat, id: nat)
    requires Inv(s) && s.live && i < |s.procs| && s.procs[i].pc == End(id)
    ensures Inv(DoEnd(s, i, id))
  {
    var s' := DoEnd(s, i, id);
    Changed(s, i, s');
    OneHolder(s, i, i);
    forall k | 0 <= k < |s.procs|
      ensures PhaseOk(s', s'.procs[k].pc)
    {
      if k != i {
        OthersPhase(s, i, k);
        PhaseFree(s', s'.procs[k].pc);
      }
    }
  }

  lemma InvClose(s: Sem, i: nat, id: nat)
    requires Inv(s) && s.live && i < |s.procs| && s.procs[i].pc == Close(id)
    ensures Inv(DoClose(s, i, id))
  {
    var s' := DoClose(s, i, id);
    Changed(s, i, s');
    if s.v2 == 0 {
      forall k | 0 <= k < |s.procs|
        ensures PhaseOk(s', s'.procs[k].pc)
      {
        if k != i {
          OthersPhase(s, i, k);
          PhaseFree(s', s'.procs[k].pc);
        }
      }
    }
  }

  lemma InvUnlock(s: Sem, i: nat, id: nat)
    requires Inv(s) && s.live && i < |s.procs| && s.procs[i].pc == Unlock(id)
    ensures Inv(DoUnlock(s, i, id))
  {
    var s' := DoUnlock(s, i, id);
    Changed(s, i, s');
    OneHolder(s, i, i);
    forall k | 0 <= k < |s.procs|
      ensures PhaseOk(s', s'.procs[k].pc)
    {
      if k != i {
        OthersPhase(s, i, k);
        PhaseFree(s', s'.procs[k].pc);
      }
    }
  }

  lemma InvRemove(s: Sem, i: nat, id: nat)
    requires Inv(s) && s.live && i < |s.procs| && s.procs[i].pc == Remove(id)
    ensures Inv(DoRemove(s, i, id))
  {
    var s' := DoRemove(s, i, id);
    forall k | 0 <= k < |s.procs|
      ensures ProcOk(s', s'.procs[k])
    {
      NoUsers(s, k);
      if k != i {
        OthersPhase(s, i, k);
      }
    }
  }

  lemma InvOp(s: Sem, i: nat, id: nat, amount: int)
    requires Inv(s) && s.live && i < |s.procs| && s.procs[i].pc == Open(id)
    ensures Inv(DoOp(s, i, id, amount))
  {
    hide Short, Undoable;
    var n := Short(amount);
    if n == 0 || s.v0 + n > SEMVMX || !Undoable(s.procs[i].adj0 - n) {
      InvExit(s, i);
    } else {
      Changed(s, i, DoOp(s, i, id, amount));
    }
  }

  lemma InvRead(s: Sem, i: nat, id: nat)
    requires Inv(s) && Room(s) && i < |s.procs| && s.procs[i].pc == Read(id)
    ensures Inv(DoGo(s, i))
  {
    InvBecome(s, i, s.procs[i].(pc := if s.v1 == 0 then Set0(id) else End(id)));
  }

  lemma InvCheck(s: Sem, i: nat, id: nat)
    requires Inv(s) && s.live && i < |s.procs| && s.procs[i].pc == Check(id)
    ensures Inv(DoCheck(s, i, id))
  {
    if s.v1 > BIGCOUNT {
      InvExit(s, i);
    } else {
      InvBecome(s, i, s.procs[i].(pc := if s.v1 == BIGCOUNT then Remove(id) else Unlock(id)));
    }
  }

  // Main result. With fewer than BIGCOUNT users, every call and every crash of
  // every process keeps the invariant.
  lemma InvNext(s: Sem, i: nat, a: Action)
    requires Inv(s) && Room(s) && Allowed(s, i, a)
    ensures Inv(Next(s, i, a))
  {
    var p := s.procs[i];
    match a {
      case CallCreate(v) => InvBecome(s, i, p.(pc := Get, initval := v));
      case CallClose => InvBecome(s, i, p.(pc := Close(p.pc.id)));
      case Op(amount) => InvOp(s, i, p.pc.id, amount);
      case Crash => InvExit(s, i);
      case Go =>
        match p.pc {
          case Get => InvGet(s, i);
          case Lock(id) => InvLock(s, i, id);
          case Waiting(id) =>
            if s.v2 == 0 {
              InvLock(s, i, id);
            }
          case Read(id) => InvRead(s, i, id);
          case Set0(id) => InvSet0(s, i, id);
          case Set1(id) => InvSet1(s, i, id);
          case End(id) => InvEnd(s, i, id);
          case Close(id) => InvClose(s, i, id);
          case Check(id) => InvCheck(s, i, id);
          case Remove(id) => InvRemove(s, i, id);
          case Unlock(id) => InvUnlock(s, i, id);
        }
    }
  }
}
