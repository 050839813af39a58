// apue.2e/lib/semaph.c: the three-member semaphore set behind sem_create and
// sem_close, as a system of any number of processes making one kernel call at a
// time, crashing anywhere, with the kernel's SEM_UNDO adjustments.
module Semaph {

  const BIGCOUNT: nat := 10000
  const SEMVMX: nat := 32767       // largest value the kernel accepts
  const SEMAEM: int := 32767       // largest adjustment it keeps for a process

  // Where a process is; id is the set identifier it got from semget.
  datatype PC =
    | Out | Dead
    | Get                          // sem_create: semget
    | Lock(id: nat)                // about to call semop(op_lock)
    | Waiting(id: nat)             // asleep in it
    | Read(id: nat)                // locked: GETVAL of the counter
    | Set0(id: nat) | Set1(id: nat)
    | End(id: nat)                 // semop(op_endcreate)
    | Open(id: nat)                // sem_create has returned
    | Close(id: nat)               // sem_close: semop(op_close)
    | Check(id: nat)               // locked: GETVAL of the counter
    | Remove(id: nat) | Unlock(id: nat)

  // adj0, adj1, adj2: what the kernel adds to each member when the process exits.
  datatype Proc = Proc(pc: PC, initval: int, adj0: int, adj1: int, adj2: int)

  // The set of the key, if it exists, and the processes. Three fields are
  // history: the value last given to member 0 by an initialiser, whether any
  // process has returned from sem_create on this set, and how much more of
  // member 0 undoing has left than it should have, by being cut off at 0 or at
  // SEMVMX.
  datatype Sem = Sem(
    live: bool, gen: nat, v0: nat, v1: nat, v2: nat, procs: seq<Proc>,
    init0: nat, returned: bool, cut: int)

  datatype Action = CallCreate(initval: int) | CallClose | Op(amount: int) | Go | Crash

  // A value after undoing: the kernel keeps it between 0 and SEMVMX.
  function Undone(x: int): nat { if x < 0 then 0 else if x > SEMVMX then SEMVMX else x }

  function Become(s: Sem, i: nat, p: Proc): Sem
    requires i < |s.procs|
  {
    s.(procs := s.procs[i := p])
  }

  // The process is gone; the kernel undoes its operations.
  function Exit(s: Sem, i: nat): Sem
    requires i < |s.procs|
  {
    var p := s.procs[i];
    var gone := s.procs[i := Proc(Dead, p.initval, 0, 0, 0)];
    if !s.live then s.(procs := gone)
    else
      s.(procs := gone, v0 := Undone(s.v0 + p.adj0), v1 := Undone(s.v1 + p.adj1), v2 := Undone(s.v2 + p.adj2),
         cut := s.cut + Undone(s.v0 + p.adj0) - (s.v0 + p.adj0))
  }

  predicate Valid(s: Sem, id: nat) { s.live && id == s.gen }

  // semget with IPC_CREAT: the set of the key, created with three zeros.
  function DoGet(s: Sem, i: nat): Sem
    requires i < |s.procs|
  {
    var p := s.procs[i];
    if s.live then Become(s, i, p.(pc := Lock(s.gen)))
    else
      Become(s, i, p.(pc := Lock(s.gen + 1)))
        .(live := true, gen := s.gen + 1, v0 := 0, v1 := 0, v2 := 0, init0 := 0, returned := false, cut := 0)
  }

  // semop(op_lock): EINVAL sends the caller back to semget; otherwise it takes
  // the lock or goes to sleep.
  function DoLock(s: Sem, i: nat, id: nat): Sem
    requires i < |s.procs|
  {
    var p := s.procs[i];
    if !Valid(s, id) then Become(s, i, p.(pc := Get))
    else if s.v2 == 0 then Become(s, i, p.(pc := Read(id), adj2 := p.adj2 - 1)).(v2 := 1)
    else Become(s, i, p.(pc := Waiting(id)))
  }

  function ClearAdj0(ps: seq<Proc>): seq<Proc> { seq(|ps|, j requires 0 <= j < |ps| => ps[j].(adj0 := 0)) }

  function ClearAdj1(ps: seq<Proc>): seq<Proc> { seq(|ps|, j requires 0 <= j < |ps| => ps[j].(adj1 := 0)) }

  // SETVAL on member 0, then on member 1; the kernel drops every process's
  // adjustment of the member that is set.
  function DoSet0(s: Sem, i: nat, id: nat): Sem
    requires i < |s.procs|
  {
    var p := s.procs[i];
    if !Valid(s, id) || p.initval < 0 || p.initval > SEMVMX then Exit(s, i)
    else
      var ps := ClearAdj0(s.procs);
      s.(procs := ps[i := ps[i].(pc := Set1(id))], v0 := p.initval, init0 := p.initval, cut := 0)
  }

  function DoSet1(s: Sem, i: nat, id: nat): Sem
    requires i < |s.procs|
  {
    if !Valid(s, id) then Exit(s, i)
    else
      var ps := ClearAdj1(s.procs);
      s.(procs := ps[i := ps[i].(pc := End(id))], v1 := BIGCOUNT)
  }

  function DoEnd(s: Sem, i: nat, id: nat): Sem
    requires i < |s.procs|
  {
    var p := s.procs[i];
    if !Valid(s, id) then Exit(s, i)
    else if s.v1 == 0 || s.v2 == 0 then s
    else
      Become(s, i, p.(pc := Open(id), adj1 := p.adj1 + 1, adj2 := p.adj2 + 1))
        .(v1 := s.v1 - 1, v2 := s.v2 - 1, returned := true)
  }

  function DoClose(s: Sem, i: nat, id: nat): Sem
    requires i < |s.procs|
  {
    var p := s.procs[i];
    if !Valid(s, id) then Exit(s, i)
    else if s.v2 != 0 then s
    else Become(s, i, p.(pc := Check(id), adj1 := p.adj1 - 1, adj2 := p.adj2 - 1)).(v1 := s.v1 + 1, v2 := 1)
  }

  function DoCheck(s: Sem, i: nat, id: nat): Sem
    requires i < |s.procs|
  {
    if !Valid(s, id) || s.v1 > BIGCOUNT then Exit(s, i)
    else Become(s, i, s.procs[i].(pc := if s.v1 == BIGCOUNT then Remove(id) else Unlock(id)))
  }

  // IPC_RMID: adjustments go with the set, and whoever sleeps on it gets EIDRM,
  // which sem_create does not expect.
  function Removed(p: Proc): Proc {
    Proc(if p.pc.Waiting? then Dead else p.pc, p.initval, 0, 0, 0)
  }

  function DoRemove(s: Sem, i: nat, id: nat): Sem
    requires i < |s.procs|
  {
    if !Valid(s, id) then Exit(s, i)
    else
      var ps := seq(|s.procs|, j requires 0 <= j < |s.procs| => Removed(s.procs[j]));
      s.(live := false, procs := ps[i := ps[i].(pc := Out)])
  }

  function DoUnlock(s: Sem, i: nat, id: nat): Sem
    requires i < |s.procs|
  {
    var p := s.procs[i];
    if !Valid(s, id) then Exit(s, i)
    else if s.v2 == 0 then s
    else Become(s, i, p.(pc := Out, adj2 := p.adj2 + 1)).(v2 := s.v2 - 1)
  }

  function DoGo(s: Sem, i: nat): Sem
    requires i < |s.procs|
  {
    match s.procs[i].pc
    case Get => DoGet(s, i)
    case Lock(id) => DoLock(s, i, id)
    case Waiting(id) => if Valid(s, id) && s.v2 != 0 then s else DoLock(s, i, id)
    case Read(id) =>
      if !Valid(s, id) then Exit(s, i)
      else Become(s, i, s.procs[i].(pc := if s.v1 == 0 then Set0(id) else End(id)))
    case Set0(id) => DoSet0(s, i, id)
    case Set1(id) => DoSet1(s, i, id)
    case End(id) => DoEnd(s, i, id)
    case Close(id) => DoClose(s, i, id)
    case Check(id) => DoCheck(s, i, id)
    case Remove(id) => DoRemove(s, i, id)
    case Unlock(id) => DoUnlock(s, i, id)
    case _ => s
  }

  // The amount as the kernel gets it, in a field of 16 bits.
  function Short(x: int): (r: int)
    ensures -0x8000 <= r < 0x8000 && (r - x) % 0x1_0000 == 0
  {
    (x + 0x8000) % 0x1_0000 - 0x8000
  }

  // What the kernel can keep as the adjustment of one process.
  predicate Undoable(adj: int) { -SEMAEM - 1 <= adj <= SEMAEM }

  // sem_op on an open semaphore: waits while the result would be negative.
  function DoOp(s: Sem, i: nat, id: nat, amount: int): Sem
    requires i < |s.procs|
  {
    var p := s.procs[i];
    var n := Short(amount);
    if n == 0 || !Valid(s, id) then Exit(s, i)
    else if s.v0 + n < 0 then s
    else if s.v0 + n > SEMVMX || !Undoable(p.adj0 - n) then Exit(s, i)
    else Become(s, i, p.(adj0 := p.adj0 - n)).(v0 := s.v0 + n)
  }

  // What process i may do, and what comes of it. A caller uses the library as
  // meant: one sem_create, then one sem_close.
  predicate Allowed(s: Sem, i: nat, a: Action) {
    && i < |s.procs|
    && var pc := s.procs[i].pc;
       match a
       case CallCreate(_) => pc.Out?
       case CallClose => pc.Open?
       case Op(_) => pc.Open?
       case Go => !pc.Out? && !pc.Dead? && !pc.Open?
       case Crash => !pc.Dead?
  }

  function Next(s: Sem, i: nat, a: Action): Sem
    requires Allowed(s, i, a)
  {
    var p := s.procs[i];
    match a
    case CallCreate(v) => Become(s, i, p.(pc := Get, initval := v))
    case CallClose => Become(s, i, p.(pc := Close(p.pc.id)))
    case Op(amount) => DoOp(s, i, p.pc.id, amount)
    case Go => DoGo(s, i)
    case Crash => Exit(s, i)
  }

  // ---------- sums of adjustments ----------

  function Sum0(ps: seq<Proc>): int { if ps == [] then 0 else Sum0(ps[..|ps| - 1]) + ps[|ps| - 1].adj0 }

  function Sum1(ps: seq<Proc>): int { if ps == [] then 0 else Sum1(ps[..|ps| - 1]) + ps[|ps| - 1].adj1 }

  function Sum2(ps: seq<Proc>): int { if ps == [] then 0 else Sum2(ps[..|ps| - 1]) + ps[|ps| - 1].adj2 }

  lemma {:induction false} SumUpdate(ps: seq<Proc>, i: nat, p: Proc)
    requires i < |ps|
    ensures Sum0(ps[i := p]) == Sum0(ps) - ps[i].adj0 + p.adj0
    ensures Sum1(ps[i := p]) == Sum1(ps) - ps[i].adj1 + p.adj1
    ensures Sum2(ps[i := p]) == Sum2(ps) - ps[i].adj2 + p.adj2
  {
    var n := |ps| - 1;
    if i == n {
      assert ps[i := p][..n] == ps[..n];
    } else {
      assert ps[i := p][..n] == ps[..n][i := p];
      SumUpdate(ps[..n], i, p);
    }
  }

  lemma {:induction false} SumSame(ps: seq<Proc>, qs: seq<Proc>)
    requires |ps| == |qs|
    ensures (forall j :: 0 <= j < |ps| ==> ps[j].adj0 == qs[j].adj0) ==> Sum0(ps) == Sum0(qs)
    ensures (forall j :: 0 <= j < |ps| ==> ps[j].adj1 == qs[j].adj1) ==> Sum1(ps) == Sum1(qs)
    ensures (forall j :: 0 <= j < |ps| ==> ps[j].adj2 == qs[j].adj2) ==> Sum2(ps) == Sum2(qs)
  {
    if ps != [] {
      SumSame(ps[..|ps| - 1], qs[..|qs| - 1]);
    }
  }

  lemma {:induction false} SumZero(ps: seq<Proc>)
    ensures (forall j :: 0 <= j < |ps| ==> ps[j].adj0 == 0) ==> Sum0(ps) == 0
    ensures (forall j :: 0 <= j < |ps| ==> ps[j].adj1 == 0) ==> Sum1(ps) == 0
    ensures (forall j :: 0 <= j < |ps| ==> ps[j].adj2 == 0) ==> Sum2(ps) == 0
  {
    if ps != [] {
      SumZero(ps[..|ps| - 1]);
    }
  }

  // With counts of 0 or 1 the sum of the user credits is 0 only if there are none.
  lemma {:induction false} SumUsers(ps: seq<Proc>, i: nat)
    requires i < |ps| && forall j :: 0 <= j < |ps| ==> 0 <= ps[j].adj1 <= 1
    ensures ps[i].adj1 <= Sum1(ps) <= |ps|
    ensures ps[i].adj1 == 0 ==> Sum1(ps) < |ps|
  {
    var n := |ps| - 1;
    if i == n {
      if n > 0 {
        SumUsers(ps[..n], 0);
      }
    } else {
      SumUsers(ps[..n], i);
    }
  }

  // One holder at most: the credits of the lock are 0 or -1 and sum to -v2.
  lemma {:induction false} SumHolders(ps: seq<Proc>, i: nat, k: nat)
    requires i < k < |ps| && ps[i].adj2 == -1 && ps[k].adj2 == -1
    requires forall j :: 0 <= j < |ps| ==> -1 <= ps[j].adj2 <= 0
    ensures Sum2(ps) <= -2
  {
    var n := |ps| - 1;
    if k == n {
      SumHolder(ps[..n], i);
    } else {
      SumHolders(ps[..n], i, k);
    }
  }

  lemma {:induction false} SumHolder(ps: seq<Proc>, i: nat)
    requires i < |ps| && ps[i].adj2 == -1 && forall j :: 0 <= j < |ps| ==> -1 <= ps[j].adj2 <= 0
    ensures Sum2(ps) <= -1
  {
    var n := |ps| - 1;
    if i < n {
      SumHolder(ps[..n], i);
    } else {
      SumNonPos(ps[..n]);
    }
  }

  lemma {:induction false} SumNonPos(ps: seq<Proc>)
    requires forall j :: 0 <= j < |ps| ==> -1 <= ps[j].adj2 <= 0
    ensures Sum2(ps) <= 0
  {
    if ps != [] {
      SumNonPos(ps[..|ps| - 1]);
    }
  }
}
