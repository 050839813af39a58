// The kernel's semop as it is documented, on the operation arrays of semaph.c,
// and the other calls on the set: each step of the system of processes is one of
// them, with exactly its effect on values and adjustments.
module SemaphCalls {
  import opened Semaph
  import opened SemaphInv
  import opened SemaphTheorems

  // struct sembuf; undo is SEM_UNDO.
  datatype SemBuf = SemBuf(num: nat, op: int, undo: bool)

  const OP_LOCK: seq<SemBuf> := [SemBuf(2, 0, false), SemBuf(2, 1, true)]
  const OP_ENDCREATE: seq<SemBuf> := [SemBuf(1, -1, true), SemBuf(2, -1, true)]
  const OP_CLOSE: seq<SemBuf> := [SemBuf(2, 0, false), SemBuf(2, 1, true), SemBuf(1, 1, true)]
  const OP_UNLOCK: seq<SemBuf> := [SemBuf(2, -1, true)]

  function OpOp(n: int): seq<SemBuf> { [SemBuf(0, n, true)] }

  // The values of the three members and the caller's adjustments.
  datatype Members = Members(v: seq<int>, adj: seq<int>)

  predicate Three(m: Members) { |m.v| == 3 && |m.adj| == 3 }

  datatype Semop = All(m: Members) | Sleeps | Range

  // All operations of the array, or none: the caller sleeps where one cannot be
  // done yet, and gets ERANGE where the value or its adjustment would leave
  // what the kernel can keep.
  function Perform(m: Members, ops: seq<SemBuf>): Semop
    requires Three(m) && forall k :: 0 <= k < |ops| ==> ops[k].num < 3
    decreases |ops|
  {
    if ops == [] then All(m)
    else
      var o := ops[0];
      var x, a := m.v[o.num] + o.op, m.adj[o.num] - o.op;
      if (o.op == 0 && m.v[o.num] != 0) || x < 0 then Sleeps
      else if x > 32767 || (o.undo && !(-32768 <= a <= 32767)) then Range
      else Perform(Members(m.v[o.num := x], if o.undo then m.adj[o.num := a] else m.adj), ops[1..])
  }

  function Values(s: Sem): seq<int> { [s.v0, s.v1, s.v2] }

  function MembersOf(s: Sem, p: Proc): Members { Members(Values(s), [p.adj0, p.adj1, p.adj2]) }

  predicate OnlyProc(s: Sem, i: nat, s': Sem) {
    && i < |s.procs| == |s'.procs| && s'.live == s.live && s'.gen == s.gen && s'.init0 == s.init0
    && forall k :: 0 <= k < |s.procs| && k != i ==> s'.procs[k] == s.procs[k]
  }

  // From s to s' process i has called semop: done, it is at pc; asleep, where it
  // was or at the place for that.
  ghost predicate Called(s: Sem, i: nat, s': Sem, ops: seq<SemBuf>, pc: PC, asleep: PC)
    requires i < |s.procs| && forall k :: 0 <= k < |ops| ==> ops[k].num < 3
  {
    && OnlyProc(s, i, s')
    && match Perform(MembersOf(s, s.procs[i]), ops)
       case All(m) =>
         MembersOf(s', s'.procs[i]) == m && s'.procs[i].pc == pc && s'.procs[i].initval == s.procs[i].initval
       case Sleeps => Values(s') == Values(s) && s'.procs[i] == s.procs[i].(pc := asleep)
       case Range => s'.procs[i].pc.Dead?
  }

  // ---------- the arrays ----------

  predicate InRange(a: int) { -32768 <= a <= 32767 }

  lemma PerformLock(m: Members)
    requires Three(m)
    ensures Perform(m, OP_LOCK) ==
      if m.v[2] != 0 then Sleeps
      else if !InRange(m.adj[2] - 1) then Range
      else All(Members(m.v[2 := 1], m.adj[2 := m.adj[2] - 1]))
  {
    assert OP_LOCK[1..] == [SemBuf(2, 1, true)] && OP_LOCK[1..][1..] == [];
    assert m.v[2] == 0 ==> m.v[2 := 0] == m.v;
  }

  lemma PerformEnd(m: Members)
    requires Three(m) && m.v[1] <= 32767 && m.v[2] <= 32767 && InRange(m.adj[1] + 1) && InRange(m.adj[2] + 1)
    ensures Perform(m, OP_ENDCREATE) ==
      if m.v[1] < 1 || m.v[2] < 1 then Sleeps
      else All(Members(m.v[1 := m.v[1] - 1][2 := m.v[2] - 1], m.adj[1 := m.adj[1] + 1][2 := m.adj[2] + 1]))
  {
    assert OP_ENDCREATE[1..] == [SemBuf(2, -1, true)] && OP_ENDCREATE[1..][1..] == [];
  }

  lemma PerformClose(m: Members)
    requires Three(m) && 0 <= m.v[1] < 32767 && InRange(m.adj[1] - 1) && InRange(m.adj[2] - 1)
    ensures Perform(m, OP_CLOSE) ==
      if m.v[2] != 0 then Sleeps
      else All(Members(m.v[2 := 1][1 := m.v[1] + 1], m.adj[2 := m.adj[2] - 1][1 := m.adj[1] - 1]))
  {
    assert OP_CLOSE[1..] == [SemBuf(2, 1, true), SemBuf(1, 1, true)] && OP_CLOSE[1..][1..] == [SemBuf(1, 1, true)];
    assert OP_CLOSE[1..][1..][1..] == [];
    assert m.v[2] == 0 ==> m.v[2 := 0] == m.v;
  }

  lemma PerformUnlock(m: Members)
    requires Three(m) && m.v[2] <= 32767 && InRange(m.adj[2] + 1)
    ensures Perform(m, OP_UNLOCK) ==
      if m.v[2] < 1 then Sleeps else All(Members(m.v[2 := m.v[2] - 1], m.adj[2 := m.adj[2] + 1]))
  {
    assert OP_UNLOCK[1..] == [];
  }

  lemma PerformOp(m: Members, n: int)
    requires Three(m) && n != 0
    ensures Perform(m, OpOp(n)) ==
      if m.v[0] + n < 0 then Sleeps
      else if m.v[0] + n > 32767 || !InRange(m.adj[0] - n) then Range
      else All(Members(m.v[0 := m.v[0] + n], m.adj[0 := m.adj[0] - n]))
  {
    assert OpOp(n)[1..] == [];
  }

  // ---------- the calls ----------

  // Main result. Each semop of the library, from any state of the invariant, has
  // the kernel's effect for the array that it is called with.
  lemma SemopCalls(s: Sem, i: nat, id: nat)
    requires Inv(s) && s.live && i < |s.procs| && id == s.gen
    ensures s.procs[i].pc == Lock(id) ==> Called(s, i, Next(s, i, Go), OP_LOCK, Read(id), Waiting(id))
    ensures s.procs[i].pc == Waiting(id) ==> Called(s, i, Next(s, i, Go), OP_LOCK, Read(id), Waiting(id))
    ensures s.procs[i].pc == End(id) ==> Called(s, i, Next(s, i, Go), OP_ENDCREATE, Open(id), End(id))
    ensures s.procs[i].pc == Close(id) ==> Called(s, i, Next(s, i, Go), OP_CLOSE, Check(id), Close(id))
    ensures s.procs[i].pc == Unlock(id) ==> Called(s, i, Next(s, i, Go), OP_UNLOCK, Out, Unlock(id))
  {
    hide Sum0, Sum1, Sum2, Perform, Exit;
    var m := MembersOf(s, s.procs[i]);
    UserBound(s, i);
    match s.procs[i].pc
    case Lock(_) => PerformLock(m);
    case Waiting(_) => PerformLock(m);
    case End(_) => PerformEnd(m);
    case Close(_) => PerformClose(m);
    case Unlock(_) => PerformUnlock(m);
    case _ =>
  }

  // Main result. sem_op, and sem_wait and sem_signal with it: n is what is left
  // of the amount in 16 bits. Nothing ends the caller. What would make the value
  // negative leaves everything as it is. Otherwise the value goes up by n and
  // the caller's adjustment down by it, and nothing else changes, or the kernel
  // cannot keep that and the caller ends. This is the kernel's semop.
  lemma OpEffect(s: Sem, i: nat, id: nat, x: int, n: int)
    requires i < |s.procs| && s.procs[i].pc == Open(id) && s.live && id == s.gen
    requires -0x8000 <= n < 0x8000 && (x - n) % 0x1_0000 == 0
    ensures Allowed(s, i, Op(x))
    ensures var p, s' := s.procs[i], Next(s, i, Op(x));
      && (n == 0 ==> s'.procs == s.procs[i := Proc(Dead, p.initval, 0, 0, 0)])
      && (n != 0 && s.v0 + n < 0 ==> s' == s)
      && (n != 0 && 0 <= s.v0 + n <= 32767 && -32768 <= p.adj0 - n <= 32767 ==>
            s' == s.(v0 := s.v0 + n, procs := s.procs[i := p.(adj0 := p.adj0 - n)]))
      && (s.v0 + n > 32767 || (s.v0 + n >= 0 && !(-32768 <= p.adj0 - n <= 32767)) ==>
            s'.procs == s.procs[i := Proc(Dead, p.initval, 0, 0, 0)])
      && (n != 0 ==> Called(s, i, s', OpOp(n), Open(id), Open(id)))
  {
    hide Perform;
    assert Short(x) == n;
    if n != 0 {
      PerformOp(MembersOf(s, s.procs[i]), n);
    }
  }

  // So sem_op does not add what it is given where that does not fit 16 bits:
  // 65537 adds 1, and 65536 is nothing, which ends the caller.
  lemma AmountCut(s: Sem, i: nat, id: nat)
    requires i < |s.procs| && s.procs[i].pc == Open(id) && s.live && id == s.gen
    ensures s.v0 < 32767 && -32767 <= s.procs[i].adj0 <= 32767 ==> Next(s, i, Op(65537)).v0 == s.v0 + 1
    ensures |Next(s, i, Op(65536)).procs| == |s.procs| && Next(s, i, Op(65536)).procs[i].pc.Dead?
    ensures forall x :: Short(x) == x <==> -0x8000 <= x < 0x8000
  {
    hide Next;
    OpEffect(s, i, id, 65537, 1);
    OpEffect(s, i, id, 65536, 0);
  }

  // A process that ends without undoing anything itself: the kernel adds its
  // adjustments to the members, keeping them between 0 and 32767.
  lemma ExitUndoes(s: Sem, i: nat)
    requires i < |s.procs| && !s.procs[i].pc.Dead?
    ensures Allowed(s, i, Crash)
    ensures var p, s' := s.procs[i], Next(s, i, Crash);
      && s'.procs == s.procs[i := Proc(Dead, p.initval, 0, 0, 0)] && s'.live == s.live && s'.gen == s.gen
      && (!s.live ==> Values(s') == Values(s))
      && (s.live ==> forall k :: 0 <= k < 3 ==>
            var x := Values(s)[k] + MembersOf(s, p).adj[k];
            Values(s')[k] == if x < 0 then 0 else if x > 32767 then 32767 else x)
  {}

  // What is undone of nobody else: SETVAL gives the member its value and drops
  // the adjustments that all processes have of it; GETVAL changes nothing.
  lemma SetvalEffect(s: Sem, i: nat, id: nat)
    requires i < |s.procs| && s.live && id == s.gen
    ensures s.procs[i].pc == Set0(id) && 0 <= s.procs[i].initval <= 32767 ==>
      var s' := Next(s, i, Go);
      && Values(s') == [s.procs[i].initval, s.v1, s.v2] && |s'.procs| == |s.procs|
      && s'.procs[i] == s.procs[i].(pc := Set1(id), adj0 := 0)
      && forall k :: 0 <= k < |s.procs| && k != i ==> s'.procs[k] == s.procs[k].(adj0 := 0)
    ensures s.procs[i].pc == Set1(id) ==>
      var s' := Next(s, i, Go);
      && Values(s') == [s.v0, 10000, s.v2] && |s'.procs| == |s.procs|
      && s'.procs[i] == s.procs[i].(pc := End(id), adj1 := 0)
      && forall k :: 0 <= k < |s.procs| && k != i ==> s'.procs[k] == s.procs[k].(adj1 := 0)
    ensures s.procs[i].pc == Read(id) ==>
      Next(s, i, Go) == s.(procs := s.procs[i := s.procs[i].(pc := if s.v1 == 0 then Set0(id) else End(id))])
  {}

  // ---------- the set comes and goes ----------

  // Whoever is not inside may call sem_create, with any initial value, and whoever
  // has returned from it sem_close.
  lemma CallsBegin(s: Sem, i: nat, v: int)
    requires i < |s.procs|
    ensures Allowed(s, i, CallCreate(v)) <==> s.procs[i].pc == Out
    ensures s.procs[i].pc == Out ==>
      Next(s, i, CallCreate(v)) == s.(procs := s.procs[i := s.procs[i].(pc := Get, initval := v)])
    ensures Allowed(s, i, CallClose) <==> s.procs[i].pc.Open?
    ensures s.procs[i].pc.Open? ==>
      Next(s, i, CallClose) == s.(procs := s.procs[i := s.procs[i].(pc := Close(s.procs[i].pc.id))])
  {}

  // semget finds the set of the key, or makes one of zeros.
  lemma GetMakes(s: Sem, i: nat)
    requires i < |s.procs| && s.procs[i].pc.Get?
    ensures var s' := Next(s, i, Go);
      && s'.live && s'.procs == s.procs[i := s.procs[i].(pc := Lock(s'.gen))]
      && if s.live then s'.gen == s.gen && Values(s') == Values(s)
         else s'.gen > s.gen && Values(s') == [0, 0, 0] && !s'.returned
  {}

  // Main result. The last sem_close removes the set, and no other does: the one
  // that finds nobody else with the semaphore open.
  lemma LastCloseRemoves(t: seq<Sem>, n: nat, i: nat)
    requires Run(t, n) && i < |t[|t| - 1].procs|
    ensures var s := t[|t| - 1];
      && (s.procs[i].pc.Check? ==>
            && |Next(s, i, Go).procs| == |s.procs|
            && (Next(s, i, Go).procs[i].pc.Remove? <==> NobodyHasItOpen(s))
            && (Next(s, i, Go).procs[i].pc.Unlock? <==> !NobodyHasItOpen(s)))
      && (s.procs[i].pc.Remove? ==>
            && s.live && !Next(s, i, Go).live && |Next(s, i, Go).procs| == |s.procs|
            && Next(s, i, Go).procs[i].pc == Out)
  {
    RunInv(t, n);
    var s := t[|t| - 1];
    if s.procs[i].pc.Check? {
      UserBound(s, i);
      OneHolder(s, i, i);
      if Sum1(s.procs) > 0 {
        SomeUser(s.procs);
      } else {
        forall k | 0 <= k < |s.procs|
          ensures !User(s.procs[k].pc)
        {
          NoUsers(s, k);
        }
      }
    }
  }

  // ---------- the initial value ----------

  // A path together with who did what.
  ghost predicate Acted(t: seq<Sem>, acts: seq<(nat, Action)>, n: nat) {
    && |t| == |acts| + 1 && t[0] == Init(n)
    && forall k :: 0 <= k < |acts| ==>
         Allowed(t[k], acts[k].0, acts[k].1) && t[k + 1] == Next(t[k], acts[k].0, acts[k].1)
  }

  // What process i last gave to sem_create as the initial value.
  function Asked(acts: seq<(nat, Action)>, i: nat): int {
    if acts == [] then 0
    else
      var (j, a) := acts[|acts| - 1];
      if j == i && a.CallCreate? then a.initval else Asked(acts[..|acts| - 1], i)
  }

  predicate SameInitvals(s: Sem, s': Sem) {
    |s'.procs| == |s.procs| && forall k :: 0 <= k < |s.procs| ==> s'.procs[k].initval == s.procs[k].initval
  }

  lemma InitvalStep(s: Sem, i: nat, a: Action, k: nat)
    requires Allowed(s, i, a) && k < |s.procs|
    ensures |Next(s, i, a).procs| == |s.procs|
    ensures Next(s, i, a).procs[k].initval == if k == i && a.CallCreate? then a.initval else s.procs[k].initval
  {
    hide DoGo, Short, Undoable;
    InitvalGo(s, i);
  }

  lemma InitvalGo(s: Sem, i: nat)
    requires i < |s.procs|
    ensures SameInitvals(s, DoGo(s, i))
  {
    hide DoGet, DoLock, DoSet0, DoSet1, DoEnd, DoClose, DoCheck, DoRemove, DoUnlock, SameInitvals;
    match s.procs[i].pc
    case Get => InitvalPlain(s, i, 0);
    case Lock(id) => InitvalPlain(s, i, id);
    case Waiting(id) => InitvalPlain(s, i, id);
    case Read(id) => InitvalPlain(s, i, id);
    case Set0(id) => InitvalSet(s, i, id);
    case Set1(id) => InitvalSet(s, i, id);
    case End(id) => InitvalClose(s, i, id);
    case Close(id) => InitvalClose(s, i, id);
    case Check(id) => InitvalClose(s, i, id);
    case Remove(id) => InitvalSet(s, i, id);
    case Unlock(id) => InitvalClose(s, i, id);
    case _ => InitvalPlain(s, i, 0);
  }

  lemma InitvalPlain(s: Sem, i: nat, id: nat)
    requires i < |s.procs|
    ensures SameInitvals(s, s) && SameInitvals(s, DoGet(s, i)) && SameInitvals(s, DoLock(s, i, id))
    ensures SameInitvals(s, Exit(s, i)) && forall pc :: SameInitvals(s, Become(s, i, s.procs[i].(pc := pc)))
  {}

  lemma InitvalSet(s: Sem, i: nat, id: nat)
    requires i < |s.procs|
    ensures SameInitvals(s, DoSet0(s, i, id)) && SameInitvals(s, DoSet1(s, i, id))
    ensures SameInitvals(s, DoRemove(s, i, id))
  {}

  lemma InitvalClose(s: Sem, i: nat, id: nat)
    requires i < |s.procs|
    ensures SameInitvals(s, DoEnd(s, i, id)) && SameInitvals(s, DoClose(s, i, id))
    ensures SameInitvals(s, DoCheck(s, i, id)) && SameInitvals(s, DoUnlock(s, i, id))
  {}

  lemma {:induction false} InitvalAsked(t: seq<Sem>, acts: seq<(nat, Action)>, n: nat, i: nat)
    requires Acted(t, acts, n) && i < n
    ensures |t[|acts|].procs| == n && t[|acts|].procs[i].initval == Asked(acts, i)
  {
    hide Allowed, Next;
    if acts != [] {
      var m := |acts| - 1;
      InitvalAsked(t[..m + 1], acts[..m], n, i);
      InitvalStep(t[m], acts[m].0, acts[m].1, i);
    }
  }

  // Main result. Member 0 is set to what the process that sets it has given to
  // its sem_create, and the value that Conservation speaks of is that one.
  lemma InitialValue(t: seq<Sem>, acts: seq<(nat, Action)>, n: nat)
    requires Acted(t, acts, n) && acts != []
    ensures var s, s' := t[|acts| - 1], t[|acts|];
      var (i, a) := acts[|acts| - 1];
      if i < |s.procs| && a == Go && s.procs[i].pc.Set0? && !(|s'.procs| == |s.procs| && s'.procs[i].pc.Dead?) then
        s'.v0 == s'.init0 == Asked(acts[..|acts| - 1], i)
      else s'.init0 == s.init0 || (!s.live && s'.live && s'.init0 == s'.v0 == 0)
  {
    var m := |acts| - 1;
    var s := t[m];
    var (i, a) := acts[m];
    SizeKept(t[..m + 1], acts[..m], n);
    assert i < |s.procs| == n;
    InitvalAsked(t[..m + 1], acts[..m], n, i);
  }

  lemma {:induction false} SizeKept(t: seq<Sem>, acts: seq<(nat, Action)>, n: nat)
    requires Acted(t, acts, n)
    ensures |t[|acts|].procs| == n
  {
    if acts != [] {
      var m := |acts| - 1;
      SizeKept(t[..m + 1], acts[..m], n);
      assert Allowed(t[m], acts[m].0, acts[m].1);
      InitvalStep(t[m], acts[m].0, acts[m].1, 0);
    }
  }
}
