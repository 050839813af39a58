// How one step of one process keeps the invariant of the whole system: the
// lock table first, then the step's own guarantee, then everybody else.
module DbStepFrame {
  import opened DbFormat
  import opened DbWorld
  import opened DbMachine
  import opened DbInv
  import opened DbStable

  // ---------- the lock table ----------

  lemma AcquireLocks(s: Sys, i: nat, p': Proc, l: Lock)
    requires LocksOk(s) && i < |s.procs|
    requires l.pid == i && Grantable(s.locks, l)
    requires Held(i, p') == Held(i, s.procs[i]) + {l}
    ensures LocksOk(Acquire(s, i, p', l))
  {
    hide Held, Overlap;
    var s' := Acquire(s, i, p', l);
    forall x
      ensures x in s'.locks <==> x.pid < |s'.procs| && x in Held(x.pid, s'.procs[x.pid])
    {}
    forall a, b | a in s'.locks && b in s'.locks
      ensures !Conflict(a, b)
    {
      ConflictSymmetric(a, b);
    }
  }

  lemma ConflictSymmetric(a: Lock, b: Lock)
    ensures Conflict(a, b) == Conflict(b, a)
  {}

  lemma ReleaseLocks(s: Sys, i: nat, p': Proc, l: Lock)
    requires LocksOk(s) && i < |s.procs| && l.pid == i
    requires Held(i, p') == Held(i, s.procs[i]) - {l}
    ensures LocksOk(Release(s, i, p', l))
  {
    hide Held, Conflict;
    var s' := Release(s, i, p', l);
    forall x
      ensures x in s'.locks <==> x.pid < |s'.procs| && x in Held(x.pid, s'.procs[x.pid])
    {}
  }

  lemma DieLocks(s: Sys, i: nat)
    requires LocksOk(s) && i < |s.procs|
    ensures LocksOk(Die(s, i))
  {
    hide Conflict;
    var s' := Die(s, i);
    assert Held(i, s'.procs[i]) == {};
    forall x
      ensures x in s'.locks <==> x.pid < |s'.procs| && x in Held(x.pid, s'.procs[x.pid])
    {
      assert x in s'.locks <==> x in s.locks && x.pid != i;
    }
  }

  lemma SameLocks(s: Sys, s': Sys, i: nat, p': Proc)
    requires LocksOk(s) && i < |s.procs|
    requires s'.procs == s.procs[i := p'] && s'.locks == s.locks
    requires Held(i, p') == Held(i, s.procs[i])
    ensures LocksOk(s')
  {
    hide Held, Conflict;
  }

  // ---------- exclusion ----------

  lemma ChainExclusion(s: Sys, i: nat, q: nat)
    requires LocksOk(s) && i < |s.procs| && q < |s.procs| && i != q
    requires WritesChain(s.procs[i]) && HoldsChain(s.procs[q])
    ensures HashOf(s.procs[i]) != HashOf(s.procs[q])
  {
    hide Hash;
    var a, b := ChainLock(i, s.procs[i]), ChainLock(q, s.procs[q]);
    assert a in Held(i, s.procs[i]) && b in Held(q, s.procs[q]);
    assert a in s.locks && b in s.locks;
    assert !Conflict(a, b);
  }

  lemma FreeExclusion(s: Sys, i: nat, q: nat)
    requires LocksOk(s) && i < |s.procs| && q < |s.procs| && i != q
    requires HoldsFree(s.procs[i])
    ensures !HoldsFree(s.procs[q])
  {
    var a, b := FreeLock(i), FreeLock(q);
    assert a in Held(i, s.procs[i]);
    if HoldsFree(s.procs[q]) {
      assert b in Held(q, s.procs[q]);
      assert a in s.locks && b in s.locks;
      assert Conflict(a, b);
    }
  }

  lemma DatExclusion(s: Sys, i: nat, q: nat)
    requires LocksOk(s) && i < |s.procs| && q < |s.procs| && i != q
    requires HoldsDat(s.procs[i])
    ensures !HoldsDat(s.procs[q])
  {
    var a, b := DatLock(i), DatLock(q);
    assert a in Held(i, s.procs[i]);
    if HoldsDat(s.procs[q]) {
      assert b in Held(q, s.procs[q]);
      assert a in s.locks && b in s.locks;
      assert Conflict(a, b);
    }
  }

  lemma TailExclusion(s: Sys, i: nat, q: nat)
    requires LocksOk(s) && i < |s.procs| && q < |s.procs| && i != q
    requires HoldsTail(s.procs[i])
    ensures !HoldsTail(s.procs[q])
  {
    var a, b := TailLock(i), TailLock(q);
    assert a in Held(i, s.procs[i]);
    if HoldsTail(s.procs[q]) {
      assert b in Held(q, s.procs[q]);
      assert a in s.locks && b in s.locks;
      assert Conflict(a, b);
    }
  }

  // ---------- the guarantee of a step ----------

  // What process i, in state p, leaves alone when it turns w into w'.
  ghost predicate Guarantee(w: World, w': World, i: nat, p: Proc)
    requires |w.chains| == NHASH && |w'.chains| == NHASH
  {
    && (forall h :: 0 <= h < NHASH && !(WritesChain(p) && HashOf(p) == h) ==> SameChain(w, w', h))
    && (!HoldsFree(p) ==> SameFree(w, w'))
    && (forall q :: q != i ==> SameHeld(w, w', q))
    && (!HoldsDat(p) ==> |w'.dat| == |w.dat|)
    && (!HoldsTail(p) ==> |w'.idx| == |w.idx|)
  }

  lemma OthersUndisturbed(s: Sys, w: World, i: nat, w': World, q: nat)
    requires LocksOk(s) && |w.chains| == NHASH && |w'.chains| == NHASH
    requires i < |s.procs| && q < |s.procs| && q != i
    requires Guarantee(w, w', i, s.procs[i])
    ensures Undisturbed(w, w', q, s.procs[q])
  {
    hide SameChain, SameFree, SameHeld, Held, Overlap, Hash;
    if WritesChain(s.procs[i]) && HoldsChain(s.procs[q]) {
      ChainExclusion(s, i, q);
    }
    if HoldsFree(s.procs[i]) {
      FreeExclusion(s, i, q);
    }
    if HoldsDat(s.procs[i]) {
      DatExclusion(s, i, q);
    }
    if HoldsTail(s.procs[i]) {
      TailExclusion(s, i, q);
    }
  }

  // The one proof about everybody else: given what step i guarantees and what
  // it establishes for itself, the invariant holds again.
  lemma Assemble(s: Sys, w: World, i: nat, s': Sys, w': World)
    requires Inv(s, w) && i < |s.procs| == |s'.procs| && s'.procs == s.procs[i := s'.procs[i]]
    requires Coupled(s', w') && WorldOk(w') && LocksOk(s')
    requires Guarantee(w, w', i, s.procs[i])
    requires PInv(w', i, s'.procs[i])
    requires HoldsChain(s'.procs[i]) ==> MyChain(w', s'.procs[i])
    requires WritesChain(s.procs[i]) && !WritesChain(s'.procs[i]) ==>
      ChainInv(w', HashOf(s.procs[i]), w'.cells, w'.m)
    requires WritesChain(s.procs[i]) && WritesChain(s'.procs[i]) ==> HashOf(s.procs[i]) == HashOf(s'.procs[i])
    ensures Inv(s', w')
  {
    hide Rep, ListsOk, FreeInv, PInv, ChainInv, MyChain, SameChain, SameFree, SameHeld, LocksOk, Hash, Legal,
      Replay, Undisturbed, Guarantee;
    forall q | 0 <= q < |s'.procs|
      ensures PInv(w', q, s'.procs[q])
      ensures HoldsChain(s'.procs[q]) ==> MyChain(w', s'.procs[q])
    {
      if q != i {
        OthersUndisturbed(s, w, i, w', q);
        Stable(w, w', q, s.procs[q]);
        if HoldsChain(s.procs[q]) {
          UndisturbedChain(w, w', q, s.procs[q]);
          StableMyChain(w, w', s.procs[q]);
        }
      }
    }
    forall h | 0 <= h < NHASH && NoWriter(s', h)
      ensures ChainInv(w', h, w'.cells, w'.m)
    {
      Unwritten(s, w, i, s', w', h);
    }
  }

  lemma UndisturbedChain(w: World, w': World, q: nat, p: Proc)
    requires |w.chains| == NHASH && |w'.chains| == NHASH
    requires Undisturbed(w, w', q, p) && HoldsChain(p)
    ensures SameChain(w, w', HashOf(p))
  {}

  lemma Unwritten(s: Sys, w: World, i: nat, s': Sys, w': World, h: nat)
    requires |w.chains| == NHASH && |w'.chains| == NHASH && h < NHASH
    requires i < |s.procs| == |s'.procs| && s'.procs == s.procs[i := s'.procs[i]]
    requires forall h :: 0 <= h < NHASH && NoWriter(s, h) ==> ChainInv(w, h, w.cells, w.m)
    requires Guarantee(w, w', i, s.procs[i])
    requires WritesChain(s.procs[i]) && !WritesChain(s'.procs[i]) ==>
      ChainInv(w', HashOf(s.procs[i]), w'.cells, w'.m)
    requires WritesChain(s.procs[i]) && WritesChain(s'.procs[i]) ==> HashOf(s.procs[i]) == HashOf(s'.procs[i])
    requires NoWriter(s', h)
    ensures ChainInv(w', h, w'.cells, w'.m)
  {
    hide ChainInv, SameChain, SameFree, SameHeld, Hash;
    if WritesChain(s.procs[i]) && HashOf(s.procs[i]) == h {
      assert !WritesChain(s'.procs[i]);
    } else {
      forall q | 0 <= q < |s.procs| && WritesChain(s.procs[q])
        ensures HashOf(s.procs[q]) != h
      {
        if q != i {
          assert s'.procs[q] == s.procs[q];
        }
      }
      assert NoWriter(s, h);
      StablePlain(w, w', h);
    }
  }

  // ---------- steps that change nothing shared ----------

  lemma SameRecRefl(w: World, o: nat)
    requires Rep(w) && o in w.recs
    ensures SameRec(w, w, o)
  {
    hide RecAt, RecOk, DatOk, HeaderOk;
  }

  lemma SameChainRefl(w: World, h: nat)
    requires WorldOk(w) && h < NHASH
    ensures SameChain(w, w, h)
  {
    hide SameRec, RecAt, PtrAt, RecOk, DatOk, RecsOk, FreeInv;
    assert HdrCell(ChainOff(h));
    forall o | o in w.chains[h]
      ensures SameRec(w, w, o)
    {
      SameRecRefl(w, o);
    }
  }

  lemma SameFreeRefl(w: World)
    requires WorldOk(w)
    ensures SameFree(w, w)
  {
    hide SameRec, RecAt, PtrAt, RecOk, DatOk, RecsOk, Linked;
    assert HdrCell(FREE_OFF);
    forall o | o in w.free
      ensures SameRec(w, w, o)
    {
      SameRecRefl(w, o);
    }
  }

  lemma SameHeldRefl(w: World, q: nat)
    requires WorldOk(w)
    ensures SameHeld(w, w, q)
  {
    hide SameRec, RecAt, PtrAt, RecOk, RecsOk, FreeInv, HeaderOk;
    forall o | o in w.loc && w.loc[o] == HeldBy(q)
      ensures SameRec(w, w, o)
    {
      SameRecRefl(w, o);
    }
  }

  lemma GuaranteeRefl(w: World, i: nat, p: Proc)
    requires WorldOk(w)
    ensures Guarantee(w, w, i, p)
  {
    hide SameChain, SameFree, SameHeld, Rep, ListsOk, FreeInv;
    forall h | 0 <= h < NHASH
      ensures SameChain(w, w, h)
    {
      SameChainRefl(w, h);
    }
    SameFreeRefl(w);
    forall q: nat
      ensures SameHeld(w, w, q)
    {
      SameHeldRefl(w, q);
    }
  }

  // Reads, seeks and lock requests: only the process itself moves on.
  lemma Quiet(s: Sys, w: World, i: nat, s': Sys)
    requires Inv(s, w) && i < |s.procs| == |s'.procs|
    requires s'.idx == s.idx && s'.dat == s.dat && s'.log == s.log
    requires s'.procs == s.procs[i := s'.procs[i]] && LocksOk(s')
    requires PInv(w, i, s'.procs[i])
    requires HoldsChain(s'.procs[i]) ==> MyChain(w, s'.procs[i])
    requires WritesChain(s.procs[i]) ==> WritesChain(s'.procs[i]) && HashOf(s.procs[i]) == HashOf(s'.procs[i])
    ensures Inv(s', w)
  {
    hide Rep, ListsOk, FreeInv, PInv, ChainInv, MyChain, LocksOk, Hash, Legal, Replay, Guarantee;
    GuaranteeRefl(w, i, s.procs[i]);
    Assemble(s, w, i, s', w);
  }
}
