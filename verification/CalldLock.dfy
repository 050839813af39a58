// apue.2e/calld/lock.c: the table of device locks, which only grows.
module CalldLock {

  const NALLOC: nat := 10

  datatype Lock = Lock(line: string, pid: int)

  // ---------- the table on values ----------

  // The first entry for the line, or the length.
  function Find(t: seq<Lock>, line: string): (k: nat)
    ensures k <= |t| && (k < |t| ==> t[k].line == line) && forall i :: 0 <= i < k ==> t[i].line != line
  {
    if t == [] then 0 else if t[0].line == line then 0 else 1 + Find(t[1..], line)
  }

  // The table after find_line, which adds a free entry for a new line.
  function Known(t: seq<Lock>, line: string): seq<Lock> {
    if Find(t, line) < |t| then t else t + [Lock(line, 0)]
  }

  function Set(t: seq<Lock>, line: string, pid: int): seq<Lock> {
    var u := Known(t, line);
    if Find(u, line) < |u| then u[Find(u, line) := Lock(line, pid)] else u
  }

  // The first entry of the process, or the length.
  function FindPid(t: seq<Lock>, pid: int): (k: nat)
    ensures k <= |t| && (k < |t| ==> t[k].pid == pid) && forall i :: 0 <= i < k ==> t[i].pid != pid
  {
    if t == [] then 0 else if t[0].pid == pid then 0 else 1 + FindPid(t[1..], pid)
  }

  function Rel(t: seq<Lock>, pid: int): seq<Lock> {
    var k := FindPid(t, pid);
    if k < |t| then t[k := t[k].(pid := 0)] else t
  }

  // Who has the line: 0 for nobody, also when it was never seen.
  function Owner(t: seq<Lock>, line: string): int {
    if Find(t, line) < |t| then t[Find(t, line)].pid else 0
  }

  ghost predicate Unique(t: seq<Lock>) { forall i, k :: 0 <= i < k < |t| ==> t[i].line != t[k].line }

  // No process has two lines.
  ghost predicate OneEach(t: seq<Lock>) {
    forall i, k :: 0 <= i < k < |t| && t[i].pid != 0 ==> t[i].pid != t[k].pid
  }

  lemma FindAt(t: seq<Lock>, k: nat)
    requires Unique(t) && k < |t|
    ensures Find(t, t[k].line) == k && Owner(t, t[k].line) == t[k].pid
  {}

  // Asking adds at most a free entry.
  lemma KnownOwner(t: seq<Lock>, line: string)
    requires Unique(t)
    ensures Unique(Known(t, line)) && t <= Known(t, line) && Find(Known(t, line), line) < |Known(t, line)|
    ensures forall l :: Owner(Known(t, line), l) == Owner(t, l)
  {
    var u := Known(t, line);
    if u != t {
      assert u[|t|].line == line;
      forall l
        ensures Owner(u, l) == Owner(t, l)
      {
        if Find(t, l) < |t| {
          assert u[Find(t, l)].line == l;
          assert Find(u, l) == Find(t, l);
        } else {
          assert forall i :: 0 <= i < |t| ==> u[i] == t[i];
          assert Find(u, l) >= |t|;
        }
      }
    }
  }

  lemma SetOwner(t: seq<Lock>, line: string, pid: int)
    requires Unique(t)
    ensures Unique(Set(t, line, pid)) && |t| <= |Set(t, line, pid)|
    ensures forall l :: Owner(Set(t, line, pid), l) == if l == line then pid else Owner(t, l)
  {
    KnownOwner(t, line);
    var u := Known(t, line);
    var k := Find(u, line);
    ReplaceOwner(u, k, pid);
  }

  lemma ReplaceOwner(u: seq<Lock>, k: nat, pid: int)
    requires Unique(u) && k < |u|
    ensures var v := u[k := u[k].(pid := pid)];
      Unique(v) && forall l :: Owner(v, l) == if l == u[k].line then pid else Owner(u, l)
  {
    var v := u[k := u[k].(pid := pid)];
    forall i | 0 <= i < |u|
      ensures v[i].line == u[i].line
    {}
    forall l
      ensures Owner(v, l) == if l == u[k].line then pid else Owner(u, l)
    {
      if Find(u, l) < |u| {
        assert v[Find(u, l)].line == l;
        assert Find(v, l) == Find(u, l);
        FindAt(u, k);
      } else {
        assert Find(v, l) == |v|;
      }
    }
  }

  // Main result about lock_rel: it frees a line of the process if and only if
  // the line's is the first entry with that process, so exactly its line when
  // it has one only, and it changes nothing else.
  lemma RelOwner(t: seq<Lock>, pid: int)
    requires Unique(t) && pid != 0
    ensures Unique(Rel(t, pid))
    ensures forall l :: (Owner(Rel(t, pid), l) ==
      if Find(t, l) < |t| && Find(t, l) == FindPid(t, pid) then 0 else Owner(t, l))
    ensures OneEach(t) ==> forall l :: Owner(Rel(t, pid), l) == if Owner(t, l) == pid then 0 else Owner(t, l)
  {
    var k := FindPid(t, pid);
    if k < |t| {
      ReplaceOwner(t, k, 0);
      FindAt(t, k);
    }
  }

  // ---------- the table in place ----------

  class LockTable {
    var lock: array<Lock>
    var nlocks: nat

    ghost predicate Valid()
      reads this, lock
    {
      nlocks <= lock.Length && lock.Length % NALLOC == 0 && Unique(lock[..nlocks])
    }

    ghost function Table(): seq<Lock>
      requires nlocks <= lock.Length
      reads this, lock
    {
      lock[..nlocks]
    }

    // lock is NULL and the sizes are 0.
    constructor ()
      ensures Valid() && Table() == [] && fresh(lock)
    {
      lock := new Lock[0];
      nlocks := 0;
    }

    // realloc by NALLOC entries.
    method Grow()
      requires Valid() && nlocks == lock.Length
      modifies this
      ensures Valid() && fresh(lock) && lock.Length > nlocks && Table() == old(Table())
    {
      var bigger := new Lock[lock.Length + NALLOC](_ => Lock("", 0));
      var i := 0;
      while i < nlocks
        invariant i <= nlocks == lock.Length == old(lock.Length) && lock == old(lock)
        invariant bigger[..i] == old(lock[..i])
        modifies bigger
      {
        bigger[i] := lock[i];
        i := i + 1;
      }
      lock := bigger;
    }

    method FindLine(line: string) returns (i: nat)
      requires Valid()
      modifies this, lock
      ensures Valid() && (lock == old(lock) || fresh(lock))
      ensures Table() == Known(old(Table()), line) && i < nlocks && i == Find(Table(), line)
    {
      i := 0;
      while i < nlocks
        invariant i <= nlocks && forall k :: 0 <= k < i ==> lock[k].line != line
      {
        if lock[i].line == line {
          FindAt(Table(), i);
          return;
        }
        i := i + 1;
      }
      ghost var t := Table();
      assert Find(t, line) == |t|;
      KnownOwner(t, line);
      if nlocks >= lock.Length {
        Grow();
      }
      i := nlocks;
      lock[i] := Lock(line, 0);
      nlocks := nlocks + 1;
      assert Table() == t + [Lock(line, 0)];
    }

    method LockSet(line: string, pid: int)
      requires Valid()
      modifies this, lock
      ensures Valid() && (lock == old(lock) || fresh(lock))
      ensures Table() == Set(old(Table()), line, pid)
    {
      SetOwner(Table(), line, pid);
      var i := FindLine(line);
      ghost var u := Table();
      assert u[i].line == line;
      lock[i] := lock[i].(pid := pid);
      assert Table() == u[i := Lock(line, pid)];
    }

    method LockRel(pid: int)
      requires Valid()
      modifies lock
      ensures Valid() && Table() == Rel(old(Table()), pid)
    {
      ghost var t := Table();
      var i := 0;
      while i < nlocks
        invariant i <= nlocks && Table() == t && Valid() && forall k :: 0 <= k < i ==> lock[k].pid != pid
        modifies lock
      {
        if lock[i].pid == pid {
          assert FindPid(t, pid) == i;
          ReplaceOwner(t, i, 0);
          lock[i] := lock[i].(pid := 0);
          assert Table() == t[i := t[i].(pid := 0)];
          return;
        }
        i := i + 1;
      }
      assert FindPid(t, pid) == |t|;
    }

    method IsLocked(line: string) returns (pid: int)
      requires Valid()
      modifies this, lock
      ensures Valid() && (lock == old(lock) || fresh(lock))
      ensures Table() == Known(old(Table()), line) && pid == Owner(old(Table()), line)
    {
      KnownOwner(Table(), line);
      var i := FindLine(line);
      pid := lock[i].pid;
    }
  }
}
