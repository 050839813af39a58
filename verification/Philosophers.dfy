// The dining philosophers of Exp_4: forks are lock files made with O_EXCL, and
// the last philosopher takes its forks in the other order. Here for any number
// of philosophers; the program has five.
module Philosophers {

  // What the next call of a philosopher is. First and Second poll a fork in
  // lock(); Drop1 and Drop2 unlink one.
  datatype Place = Thinking | First | Second | Eating | Drop1 | Drop2

  // file[f]: the lock file of fork f exists.
  datatype Table = Table(file: seq<bool>, at: seq<Place>)

  function FirstFork(n: nat, i: nat): nat { if i == n - 1 then 0 else i }

  function SecondFork(n: nat, i: nat): nat { if i == n - 1 then i else i + 1 }

  predicate Shaped(s: Table) { |s.file| == |s.at| }

  // One open(O_CREAT | O_EXCL) of lock(): it fails if the file is there, and
  // the caller sleeps and tries again.
  function Poll(s: Table, i: nat, f: nat, place: Place): Table
    requires f < |s.file| && i < |s.at|
  {
    if s.file[f] then s else Table(s.file[f := true], s.at[i := place])
  }

  function Unlink(s: Table, i: nat, f: nat, place: Place): Table
    requires f < |s.file| && i < |s.at|
  {
    Table(s.file[f := false], s.at[i := place])
  }

  // Philosopher i makes its next call.
  function Next(s: Table, i: nat): Table
    requires Shaped(s) && i < |s.at|
  {
    var n := |s.at|;
    match s.at[i]
    case Thinking => s.(at := s.at[i := First])
    case First => Poll(s, i, FirstFork(n, i), Second)
    case Second => Poll(s, i, SecondFork(n, i), Eating)
    case Eating => s.(at := s.at[i := Drop1])
    case Drop1 => Unlink(s, i, FirstFork(n, i), Drop2)
    case Drop2 => Unlink(s, i, SecondFork(n, i), Thinking)
  }

  // What every philosopher does, in this order and over again: it thinks and is
  // then hungry; it takes the fork of its own number and the next one, but the
  // last philosopher takes the first fork and then its own; it eats; and it puts
  // them down in the order in which it took them. A fork that is taken is waited
  // for, and only the file of the fork in question changes.
  lemma OneCall(s: Table, i: nat)
    requires Shaped(s) && i < |s.at|
    ensures var n, s' := |s.at|, Next(s, i);
      var one, two := if i == n - 1 then 0 else i, if i == n - 1 then i else i + 1;
      match s.at[i]
      case Thinking => s' == Table(s.file, s.at[i := First])
      case First => s' == if s.file[one] then s else Table(s.file[one := true], s.at[i := Second])
      case Second => s' == if s.file[two] then s else Table(s.file[two := true], s.at[i := Eating])
      case Eating => s' == Table(s.file, s.at[i := Drop1])
      case Drop1 => s' == Table(s.file[one := false], s.at[i := Drop2])
      case Drop2 => s' == Table(s.file[two := false], s.at[i := Thinking])
  {}

  function Init(n: nat): Table { Table(seq(n, _ => false), seq(n, _ => Thinking)) }

  ghost predicate Step(s: Table, s': Table) {
    Shaped(s) && exists i :: 0 <= i < |s.at| && s' == Next(s, i)
  }

  ghost predicate Run(t: seq<Table>, n: nat) {
    && t != [] && t[0] == Init(n)
    && forall k :: 0 <= k < |t| - 1 ==> Step(t[k], t[k + 1])
  }

  // ---------- who holds which fork ----------

  predicate Holds(s: Table, i: nat, f: nat)
    requires i < |s.at|
  {
    var n := |s.at|;
    match s.at[i]
    case Second => f == FirstFork(n, i)
    case Eating => f == FirstFork(n, i) || f == SecondFork(n, i)
    case Drop1 => f == FirstFork(n, i) || f == SecondFork(n, i)
    case Drop2 => f == SecondFork(n, i)
    case _ => false
  }

  ghost predicate Held(s: Table, f: nat) { exists i: nat :: i < |s.at| && Holds(s, i, f) }

  // A fork's file exists exactly when a philosopher's place holds it, and then
  // one philosopher's only.
  ghost predicate Inv(s: Table) {
    && Shaped(s) && |s.at| >= 2
    && (forall f: nat :: f < |s.file| ==> (s.file[f] <==> Held(s, f)))
    && (forall i: nat, j: nat, f: nat :: i < |s.at| && j < |s.at| && Holds(s, i, f) && Holds(s, j, f) ==> i == j)
  }

  // Nobody else's holdings change.
  lemma OthersHold(s: Table, i: nat, j: nat, f: nat)
    requires Shaped(s) && i < |s.at| && j < |s.at| && j != i
    ensures |Next(s, i).at| == |s.at| && Shaped(Next(s, i)) && Holds(Next(s, i), j, f) == Holds(s, j, f)
  {}

  // Only the fork that philosopher i makes or unlinks changes, with its holdings.
  lemma FileHeld(s: Table, i: nat, f: nat)
    requires Inv(s) && i < |s.at| && f < |s.at|
    ensures Shaped(Next(s, i)) && |Next(s, i).at| == |s.at| && (Next(s, i).file[f] <==> Held(Next(s, i), f))
  {
    var s' := Next(s, i);
    assert Holds(s, i, f) ==> Held(s, f);
    assert Holds(s', i, f) ==> Held(s', f);
    if j: nat :| j < |s.at| && j != i && Holds(s, j, f) {
      OthersHold(s, i, j, f);
      assert Held(s, f) && !Holds(s, i, f);
    } else {
      forall j: nat | j < |s.at| && j != i
        ensures !Holds(s', j, f)
      {
        OthersHold(s, i, j, f);
      }
    }
  }

  lemma InvNext(s: Table, i: nat)
    requires Inv(s) && i < |s.at|
    ensures Inv(Next(s, i))
  {
    var n, s' := |s.at|, Next(s, i);
    forall f: nat | f < n
      ensures s'.file[f] <==> Held(s', f)
    {
      FileHeld(s, i, f);
    }
    forall j: nat, k: nat, f: nat | j < n && k < n && j != i && k != i
      ensures Holds(s', j, f) && Holds(s', k, f) ==> j == k
    {
      OthersHold(s, i, j, f);
      OthersHold(s, i, k, f);
    }
    forall k: nat, f: nat | k < n && k != i && Holds(s', i, f)
      ensures !Holds(s', k, f)
    {
      OthersHold(s, i, k, f);
      assert Holds(s, i, f) || !Held(s, f);
    }
  }

  lemma {:induction false} RunInv(t: seq<Table>, n: nat)
    requires Run(t, n) && n >= 2
    ensures Inv(t[|t| - 1]) && |t[|t| - 1].at| == n
  {
    if |t| > 1 {
      var t0 := t[..|t| - 1];
      RunInv(t0, n);
      var s, s' := t[|t| - 2], t[|t| - 1];
      assert Step(s, s') && s == t0[|t0| - 1];
      var i :| 0 <= i < |s.at| && s' == Next(s, i);
      InvNext(s, i);
    }
  }

  // Main result. The file of fork f exists in a state of a run exactly when one
  // philosopher, and no other, holds it.
  lemma ForkFileIffHeld(t: seq<Table>, n: nat, f: nat)
    requires Run(t, n) && f < n && n >= 2
    ensures var s := t[|t| - 1];
      && |s.at| == |s.file| == n
      && (s.file[f] <==> exists i: nat :: i < n && Holds(s, i, f))
      && (forall i: nat, j: nat :: i < n && j < n && Holds(s, i, f) && Holds(s, j, f) ==> i == j)
  {
    RunInv(t, n);
    var s := t[|t| - 1];
    assert s.file[f] <==> Held(s, f);
  }

  // Main result. Neighbours at the round table never eat at the same time.
  lemma NeighboursNeverBothEat(t: seq<Table>, n: nat, i: nat)
    requires Run(t, n) && i < n && n >= 2
    ensures var s := t[|t| - 1];
      |s.at| == n && !(s.at[i].Eating? && s.at[(i + 1) % n].Eating?)
  {
    RunInv(t, n);
    var s := t[|t| - 1];
    var j := (i + 1) % n;
    assert Holds(s, i, j) <== s.at[i].Eating?;
    assert Holds(s, j, j) <== s.at[j].Eating?;
  }

  // Whoever it is, there is a run in which that philosopher comes to eat.
  lemma AnyoneCanEat(n: nat, i: nat) returns (t: seq<Table>)
    requires i < n && n >= 2
    ensures Run(t, n) && |t[|t| - 1].at| == n && t[|t| - 1].at[i].Eating?
  {
    var s0 := Init(n);
    var s1 := Next(s0, i);
    var s2 := Next(s1, i);
    var s3 := Next(s2, i);
    t := [s0, s1, s2, s3];
    assert Step(s0, s1) && Step(s1, s2) && Step(s2, s3);
  }

  // ---------- no deadlock ----------

  // The fork that a polling philosopher waits for.
  function Wanted(s: Table, i: nat): nat
    requires i < |s.at|
  {
    if s.at[i].First? then FirstFork(|s.at|, i) else SecondFork(|s.at|, i)
  }

  // The lock order at work: whoever holds the fork one waits for is either able
  // to move or waits for a higher fork.
  lemma {:induction false} SomeoneMoves(s: Table, i: nat) returns (k: nat)
    requires Inv(s) && i < |s.at| && !s.at[i].Thinking?
    ensures k < |s.at| && !s.at[k].Thinking? && Next(s, k) != s
    decreases if s.at[i].First? || s.at[i].Second? then |s.at| - Wanted(s, i) else 0
  {
    k := i;
    if Next(s, i) == s {
      var f := Wanted(s, i);
      assert s.file[f] && Held(s, f);
      var j: nat :| j < |s.at| && Holds(s, j, f);
      if s.at[j].Second? {
        assert f == FirstFork(|s.at|, j) < SecondFork(|s.at|, j);
        k := SomeoneMoves(s, j);
      } else {
        k := j;
      }
    }
  }

  // Main result: deadlock freedom.
  lemma NoDeadlock(t: seq<Table>, n: nat, i: nat) returns (k: nat)
    requires Run(t, n) && i < n && n >= 2 && i < |t[|t| - 1].at| && !t[|t| - 1].at[i].Thinking?
    ensures var s := t[|t| - 1];
      k < |s.at| && Shaped(s) && !s.at[k].Thinking? && Next(s, k) != s
  {
    RunInv(t, n);
    k := SomeoneMoves(t[|t| - 1], i);
  }

  // Two philosophers are needed: alone, one would wait for the fork it has.
  lemma AloneIsStuck() returns (t: seq<Table>)
    ensures Run(t, 1)
    ensures var s := t[|t| - 1];
      |s.at| == 1 && Shaped(s) && !s.at[0].Thinking? && Next(s, 0) == s
  {
    var s0 := Init(1);
    var s1 := Next(s0, 0);
    var s2 := Next(s1, 0);
    t := [s0, s1, s2];
    assert Step(s0, s1) && Step(s1, s2);
  }

  // ---------- everybody hungry gets to eat ----------

  function Rank(p: Place): nat {
    match p
    case Thinking => 0 case Drop2 => 1 case Drop1 => 2 case Eating => 3 case Second => 4 case First => 5
  }

  function Work(ps: seq<Place>): nat { if ps == [] then 0 else Work(ps[..|ps| - 1]) + Rank(ps[|ps| - 1]) }

  lemma {:induction false} WorkUpdate(ps: seq<Place>, i: nat, p: Place)
    requires i < |ps|
    ensures Work(ps[i := p]) == Work(ps) - Rank(ps[i]) + Rank(p)
  {
    var n := |ps| - 1;
    if i == n {
      assert ps[i := p][..n] == ps[..n];
    } else {
      assert ps[i := p][..n] == ps[..n][i := p];
      WorkUpdate(ps[..n], i, p);
    }
  }

  lemma {:induction false} NoWork(ps: seq<Place>)
    ensures Work(ps) == 0 <==> forall i :: 0 <= i < |ps| ==> ps[i].Thinking?
  {
    if ps != [] {
      NoWork(ps[..|ps| - 1]);
    }
  }

  // A turn in which no thinker becomes hungry.
  function Turn(s: Table, i: nat): Table
    requires Shaped(s) && i < |s.at|
  {
    if s.at[i].Thinking? then s else Next(s, i)
  }

  lemma TurnWork(s: Table, i: nat)
    requires Inv(s) && i < |s.at|
    ensures Inv(Turn(s, i)) && |Turn(s, i).at| == |s.at|
    ensures Work(Turn(s, i).at) == (if Turn(s, i) == s then Work(s.at) else Work(s.at) - 1)
  {
    if !s.at[i].Thinking? {
      InvNext(s, i);
      WorkUpdate(s.at, i, Next(s, i).at[i]);
      assert Next(s, i) != s ==> Next(s, i).at == s.at[i := Next(s, i).at[i]];
    }
  }

  predicate Among(turns: seq<nat>, n: nat) { forall k :: 0 <= k < |turns| ==> turns[k] < n }

  // The states that a sequence of turns goes through, the first one included.
  ghost function Trace(s: Table, turns: seq<nat>): (t: seq<Table>)
    requires Inv(s) && Among(turns, |s.at|)
    ensures |t| == |turns| + 1 && t[0] == s
    ensures forall k :: 0 <= k < |t| ==> Inv(t[k]) && |t[k].at| == |s.at|
    ensures forall k :: 0 <= k < |turns| ==> Inv(t[k]) && |t[k].at| == |s.at| && t[k + 1] == Turn(t[k], turns[k])
    decreases |turns|
  {
    if turns == [] then [s]
    else
      TurnWork(s, turns[0]);
      assert Among(turns[1..], |s.at|) by {
        assert forall k :: 0 <= k < |turns| - 1 ==> turns[1..][k] == turns[k + 1];
      }
      [s] + Trace(Turn(s, turns[0]), turns[1..])
  }

  // Until somebody makes a real move the state stays as it is; each real move
  // takes one off the work.
  lemma {:induction false} TraceWork(s: Table, turns: seq<nat>, k: nat)
    requires Inv(s) && Among(turns, |s.at|) && k <= |turns|
    ensures Work(Trace(s, turns)[k].at) <= Work(s.at)
    ensures Trace(s, turns)[k] == s || Work(Trace(s, turns)[k].at) < Work(s.at)
  {
    if k > 0 {
      var t := Trace(s, turns);
      TraceWork(s, turns, k - 1);
      TurnWork(t[k - 1], turns[k - 1]);
    }
  }

  predicate Round(turns: seq<nat>, n: nat) { Among(turns, n) && forall i: nat :: i < n ==> i in turns }

  // A round in which everybody has a turn, in whatever order and however often,
  // does some of the work.
  lemma RoundWorks(s: Table, turns: seq<nat>)
    requires Inv(s) && Round(turns, |s.at|) && Work(s.at) > 0
    ensures Work(Trace(s, turns)[|turns|].at) < Work(s.at)
  {
    hide Inv, Next, Trace, Work;
    NoWork(s.at);
    var i: nat :| i < |s.at| && !s.at[i].Thinking?;
    var k := SomeoneMoves(s, i);
    assert k in turns;
    var m: nat :| m < |turns| && turns[m] == k;
    var t := Trace(s, turns);
    TraceWork(s, turns, m);
    TraceWork(s, turns, m + 1);
    TurnWork(t[m], k);
    TraceTail(s, turns, m + 1);
  }

  lemma {:induction false} TraceTail(s: Table, turns: seq<nat>, m: nat)
    requires Inv(s) && Among(turns, |s.at|) && m <= |turns|
    ensures Work(Trace(s, turns)[|turns|].at) <= Work(Trace(s, turns)[m].at)
    decreases |turns| - m
  {
    if m < |turns| {
      var t := Trace(s, turns);
      TurnWork(t[m], turns[m]);
      TraceTail(s, turns, m + 1);
    }
  }

  function Flat(rounds: seq<seq<nat>>): seq<nat> {
    if rounds == [] then [] else rounds[0] + Flat(rounds[1..])
  }

  predicate Rounds(rounds: seq<seq<nat>>, n: nat) { forall k :: 0 <= k < |rounds| ==> Round(rounds[k], n) }

  lemma {:induction false} FlatAmong(rounds: seq<seq<nat>>, n: nat)
    requires Rounds(rounds, n)
    ensures Among(Flat(rounds), n)
  {
    if rounds != [] {
      FlatAmong(rounds[1..], n);
    }
  }

  lemma TraceFirst(s: Table, turns: seq<nat>, k: nat)
    requires Inv(s) && Among(turns, |s.at|) && 0 < k <= |turns|
    ensures Shaped(s)
    ensures var s' := Turn(s, turns[0]);
      && Inv(s') && |s'.at| == |s.at| && Among(turns[1..], |s.at|)
      && Trace(s, turns)[k] == Trace(s', turns[1..])[k - 1]
  {
    hide Next;
    TurnWork(s, turns[0]);
  }

  lemma {:induction false} TraceAppend(s: Table, a: seq<nat>, b: seq<nat>)
    requires Inv(s) && Among(a, |s.at|) && Among(b, |s.at|)
    ensures Trace(s, a + b)[|a| + |b|] == Trace(Trace(s, a)[|a|], b)[|b|]
    decreases |a|
  {
    hide Inv, Next, Turn;
    if a == [] {
      assert a + b == b;
    } else {
      assert (a + b)[0] == a[0] && (a + b)[1..] == a[1..] + b;
      TraceFirst(s, a, |a|);
      TraceFirst(s, a + b, |a| + |b|);
      TraceAppend(Turn(s, a[0]), a[1..], b);
    }
  }

  lemma {:induction false} RoundsFinish(s: Table, rounds: seq<seq<nat>>)
    requires Inv(s) && Rounds(rounds, |s.at|) && |rounds| >= Work(s.at)
    ensures Among(Flat(rounds), |s.at|)
    ensures Work(Trace(s, Flat(rounds))[|Flat(rounds)|].at) == 0
    decreases |rounds|
  {
    hide Inv, Next, Trace, Work, Among;
    FlatAmong(rounds, |s.at|);
    if rounds == [] {
    } else if Work(s.at) == 0 {
      TraceTail(s, Flat(rounds), 0);
    } else {
      RoundWorks(s, rounds[0]);
      FlatAmong(rounds[1..], |s.at|);
      TraceAppend(s, rounds[0], Flat(rounds[1..]));
      RoundsFinish(Trace(s, rounds[0])[|rounds[0]|], rounds[1..]);
    }
  }

  // Somebody on the way to eating who ends up thinking ate in between.
  lemma {:induction false} AteOnTheWay(s: Table, turns: seq<nat>, i: nat, m: nat) returns (k: nat)
    requires Inv(s) && Among(turns, |s.at|) && i < |s.at| && m <= |turns|
    requires Rank(s.at[i]) >= 3 && Rank(Trace(s, turns)[m].at[i]) <= 3
    ensures k <= m && Trace(s, turns)[k].at[i].Eating?
  {
    var t := Trace(s, turns);
    if t[m].at[i].Eating? {
      k := m;
    } else {
      assert t[m] == Turn(t[m - 1], turns[m - 1]);
      k := AteOnTheWay(s, turns, i, m - 1);
    }
  }

  // Main result. If from some state of a run on no thinker becomes hungry, then
  // after as many rounds as there is work in that state (at most five for each
  // philosopher), whatever the order of the turns in a round, everybody thinks,
  // no lock file is left, and each philosopher who was hungry has eaten.
  lemma HungryEat(t: seq<Table>, n: nat, rounds: seq<seq<nat>>, i: nat)
    requires Run(t, n) && n >= 2 && i < n && |t[|t| - 1].at| == n
    requires Rounds(rounds, n) && |rounds| >= Work(t[|t| - 1].at)
    ensures Inv(t[|t| - 1]) && Among(Flat(rounds), n)
    ensures var end := Trace(t[|t| - 1], Flat(rounds))[|Flat(rounds)|];
      forall j :: 0 <= j < n ==> end.at[j].Thinking? && !end.file[j]
    ensures var s := t[|t| - 1];
      var after := Trace(s, Flat(rounds));
      s.at[i].First? || s.at[i].Second? ==> exists k :: 0 <= k < |after| && after[k].at[i].Eating?
  {
    RunInv(t, n);
    var s := t[|t| - 1];
    RoundsFinish(s, rounds);
    var turns := Flat(rounds);
    var after := Trace(s, turns);
    var end := after[|turns|];
    NoWork(end.at);
    forall f | 0 <= f < n
      ensures !end.file[f]
    {
      assert end.file[f] <==> Held(end, f);
    }
    if s.at[i].First? || s.at[i].Second? {
      var k := AteOnTheWay(s, turns, i, |turns|);
      assert after[k].at[i].Eating?;
    }
  }

  lemma {:induction false} WorkBound(ps: seq<Place>)
    ensures Work(ps) <= 5 * |ps|
  {
    if ps != [] {
      WorkBound(ps[..|ps| - 1]);
    }
  }
}

// The directory of lock files and the calls on it, changed in place.
module LockFiles {
  import opened Philosophers

  class Forks {
    var file: array<bool>
    var at: array<Place>

    ghost predicate Valid()
      reads this
    {
      file.Length == at.Length
    }

    ghost function State(): Table
      reads this, file, at
    {
      Table(file[..], at[..])
    }

    // main: initlock() on every fork, whatever files were left behind, and then
    // the philosophers, who think first.
    constructor (stale: array<bool>)
      modifies stale
      ensures Valid() && file == stale && fresh(at) && State() == Init(stale.Length)
    {
      file := stale;
      at := new Place[stale.Length](_ => Thinking);
      new;
      InitLocks();
    }

    method InitLocks()
      requires Valid()
      modifies file
      ensures State().file == Init(file.Length).file && State().at == old(State().at)
    {
      var i := 0;
      while i < file.Length
        invariant i <= file.Length
        invariant forall k :: 0 <= k < i ==> !file[k]
        modifies file
      {
        file[i] := false;
        i := i + 1;
      }
    }

    // One pass of the loop in lock().
    method TryLock(f: nat) returns (made: bool)
      requires Valid() && f < file.Length
      modifies file
      ensures made == !old(file[f])
      ensures file[..] == old(file[..])[f := true]
    {
      made := !file[f];
      if made {
        file[f] := true;
      }
    }

    method Unlock(f: nat)
      requires Valid() && f < file.Length
      modifies file
      ensures file[..] == old(file[..])[f := false]
    {
      file[f] := false;
    }

    // Philosopher i's next call in takeFork, eating or putFork.
    method Call(i: nat)
      requires Valid() && i < at.Length
      modifies file, at
      ensures Valid() && State() == Next(old(State()), i)
    {
      var n := at.Length;
      match at[i]
      case Thinking => at[i] := First;
      case First =>
        var made := TryLock(if i == n - 1 then 0 else i);
        if made {
          at[i] := Second;
        }
      case Second =>
        var made := TryLock(if i == n - 1 then i else i + 1);
        if made {
          at[i] := Eating;
        }
      case Eating => at[i] := Drop1;
      case Drop1 =>
        Unlock(if i == n - 1 then 0 else i);
        at[i] := Drop2;
      case Drop2 =>
        Unlock(if i == n - 1 then i else i + 1);
        at[i] := Thinking;
    }
  }
}
