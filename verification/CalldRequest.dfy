// apue.2e/calld/request.c: finding a Systems line to try for a client, resumed
// after the last one tried; and the clients of the server over whole runs.
module CalldScan {
  import opened CalldLock

  datatype Sys = Sys(name: string, typ: string, class_: string)
  datatype Dev = Dev(typ: string, line: string, class_: string)

  // The entries of the Systems and Devices files.
  datatype Files = Files(systems: seq<Sys>, devices: seq<Dev>)

  // errmsg.
  datatype Err = NoErr | NotFound | NoDevice | LockedBy(line: string, pid: int) | Unable

  // dev_find: the first device of the type and class, or the length.
  function DevFind(devices: seq<Dev>, s: Sys): (k: nat)
    ensures k <= |devices|
    ensures k < |devices| ==> devices[k].typ == s.typ && devices[k].class_ == s.class_
    ensures forall i :: 0 <= i < k ==> devices[i].typ != s.typ || devices[i].class_ != s.class_
  {
    if devices == [] then 0
    else if s.typ == devices[0].typ && s.class_ == devices[0].class_ then 0
    else 1 + DevFind(devices[1..], s)
  }

  // What the client asks for: the system, and a speed if it named one.
  datatype Ask = Ask(name: string, speed: string)

  predicate Matches(s: Sys, a: Ask) { s.name == a.name && (a.speed == "" || a.speed == s.class_) }

  datatype Verdict = Start(at: nat, line: string) | Without(at: nat) | AtEnd

  // Where the search ends, the lock table then, the matches met, and errmsg.
  datatype Scan = Scan(verdict: Verdict, table: seq<Lock>, found: nat, err: Err)

  // The search from entry i on, given how it stands.
  function ScanFrom(f: Files, a: Ask, i: nat, t: seq<Lock>, found: nat, err: Err): Scan
    requires i <= |f.systems|
    decreases |f.systems| - i
  {
    if i == |f.systems| then Scan(AtEnd, t, found, err)
    else
      var s := f.systems[i];
      if !Matches(s, a) then ScanFrom(f, a, i + 1, t, found, err)
      else
        var d := DevFind(f.devices, s);
        if d == |f.devices| then Scan(Without(i), t, found + 1, NoDevice)
        else
          var line := f.devices[d].line;
          var pid := Owner(t, line);
          if pid != 0 then ScanFrom(f, a, i + 1, Known(t, line), found + 1, LockedBy(line, pid))
          else Scan(Start(i, line), Known(t, line), found + 1, err)
  }

  // ---------- what the search means ----------

  // Entry i is of no use for the time being: another system or another speed
  // than the one asked for, if one was, or a device that somebody has.
  ghost predicate Passed(f: Files, a: Ask, i: nat, t: seq<Lock>)
    requires i < |f.systems|
  {
    var s := f.systems[i];
    s.name != a.name || (a.speed != "" && s.class_ != a.speed) || TakenAt(f, i, t)
  }

  // The entry's device, the first of its type and class, is somebody's.
  ghost predicate TakenAt(f: Files, i: nat, t: seq<Lock>)
    requires i < |f.systems|
  {
    var d := DevFind(f.devices, f.systems[i]);
    d < |f.devices| && Owner(t, f.devices[d].line) != 0
  }

  ghost predicate PassedAll(f: Files, a: Ask, from: nat, to: nat, t: seq<Lock>)
    requires to <= |f.systems|
  {
    forall i: nat :: from <= i < to ==> Passed(f, a, i, t)
  }

  function MatchCount(f: Files, a: Ask, from: nat, to: nat): nat
    requires from <= to <= |f.systems|
    decreases |f.systems| - from
  {
    if from == to then 0 else (if Matches(f.systems[from], a) then 1 else 0) + MatchCount(f, a, from + 1, to)
  }

  // Of the matching entries before to, entry k is the last, and err tells of its
  // device.
  ghost predicate LastTaken(f: Files, a: Ask, k: nat, to: nat, t: seq<Lock>, err: Err) {
    && k < to <= |f.systems| && Matches(f.systems[k], a) && TakenAt(f, k, t)
    && (forall j: nat :: k < j < to ==> !Matches(f.systems[j], a))
    && var line := f.devices[DevFind(f.devices, f.systems[k])].line;
       err == LockedBy(line, Owner(t, line))
  }

  // What errmsg is after the entries from from to to have been passed, as it was
  // if none of them matches.
  ghost predicate ErrAfter(f: Files, a: Ask, from: nat, to: nat, t: seq<Lock>, was: Err, err: Err)
    requires from <= to <= |f.systems|
  {
    if MatchCount(f, a, from, to) == 0 then err == was
    else exists k: nat :: from <= k && LastTaken(f, a, k, to, t, err)
  }

  ghost predicate SameOwners(t: seq<Lock>, u: seq<Lock>) { forall l :: Owner(u, l) == Owner(t, l) }

  lemma PassedSame(f: Files, a: Ask, from: nat, to: nat, t: seq<Lock>, u: seq<Lock>)
    requires to <= |f.systems| && SameOwners(t, u)
    ensures PassedAll(f, a, from, to, u) <==> PassedAll(f, a, from, to, t)
  {
    forall i: nat | from <= i < to
      ensures Passed(f, a, i, u) <==> Passed(f, a, i, t)
    {}
  }

  // The search from entry i on stopped at the first matching entry whose device
  // is free or does not exist at all, having passed over every matching entry
  // before it because its device was locked.
  ghost predicate Meaning(f: Files, a: Ask, i: nat, t: seq<Lock>, found: nat, err: Err, r: Scan)
    requires i <= |f.systems|
  {
    match r.verdict
    case Start(at, line) =>
      && i <= at < |f.systems| && Matches(f.systems[at], a) && PassedAll(f, a, i, at, t)
      && DevFind(f.devices, f.systems[at]) < |f.devices|
      && line == f.devices[DevFind(f.devices, f.systems[at])].line && Owner(t, line) == 0
      && r.found == found + MatchCount(f, a, i, at + 1) && ErrAfter(f, a, i, at, t, err, r.err)
    case Without(at) =>
      && i <= at < |f.systems| && Matches(f.systems[at], a) && PassedAll(f, a, i, at, t)
      && DevFind(f.devices, f.systems[at]) == |f.devices|
      && r.found == found + MatchCount(f, a, i, at + 1) && r.err == NoDevice
    case AtEnd =>
      && PassedAll(f, a, i, |f.systems|, t)
      && r.found == found + MatchCount(f, a, i, |f.systems|) && ErrAfter(f, a, i, |f.systems|, t, err, r.err)
  }

  // Main result about one search: it means that, and it changes no owner.
  lemma {:induction false} ScanMeans(f: Files, a: Ask, i: nat, t: seq<Lock>, found: nat, err: Err)
    requires Unique(t) && i <= |f.systems|
    ensures var r := ScanFrom(f, a, i, t, found, err);
      Unique(r.table) && SameOwners(t, r.table) && Meaning(f, a, i, t, found, err, r)
    decreases |f.systems| - i
  {
    hide Owner, Unique, Known, LastTaken;
    if i < |f.systems| {
      assert MatchCount(f, a, i + 1, i + 1) == 0 && MatchCount(f, a, i, i) == 0;
      var s := f.systems[i];
      var d := DevFind(f.devices, s);
      if !Matches(s, a) {
        ScanMeans(f, a, i + 1, t, found, err);
        OneMore(f, a, i, t, t, found, found, err, err, ScanFrom(f, a, i, t, found, err));
      } else if d < |f.devices| {
        var line := f.devices[d].line;
        KnownOwner(t, line);
        if Owner(t, line) != 0 {
          TakenNow(f, a, i, t);
          ScanMeans(f, a, i + 1, Known(t, line), found + 1, LockedBy(line, Owner(t, line)));
          OneMore(f, a, i, t, Known(t, line), found, found + 1, err, LockedBy(line, Owner(t, line)),
            ScanFrom(f, a, i, t, found, err));
        }
      }
    }
  }

  lemma OneMore(f: Files, a: Ask, i: nat, t: seq<Lock>, u: seq<Lock>, found: nat, found1: nat, err: Err, err1: Err,
      r: Scan)
    requires i < |f.systems| && Passed(f, a, i, t) && SameOwners(t, u)
    requires if Matches(f.systems[i], a) then found1 == found + 1 && LastTaken(f, a, i, i + 1, t, err1)
      else found1 == found && err1 == err
    requires Meaning(f, a, i + 1, u, found1, err1, r)
    ensures Meaning(f, a, i, t, found, err, r)
  {
    hide Owner, DevFind, Matches, ErrAfter, LastTaken;
    var to := if r.verdict.AtEnd? then |f.systems| else r.verdict.at;
    PassedSame(f, a, i + 1, to, t, u);
    if !r.verdict.Without? {
      OneMoreErr(f, a, i, to, t, u, err, err1, r.err);
    }
  }

  lemma OneMoreErr(f: Files, a: Ask, i: nat, to: nat, t: seq<Lock>, u: seq<Lock>, err: Err, err1: Err, e: Err)
    requires i < to <= |f.systems| && SameOwners(t, u) && ErrAfter(f, a, i + 1, to, u, err1, e)
    requires if Matches(f.systems[i], a) then LastTaken(f, a, i, i + 1, t, err1) else err1 == err
    ensures ErrAfter(f, a, i, to, t, err, e)
  {
    hide Owner, Matches;
    NoMatches(f, a, i + 1, to);
    if MatchCount(f, a, i + 1, to) == 0 {
      assert Matches(f.systems[i], a) ==> LastTaken(f, a, i, to, t, e);
    } else {
      var k: nat :| i + 1 <= k && LastTaken(f, a, k, to, u, e);
      assert TakenAt(f, k, t) && LastTaken(f, a, k, to, t, e);
    }
  }

  lemma {:induction false} NoMatches(f: Files, a: Ask, from: nat, to: nat)
    requires from <= to <= |f.systems|
    ensures MatchCount(f, a, from, to) == 0 <==> (forall j: nat :: from <= j < to ==> !Matches(f.systems[j], a))
    decreases |f.systems| - from
  {
    if from < to {
      NoMatches(f, a, from + 1, to);
    }
  }

  // ---------- one request ----------

  // A client: pid is its last child's. sysftell counts the Systems entries that
  // it is past, or is -1.
  datatype ClientState = ClientState(ask: Ask, sysftell: int, found: nat, pid: int)

  datatype Reply = Reply(ok: bool, line: string, client: ClientState, table: seq<Lock>, err: Err)

  // request(), the child being pid if there is one.
  function Request(f: Files, t: seq<Lock>, c: ClientState, pid: int): Reply
    requires 0 <= c.sysftell <= |f.systems|
  {
    var r := ScanFrom(f, c.ask, c.sysftell, t, c.found, NoErr);
    match r.verdict
    case Start(at, line) =>
      Reply(true, line, c.(sysftell := at + 1, found := r.found, pid := pid), Set(r.table, line, pid), r.err)
    case Without(at) =>
      Reply(false, "", c.(sysftell := at + 1, found := r.found), r.table, r.err)
    case AtEnd =>
      Reply(false, "", c.(sysftell := -1, found := r.found), r.table,
            if r.found == 0 then NotFound else if r.err == NoErr then Unable else r.err)
  }

  // Main result. A request goes on from the Systems entry after the last one
  // tried. A child is started for the first entry from there on whose name is
  // the one asked for, whose speed is the one asked for if one was, and whose
  // device, the first of its type and class, nobody has; that entry is then the
  // last one tried, all matching entries up to it are counted, and the only
  // owner that changes is that of its line. Every entry before it is another
  // system's or another speed's or has a device that somebody has. A refusal
  // changes no owner: it is for an entry that would be the next but has no
  // device, or because all entries have been passed.
  lemma RequestMeans(f: Files, t: seq<Lock>, c: ClientState, pid: int)
    requires Unique(t) && 0 <= c.sysftell <= |f.systems|
    ensures var r := Request(f, t, c, pid);
      Unique(r.table) && r.client.ask == c.ask && -1 <= r.client.sysftell <= |f.systems|
    ensures var r := Request(f, t, c, pid);
      r.ok ==>
        && c.sysftell < r.client.sysftell && r.client.pid == pid
        && Owner(t, r.line) == 0 && (forall l :: Owner(r.table, l) == if l == r.line then pid else Owner(t, l))
        && var at := r.client.sysftell - 1;
           var s := f.systems[at];
           && s.name == c.ask.name && (c.ask.speed == "" || c.ask.speed == s.class_)
           && PassedAll(f, c.ask, c.sysftell, at, t)
           && DevFind(f.devices, s) < |f.devices| && r.line == f.devices[DevFind(f.devices, s)].line
           && r.client.found == c.found + MatchCount(f, c.ask, c.sysftell, at + 1)
           && ErrAfter(f, c.ask, c.sysftell, at, t, NoErr, r.err)
    ensures var r := Request(f, t, c, pid);
      !r.ok ==>
        && SameOwners(t, r.table) && r.client.pid == c.pid
        && if r.client.sysftell == -1 then
             && PassedAll(f, c.ask, c.sysftell, |f.systems|, t)
             && r.client.found == c.found + MatchCount(f, c.ask, c.sysftell, |f.systems|)
             && (r.err == NotFound <==> r.client.found == 0)
             && (r.client.found > 0 && MatchCount(f, c.ask, c.sysftell, |f.systems|) == 0 ==> r.err == Unable)
             && (MatchCount(f, c.ask, c.sysftell, |f.systems|) > 0 ==>
                   ErrAfter(f, c.ask, c.sysftell, |f.systems|, t, NoErr, r.err))
           else
             && c.sysftell < r.client.sysftell && MissingAt(f, c.ask, c.sysftell, r.client.sysftell - 1, t)
             && r.client.found == c.found + MatchCount(f, c.ask, c.sysftell, r.client.sysftell) && r.err == NoDevice
  {
    hide Owner, DevFind, Known, Set, Unique, LastTaken;
    var s := ScanFrom(f, c.ask, c.sysftell, t, c.found, NoErr);
    ScanMeans(f, c.ask, c.sysftell, t, c.found, NoErr);
    if s.verdict.Start? {
      SetOwner(s.table, s.verdict.line, pid);
    } else if s.verdict.AtEnd? && MatchCount(f, c.ask, c.sysftell, |f.systems|) > 0 {
      assert s.err.LockedBy? by {
        var k: nat :| c.sysftell <= k && LastTaken(f, c.ask, k, |f.systems|, t, s.err);
        TakenErr(f, c.ask, k, |f.systems|, t, s.err);
      }
    }
  }

  lemma TakenNow(f: Files, a: Ask, i: nat, t: seq<Lock>)
    requires i < |f.systems| && Matches(f.systems[i], a) && TakenAt(f, i, t)
    ensures var line := f.devices[DevFind(f.devices, f.systems[i])].line;
      LastTaken(f, a, i, i + 1, t, LockedBy(line, Owner(t, line)))
  {}

  lemma TakenErr(f: Files, a: Ask, k: nat, to: nat, t: seq<Lock>, err: Err)
    requires LastTaken(f, a, k, to, t, err)
    ensures err.LockedBy?
  {}

  // Entry k is where the search ends for want of a device.
  ghost predicate MissingAt(f: Files, a: Ask, from: nat, k: nat, t: seq<Lock>)
    requires k < |f.systems|
  {
    && from <= k && PassedAll(f, a, from, k, t)
    && f.systems[k].name == a.name && (a.speed == "" || a.speed == f.systems[k].class_)
    && DevFind(f.devices, f.systems[k]) == |f.devices|
  }

  // The comment at the last return says that sysftell is then -1. It is not if
  // and only if the search ended for want of a device.
  lemma SysftellAtRefusal(f: Files, t: seq<Lock>, c: ClientState, pid: int)
    requires Unique(t) && 0 <= c.sysftell <= |f.systems|
    ensures var r := Request(f, t, c, pid);
      !r.ok && r.client.sysftell != -1 <==> exists k: nat :: k < |f.systems| && MissingAt(f, c.ask, c.sysftell, k, t)
  {
    ScanMeans(f, c.ask, c.sysftell, t, c.found, NoErr);
    var v := ScanFrom(f, c.ask, c.sysftell, t, c.found, NoErr).verdict;
    if v.Without? {
      assert MissingAt(f, c.ask, c.sysftell, v.at, t);
    } else {
      forall k: nat | k < |f.systems|
        ensures !MissingAt(f, c.ask, c.sysftell, k, t)
      {
        assert c.sysftell <= k < (if v.Start? then v.at else |f.systems|) ==> Passed(f, c.ask, k, t);
        assert v.Start? && v.at < k ==> !Passed(f, c.ask, v.at, t);
      }
    }
  }

  // The failing input: two entries for the system, the first without a device.
  // The request is refused with sysftell at 1, and the second entry, whose
  // device is free, is not tried.
  lemma DevicelessEntry() returns (f: Files, c: ClientState, r: Reply)
    ensures |f.systems| == 2 && c.sysftell == 0 && r == Request(f, [], c, 7)
    ensures Matches(f.systems[1], c.ask) && DevFind(f.devices, f.systems[1]) < |f.devices|
    ensures !r.ok && r.client.sysftell == 1 && r.err == NoDevice && r.table == []
  {
    f := Files([Sys("host", "ACU", "9600"), Sys("host", "ACU", "1200")], [Dev("ACU", "cua0", "1200")]);
    c := ClientState(Ask("host", ""), 0, 0, 0);
    r := Request(f, [], c, 7);
    assert f.devices[1..] == [];
    assert DevFind(f.devices, f.systems[0]) == 1 && DevFind(f.devices, f.systems[1]) == 0;
  }
}

// The clients of the server: who has which line, over whole runs.
module CalldRuns {
  import opened CalldLock
  import opened CalldScan

  // A place in client[]: nobody, a client that has not asked yet, one whose
  // child dials on the line, one whose child has connected it.
  datatype Phase = Empty | Idle | Dialing(line: string) | Served(line: string)

  // starts counts the children started for the request in hand; it is history.
  datatype Slot = Slot(phase: Phase, c: ClientState, starts: nat)

  datatype Server = Server(table: seq<Lock>, slots: seq<Slot>)

  // What the loop of the server hears: a connection, a request, the end of a
  // child, a close. pid is that of the child, should one be started.
  datatype Event = Connect | AskFor(ask: Ask, pid: int) | ChildOk | ChildFailed(pid: int) | Close

  predicate Busy(p: Phase) { p.Dialing? || p.Served? }

  predicate Allowed(f: Files, s: Server, k: nat, e: Event) {
    && k < |s.slots|
    && var slot := s.slots[k];
       match e
       case Connect => slot.phase.Empty?
       case AskFor(_, pid) => slot.phase.Idle? && pid > 0
       case ChildOk => slot.phase.Dialing?
       case ChildFailed(pid) => slot.phase.Dialing? && pid > 0 && 0 <= slot.c.sysftell <= |f.systems|
       case Close => !slot.phase.Empty?
  }

  // Before lock_rel: it will find the client's own line first, or none. A client
  // entry remembers the number of its last child, or that of a client that had
  // the place before, or whatever malloc left; others may remember it too.
  predicate FreesOwn(s: Server, k: nat)
    requires k < |s.slots|
  {
    var pid := s.slots[k].c.pid;
    var m := FindPid(s.table, pid);
    pid == 0 || m == |s.table| || (Busy(s.slots[k].phase) && s.table[m].line == s.slots[k].phase.line)
  }

  // Only a close and the failure of a child call lock_rel.
  predicate Safe(s: Server, k: nat, e: Event)
    requires k < |s.slots|
  {
    e.Close? || e.ChildFailed? ==> FreesOwn(s, k)
  }

  // What request() makes of a client, who is sent away if it fails.
  function Try(f: Files, t: seq<Lock>, slots: seq<Slot>, k: nat, c: ClientState, pid: int, starts: nat): Server
    requires k < |slots| && 0 <= c.sysftell <= |f.systems|
  {
    var r := Request(f, t, c, pid);
    var slot := if r.ok then Slot(Dialing(r.line), r.client, starts + 1) else Slot(Empty, r.client, starts);
    Server(r.table, slots[k := slot])
  }

  function Next(f: Files, s: Server, k: nat, e: Event): Server
    requires Allowed(f, s, k, e)
  {
    var slot := s.slots[k];
    match e
    case Connect => s.(slots := s.slots[k := slot.(phase := Idle)])
    case AskFor(ask, pid) =>
      Try(f, s.table, s.slots, k, slot.c.(ask := ask, sysftell := 0, found := 0), pid, 0)
    case ChildOk => s.(slots := s.slots[k := slot.(phase := Served(slot.phase.line))])
    case ChildFailed(pid) => Try(f, Rel(s.table, slot.c.pid), s.slots, k, slot.c, pid, slot.starts)
    case Close => Server(Rel(s.table, slot.c.pid), s.slots[k := slot.(phase := Empty)])
  }

  predicate NobodyElse(s: Server, k: nat, line: string) {
    forall j :: 0 <= j < |s.slots| && j != k && Busy(s.slots[j].phase) ==> s.slots[j].phase.line != line
  }

  // A client that has a line has it alone and under its process.
  ghost predicate SlotOk(f: Files, s: Server, k: nat)
    requires k < |s.slots|
  {
    var slot := s.slots[k];
    Busy(slot.phase) ==>
      && slot.c.pid > 0 && Owner(s.table, slot.phase.line) == slot.c.pid
      && slot.starts <= slot.c.sysftell <= |f.systems|
      && NobodyElse(s, k, slot.phase.line)
  }

  ghost predicate Has(s: Server, k: nat, line: string) {
    k < |s.slots| && Busy(s.slots[k].phase) && s.slots[k].phase.line == line
  }

  ghost predicate LineOk(s: Server, line: string) { Owner(s.table, line) != 0 ==> exists k :: Has(s, k, line) }

  ghost predicate Inv(f: Files, s: Server) {
    && Unique(s.table)
    && (forall k :: 0 <= k < |s.slots| ==> SlotOk(f, s, k))
    && (forall line :: LineOk(s, line))
  }

  // The table once the line of slot k, if it has one, is free again.
  ghost predicate Released(f: Files, s: Server, k: nat, t: seq<Lock>)
    requires k < |s.slots|
  {
    && Unique(t)
    && forall line :: Owner(t, line) == if Has(s, k, line) then 0 else Owner(s.table, line)
  }

  lemma RelReleases(f: Files, s: Server, k: nat)
    requires Inv(f, s) && k < |s.slots| && FreesOwn(s, k)
    ensures Released(f, s, k, Rel(s.table, s.slots[k].c.pid))
  {
    var t, pid := s.table, s.slots[k].c.pid;
    assert SlotOk(f, s, k);
    var m := FindPid(t, pid);
    if pid == 0 {
      assert m < |t| ==> t[m := t[m].(pid := 0)] == t;
    } else {
      RelOwner(t, pid);
      if m < |t| {
        FindAt(t, m);
      }
      forall line
        ensures Find(t, line) < |t| && Find(t, line) == m <==> Has(s, k, line)
      {}
    }
  }

  // Whatever becomes of slot k, the others keep what they have.
  lemma InvReplace(f: Files, s: Server, k: nat, t: seq<Lock>, u: seq<Lock>, slot: Slot, line: string)
    requires Inv(f, s) && k < |s.slots| && Released(f, s, k, t) && Unique(u)
    requires if Busy(slot.phase)
      then
        && slot.phase.line == line && Owner(t, line) == 0 && slot.c.pid > 0
        && slot.starts <= slot.c.sysftell <= |f.systems|
        && forall l :: Owner(u, l) == if l == line then slot.c.pid else Owner(t, l)
      else SameOwners(t, u) && slot.phase.Empty?
    ensures Inv(f, Server(u, s.slots[k := slot]))
  {
    var s' := Server(u, s.slots[k := slot]);
    assert SlotOk(f, s, k);
    forall j | 0 <= j < |s.slots| && j != k && Busy(s.slots[j].phase)
      ensures Owner(t, s.slots[j].phase.line) == s.slots[j].c.pid > 0
    {
      assert SlotOk(f, s, j);
      assert !Has(s, k, s.slots[j].phase.line);
    }
    forall j | 0 <= j < |s.slots|
      ensures SlotOk(f, s', j)
    {
      assert SlotOk(f, s, j);
    }
    forall l
      ensures LineOk(s', l)
    {
      assert LineOk(s, l);
      if Owner(u, l) != 0 {
        if Busy(slot.phase) && l == line {
          assert Has(s', k, l);
        } else {
          var j: nat :| Has(s, j, l);
          assert Has(s', j, l);
        }
      }
    }
  }

  lemma InvTry(f: Files, s: Server, k: nat, t: seq<Lock>, c: ClientState, pid: int, starts: nat)
    requires Inv(f, s) && k < |s.slots| && Released(f, s, k, t) && pid > 0
    requires 0 <= c.sysftell <= |f.systems| && starts <= c.sysftell
    ensures Inv(f, Try(f, t, s.slots, k, c, pid, starts))
  {
    hide Inv, Released, Unique, Owner;
    var r := Request(f, t, c, pid);
    ReleasedUnique(f, s, k, t);
    RequestMeans(f, t, c, pid);
    var s' := Try(f, t, s.slots, k, c, pid, starts);
    InvReplace(f, s, k, t, r.table, s'.slots[k], r.line);
  }

  lemma ReleasedUnique(f: Files, s: Server, k: nat, t: seq<Lock>)
    requires k < |s.slots| && Released(f, s, k, t)
    ensures Unique(t)
  {}

  // Main result, step by step: what is wanted of the lines is kept exactly where
  // lock_rel, if it is called, does not find another client's line first. What
  // numbers fork gives has no part in it.
  lemma InvNext(f: Files, s: Server, k: nat, e: Event)
    requires Inv(f, s) && Allowed(f, s, k, e)
    ensures Inv(f, Next(f, s, k, e)) <==> Safe(s, k, e)
  {
    if Safe(s, k, e) {
      InvKept(f, s, k, e);
    } else {
      InvBroken(f, s, k, e);
    }
  }

  lemma InvKept(f: Files, s: Server, k: nat, e: Event)
    requires Inv(f, s) && Allowed(f, s, k, e) && Safe(s, k, e)
    ensures Inv(f, Next(f, s, k, e))
  {
    var slot := s.slots[k];
    match e
    case Connect => InvPhase(f, s, k, Idle);
    case ChildOk => InvPhase(f, s, k, Served(slot.phase.line));
    case AskFor(ask, pid) =>
      InvTry(f, s, k, s.table, slot.c.(ask := ask, sysftell := 0, found := 0), pid, 0);
    case ChildFailed(pid) =>
      RelReleases(f, s, k);
      assert SlotOk(f, s, k);
      InvTry(f, s, k, Rel(s.table, slot.c.pid), slot.c, pid, slot.starts);
    case Close =>
      RelReleases(f, s, k);
      var t := Rel(s.table, slot.c.pid);
      InvReplace(f, s, k, t, t, slot.(phase := Empty), "");
  }

  // lock_rel frees the line of another client, which that client goes on using:
  // nobody is its owner then, or a new child of this client is.
  lemma InvBroken(f: Files, s: Server, k: nat, e: Event)
    requires Inv(f, s) && Allowed(f, s, k, e) && !Safe(s, k, e)
    ensures !Inv(f, Next(f, s, k, e))
  {
    hide Inv, SlotOk, Has, Unique, Owner, Rel, Request, FreesOwn, Released;
    var s' := Next(f, s, k, e);
    var t := Rel(s.table, s.slots[k].c.pid);
    var j := LosesLine(f, s, k);
    if e.ChildFailed? {
      RequestMeans(f, t, s.slots[k].c, e.pid);
    }
    Robbed(f, s', j, k);
  }

  // The client whose line is freed in place of slot k's.
  lemma LosesLine(f: Files, s: Server, k: nat) returns (j: nat)
    requires Inv(f, s) && k < |s.slots| && !FreesOwn(s, k)
    ensures Unique(Rel(s.table, s.slots[k].c.pid))
    ensures j < |s.slots| && j != k && Busy(s.slots[j].phase)
    ensures Owner(Rel(s.table, s.slots[k].c.pid), s.slots[j].phase.line) == 0
  {
    var pid := s.slots[k].c.pid;
    var m := FindPid(s.table, pid);
    var line := s.table[m].line;
    FindAt(s.table, m);
    RelOwner(s.table, pid);
    assert LineOk(s, line);
    j :| Has(s, j, line);
  }

  lemma Robbed(f: Files, s: Server, j: nat, k: nat)
    requires j < |s.slots| && k < |s.slots| && j != k && Busy(s.slots[j].phase)
    requires Owner(s.table, s.slots[j].phase.line) == 0
      || (Busy(s.slots[k].phase) && s.slots[k].phase.line == s.slots[j].phase.line)
    ensures !Inv(f, s)
  {
    assert !SlotOk(f, s, j);
  }

  // Nothing but the phase changes, and the line not at all.
  lemma InvPhase(f: Files, s: Server, k: nat, p: Phase)
    requires Inv(f, s) && k < |s.slots| && Busy(p) == Busy(s.slots[k].phase) && !p.Empty?
    requires Busy(p) ==> p.line == s.slots[k].phase.line
    ensures Inv(f, s.(slots := s.slots[k := s.slots[k].(phase := p)]))
  {
    var s' := s.(slots := s.slots[k := s.slots[k].(phase := p)]);
    forall j | 0 <= j < |s.slots|
      ensures SlotOk(f, s', j)
    {
      assert SlotOk(f, s, j);
    }
    forall l
      ensures LineOk(s', l)
    {
      assert LineOk(s, l);
      if Owner(s.table, l) != 0 {
        var j: nat :| Has(s, j, l);
        assert Has(s', j, l);
      }
    }
  }

  // ---------- whole runs ----------

  // Before anybody connects; what client[] holds besides, malloc has left there.
  predicate Started(s: Server) {
    s.table == [] && forall k :: 0 <= k < |s.slots| ==> s.slots[k].phase.Empty?
  }

  ghost predicate Step(f: Files, s: Server, s': Server) {
    exists k: nat, e :: Allowed(f, s, k, e) && s' == Next(f, s, k, e)
  }

  ghost predicate SafeStep(f: Files, s: Server, s': Server) {
    exists k: nat, e :: Allowed(f, s, k, e) && Safe(s, k, e) && s' == Next(f, s, k, e)
  }

  // Whatever can happen.
  ghost predicate AnyRun(f: Files, t: seq<Server>) {
    && t != [] && Started(t[0])
    && forall k :: 0 <= k < |t| - 1 ==> Step(f, t[k], t[k + 1])
  }

  // ... where every lock_rel finds its own line first, or none.
  ghost predicate Run(f: Files, t: seq<Server>) {
    && t != [] && Started(t[0])
    && forall k :: 0 <= k < |t| - 1 ==> SafeStep(f, t[k], t[k + 1])
  }

  lemma {:induction false} RunInv(f: Files, t: seq<Server>)
    requires Run(f, t)
    ensures Inv(f, t[|t| - 1])
  {
    if |t| > 1 {
      var t0 := t[..|t| - 1];
      RunInv(f, t0);
      var s, s' := t[|t| - 2], t[|t| - 1];
      assert SafeStep(f, s, s') && s == t0[|t0| - 1];
      var k: nat, e :| Allowed(f, s, k, e) && Safe(s, k, e) && s' == Next(f, s, k, e);
      InvNext(f, s, k, e);
    }
  }

  // Main result: no two clients have a line at the same time, a line is locked
  // exactly while a client has it and then under that client's process, and a
  // request has started no more children than Systems has entries.
  lemma LinesExclusive(f: Files, t: seq<Server>, line: string)
    requires Run(f, t)
    ensures var s := t[|t| - 1];
      && (forall j: nat, k: nat :: Has(s, j, line) && Has(s, k, line) ==> j == k)
      && (Owner(s.table, line) != 0 <==> exists k: nat :: Has(s, k, line))
      && (forall k: nat :: Has(s, k, line) ==>
            Owner(s.table, line) == s.slots[k].c.pid && s.slots[k].starts <= |f.systems|)
  {
    RunInv(f, t);
    var s := t[|t| - 1];
    assert LineOk(s, line);
    forall k: nat | Has(s, k, line)
      ensures SlotOk(f, s, k)
    {}
  }

  // Main result: a child is started only on a line that nobody has, for the first
  // matching Systems entry with a free device: from the beginning for a new
  // request, and after a child has failed from the entry behind the one that it
  // tried.
  lemma StartsOnFreeLine(f: Files, t: seq<Server>, k: nat, e: Event)
    requires Run(f, t) && Allowed(f, t[|t| - 1], k, e) && Safe(t[|t| - 1], k, e) && (e.AskFor? || e.ChildFailed?)
    ensures var s, s' := t[|t| - 1], Next(f, t[|t| - 1], k, e);
      s'.slots[k].phase.Dialing? ==>
        && (forall j: nat :: Has(s, j, s'.slots[k].phase.line) ==> j == k && e.ChildFailed?)
        && s'.slots[k].c.sysftell > (if e.AskFor? then 0 else s.slots[k].c.sysftell)
        && Owner(s'.table, s'.slots[k].phase.line) == e.pid
    ensures var s, s' := t[|t| - 1], Next(f, t[|t| - 1], k, e);
      var from, ask := if e.AskFor? then 0 else s.slots[k].c.sysftell, if e.AskFor? then e.ask else s.slots[k].c.ask;
      s'.slots[k].phase.Dialing? ==>
        var at := s'.slots[k].c.sysftell - 1;
        && 0 <= from <= at < |f.systems| && f.systems[at].name == ask.name
        && (ask.speed == "" || ask.speed == f.systems[at].class_)
        && PassedAll(f, ask, from, at, if e.AskFor? then s.table else Rel(s.table, s.slots[k].c.pid))
        && s'.slots[k].c.found == (if e.AskFor? then 0 else s.slots[k].c.found) + MatchCount(f, ask, from, at + 1)
  {
    RunInv(f, t);
    var s := t[|t| - 1];
    var u := if e.AskFor? then s.table else Rel(s.table, s.slots[k].c.pid);
    var c := if e.AskFor? then s.slots[k].c.(ask := e.ask, sysftell := 0, found := 0) else s.slots[k].c;
    if e.ChildFailed? {
      RelReleases(f, s, k);
    }
    RequestMeans(f, u, c, e.pid);
    var line := Next(f, s, k, e).slots[k].phase;
    forall j: nat | line.Dialing? && Has(s, j, line.line)
      ensures j == k && e.ChildFailed?
    {
      assert SlotOk(f, s, j) && SlotOk(f, s, k);
      assert Owner(u, line.line) == 0 && Owner(s.table, line.line) != 0;
    }
  }

  // A client is sent away only when no later entry will do: there is none that
  // matches and is free, or the first that would be next has no device.
  lemma SentAway(f: Files, t: seq<Server>, k: nat, e: Event)
    requires Run(f, t) && Allowed(f, t[|t| - 1], k, e) && Safe(t[|t| - 1], k, e) && (e.AskFor? || e.ChildFailed?)
    ensures var s, s' := t[|t| - 1], Next(f, t[|t| - 1], k, e);
      var from, ask := if e.AskFor? then 0 else s.slots[k].c.sysftell, if e.AskFor? then e.ask else s.slots[k].c.ask;
      var u := if e.AskFor? then s.table else Rel(s.table, s.slots[k].c.pid);
      !s'.slots[k].phase.Dialing? ==>
        && s'.slots[k].phase.Empty? && 0 <= from <= |f.systems|
        && (PassedAll(f, ask, from, |f.systems|, u)
            || exists m: nat :: m < |f.systems| && MissingAt(f, ask, from, m, u))
  {
    hide Owner, DevFind;
    RunInv(f, t);
    var s := t[|t| - 1];
    var u := if e.AskFor? then s.table else Rel(s.table, s.slots[k].c.pid);
    var c := if e.AskFor? then s.slots[k].c.(ask := e.ask, sysftell := 0, found := 0) else s.slots[k].c;
    if e.ChildFailed? {
      RelReleases(f, s, k);
      ReleasedUnique(f, s, k, u);
    }
    RequestMeans(f, u, c, e.pid);
  }

  // ---------- the next entry ----------

  const TWO: Files := Files([Sys("host", "ACU", "9600"), Sys("host", "ACU", "1200")],
    [Dev("ACU", "cua0", "9600"), Dev("ACU", "cua1", "1200")])

  // Two entries for a system, each with a device: the child of a request dials on
  // the first, and when it has failed the next one dials on the second.
  lemma RetryDialsNext(s: Server) returns (s1: Server, s2: Server)
    requires s == Server([], [Slot(Idle, ClientState(Ask("", ""), 0, 0, 0), 0)])
    ensures Allowed(TWO, s, 0, AskFor(Ask("host", ""), 7)) && s1 == Next(TWO, s, 0, AskFor(Ask("host", ""), 7))
    ensures |s1.slots| == 1 && s1.slots[0].phase == Dialing("cua0") && s1.slots[0].c.sysftell == 1
    ensures Allowed(TWO, s1, 0, ChildFailed(9)) && s2 == Next(TWO, s1, 0, ChildFailed(9))
    ensures |s2.slots| == 1 && s2.slots[0].phase == Dialing("cua1") && s2.slots[0].c.sysftell == 2
    ensures s2.table == [Lock("cua0", 0), Lock("cua1", 9)]
  {
    hide Request;
    s1 := Next(TWO, s, 0, AskFor(Ask("host", ""), 7));
    FirstOfTwo();
    assert s1.slots == [Slot(Dialing("cua0"), ClientState(Ask("host", ""), 1, 1, 7), 1)];
    s2 := Next(TWO, s1, 0, ChildFailed(9));
    FreedOfTwo();
    SecondOfTwo();
    assert s2.slots == [Slot(Dialing("cua1"), ClientState(Ask("host", ""), 2, 2, 9), 2)];
  }

  lemma FirstOfTwo()
    ensures Request(TWO, [], ClientState(Ask("host", ""), 0, 0, 0), 7) ==
      Reply(true, "cua0", ClientState(Ask("host", ""), 1, 1, 7), [Lock("cua0", 7)], NoErr)
  {
    assert DevFind(TWO.devices, TWO.systems[0]) == 0;
    assert Known([], "cua0") == [Lock("cua0", 0)] && Known([Lock("cua0", 0)], "cua0") == [Lock("cua0", 0)];
  }

  lemma FreedOfTwo()
    ensures Rel([Lock("cua0", 7)], 7) == [Lock("cua0", 0)]
  {}

  lemma SecondOfTwo()
    ensures Request(TWO, [Lock("cua0", 0)], ClientState(Ask("host", ""), 1, 1, 7), 9) ==
      Reply(true, "cua1", ClientState(Ask("host", ""), 2, 2, 9), [Lock("cua0", 0), Lock("cua1", 9)], NoErr)
  {
    hide Find;
    assert TWO.devices[1..] == [TWO.devices[1]];
    assert DevFind(TWO.devices, TWO.systems[1]) == 1;
    var t := [Lock("cua0", 0)];
    var u := [Lock("cua0", 0), Lock("cua1", 0)];
    assert t[0].line != "cua1" && u[0].line != "cua1" && u[1].line == "cua1";
    assert Find(t, "cua1") == 1 && Find(u, "cua1") == 1;
    assert Known(t, "cua1") == u && Known(u, "cua1") == u;
  }

  // ---------- a number used again ----------

  const ONE: Files := Files([Sys("host", "ACU", "9600")], [Dev("ACU", "cua0", "9600")])

  const ASK := Ask("host", "")

  // Three places of client[], as malloc left them: no number is remembered.
  function THREE(): Server { Server([], seq(3, _ => Slot(Empty, ClientState(Ask("", ""), 0, 0, 0), 0))) }

  lemma Extend(t: seq<Server>, k: nat, e: Event) returns (t': seq<Server>)
    requires t != [] && AnyRun(ONE, t) && Allowed(ONE, t[|t| - 1], k, e)
    ensures t' == t + [Next(ONE, t[|t| - 1], k, e)] && AnyRun(ONE, t')
    ensures Run(ONE, t) && Safe(t[|t| - 1], k, e) ==> Run(ONE, t')
  {
    assert k < |t[|t| - 1].slots|;
    hide Allowed, Next, Safe, Started;
    var s' := Next(ONE, t[|t| - 1], k, e);
    t' := t + [s'];
    assert Step(ONE, t[|t| - 1], s');
    forall j | 0 <= j < |t'| - 1
      ensures Step(ONE, t'[j], t'[j + 1])
    {
      if j < |t| - 1 {
        assert Step(ONE, t[j], t[j + 1]);
      }
    }
    if Run(ONE, t) && Safe(t[|t| - 1], k, e) {
      forall j | 0 <= j < |t'| - 1
        ensures SafeStep(ONE, t'[j], t'[j + 1])
      {
        if j < |t| - 1 {
          assert SafeStep(ONE, t[j], t[j + 1]);
        }
      }
    }
  }

  // With the one line free, a request starts a child on it.
  lemma OneLine(t: seq<Lock>, c: ClientState, pid: int)
    requires Owner(t, "cua0") == 0 && c.ask == ASK && c.sysftell == 0 && c.found == 0
    ensures Request(ONE, t, c, pid) ==
      Reply(true, "cua0", ClientState(ASK, 1, 1, pid), Set(Known(t, "cua0"), "cua0", pid), NoErr)
  {
    assert DevFind(ONE.devices, ONE.systems[0]) == 0;
  }

  function At(line: string, pid: int): seq<Lock> { [Lock(line, pid)] }

  lemma OneEntry(pid: int, pid': int)
    ensures Owner(At("cua0", pid), "cua0") == pid && Known([], "cua0") == At("cua0", 0)
    ensures Known(At("cua0", pid), "cua0") == At("cua0", pid) && Set(At("cua0", pid), "cua0", pid') == At("cua0", pid')
    ensures pid != 0 ==> Rel(At("cua0", pid), pid) == At("cua0", 0)
  {
    assert At("cua0", pid)[1..] == [];
  }

  // The state of the run: the owner of the line, and the three places.
  ghost predicate Is(s: Server, pid: int, a: Phase, apid: int, b: Phase, bpid: int, c: Phase) {
    && s.table == At("cua0", pid) && |s.slots| == 3
    && s.slots[0].phase == a && s.slots[0].c.pid == apid
    && s.slots[1].phase == b && s.slots[1].c.pid == bpid
    && s.slots[2].phase == c && s.slots[2].c.pid == 0
  }

  // A client is served and leaves; its child's number is given to the child of a
  // second; a third takes the place of the first, whose number is still there.
  lemma NumberAgain() returns (t: seq<Server>)
    ensures t != [] && AnyRun(ONE, t) && Run(ONE, t)
    ensures Is(t[|t| - 1], 7, Idle, 7, Dialing("cua0"), 7, Empty)
  {
    hide AnyRun, Run, Request, Owner, Known, Set, Rel, At;
    OneEntry(7, 0);
    OneEntry(0, 7);
    t := [THREE()];
    FirstState();
    t := Extend(t, 0, Connect);
    NoneKnown();
    OneLine([], ClientState(ASK, 0, 0, 0), 7);
    t := Extend(t, 0, AskFor(ASK, 7));
    assert Is(t[|t| - 1], 7, Dialing("cua0"), 7, Empty, 0, Empty);
    t := Extend(t, 0, ChildOk);
    FirstPid(7);
    t := Extend(t, 0, Close);
    assert Is(t[|t| - 1], 0, Empty, 7, Empty, 0, Empty);
    t := Extend(t, 1, Connect);
    OneLine(At("cua0", 0), ClientState(ASK, 0, 0, 0), 7);
    t := Extend(t, 1, AskFor(ASK, 7));
    assert Is(t[|t| - 1], 7, Empty, 7, Dialing("cua0"), 7, Empty);
    t := Extend(t, 0, Connect);
  }

  // The failing input. After such a beginning the third leaves at once: by this
  // close, and by no step before it, the line of the second is free. A fourth
  // client gets it. No two children run under one number at any time.
  lemma RecycledNumber() returns (t: seq<Server>, m: nat)
    ensures m + 3 < |t| && AnyRun(ONE, t) && Run(ONE, t[..m + 1])
    ensures Allowed(ONE, t[m], 0, Close) && !Safe(t[m], 0, Close) && t[m + 1] == Next(ONE, t[m], 0, Close)
    ensures Inv(ONE, t[m]) && !Inv(ONE, t[m + 1])
    ensures Has(t[|t| - 1], 1, "cua0") && Has(t[|t| - 1], 2, "cua0")
  {
    hide AnyRun, Run, Inv, Request, Owner, Known, Set, Rel, At, FindPid;
    OneEntry(7, 0);
    OneEntry(0, 9);
    FirstPid(7);
    t := NumberAgain();
    m := |t| - 1;
    var before := t;
    assert t[..m + 1] == before;
    RunInv(ONE, t);
    InvNext(ONE, t[m], 0, Close);
    t := Extend(t, 0, Close);
    assert Is(t[|t| - 1], 0, Empty, 7, Dialing("cua0"), 7, Empty);
    t := Extend(t, 2, Connect);
    OneLine(At("cua0", 0), ClientState(ASK, 0, 0, 0), 9);
    t := Extend(t, 2, AskFor(ASK, 9));
    assert t[..m + 1] == before && t[m] == before[m];
  }

  lemma FirstPid(pid: int)
    ensures FindPid(At("cua0", pid), pid) == 0 < |At("cua0", pid)| && At("cua0", pid)[0].line == "cua0"
  {}

  lemma FirstState()
    ensures AnyRun(ONE, [THREE()]) && Run(ONE, [THREE()])
  {}

  lemma NoneKnown()
    ensures Owner([], "cua0") == 0
  {}
}

// request() and what it changes in place.
module CalldServer {
  import opened CalldLock
  import opened CalldScan

  class Client {
    const ask: Ask
    var sysftell: int
    var foundone: nat
    var pid: int

    constructor (ask: Ask)
      ensures this.ask == ask && State() == ClientState(ask, 0, 0, 0)
    {
      this.ask, sysftell, foundone, pid := ask, 0, 0, 0;
    }

    ghost function State(): ClientState
      reads this
    {
      ClientState(ask, sysftell, foundone, pid)
    }
  }

  class Calld {
    const f: Files
    const locks: LockTable
    var errmsg: Err

    ghost predicate Valid()
      reads locks, locks.lock
    {
      locks.Valid()
    }

    constructor (f: Files)
      ensures Valid() && this.f == f && locks.Table() == [] && fresh(locks) && fresh(locks.lock)
    {
      this.f := f;
      errmsg := NoErr;
      locks := new LockTable();
    }

    method FindDevice(s: Sys) returns (d: nat)
      modifies this`errmsg
      ensures d == DevFind(f.devices, s)
      ensures errmsg == if d == |f.devices| then NoDevice else old(errmsg)
    {
      d := 0;
      while d < |f.devices|
        invariant d <= |f.devices| && errmsg == old(errmsg)
        invariant forall i :: 0 <= i < d ==> f.devices[i].typ != s.typ || f.devices[i].class_ != s.class_
      {
        if s.typ == f.devices[d].typ && s.class_ == f.devices[d].class_ {
          return;
        }
        d := d + 1;
      }
      errmsg := NoDevice;
    }

    // request(), fork giving pid.
    method Request(c: Client, pid: int) returns (ret: int)
      requires Valid() && 0 <= c.sysftell <= |f.systems|
      modifies this`errmsg, c, locks, locks.lock
      ensures Valid() && (locks.lock == old(locks.lock) || fresh(locks.lock))
      ensures var r := CalldScan.Request(f, old(locks.Table()), old(c.State()), pid);
        && ret == (if r.ok then 0 else -1)
        && c.State() == r.client && locks.Table() == r.table && errmsg == r.err
    {
      hide Unique, Owner, Find, Known, Set, Matches, DevFind;
      ghost var whole := ScanFrom(f, c.ask, c.sysftell, locks.Table(), c.foundone, NoErr);
      errmsg := NoErr;
      var i := c.sysftell;
      while i < |f.systems|
        invariant 0 <= i <= |f.systems| && Valid() && (locks.lock == old(locks.lock) || fresh(locks.lock))
        invariant c.pid == old(c.pid)
        invariant whole == ScanFrom(f, c.ask, i, locks.Table(), c.foundone, errmsg)
        decreases |f.systems| - i
      {
        var s := f.systems[i];
        i := i + 1;
        c.sysftell := i;
        if Matches(s, c.ask) {
          c.foundone := c.foundone + 1;
          var d := FindDevice(s);
          if d == |f.devices| {
            return -1;
          }
          var line := f.devices[d].line;
          var holder := locks.IsLocked(line);
          if holder != 0 {
            errmsg := LockedBy(line, holder);
            continue;
          }
          c.pid := pid;
          locks.LockSet(line, pid);
          return 0;
        }
      }
      c.sysftell := -1;
      if c.foundone == 0 {
        errmsg := NotFound;
      } else if errmsg == NoErr {
        errmsg := Unable;
      }
      ret := -1;
    }
  }
}
