// apue.2e/ipp/printd.c: the queue of print jobs, fed by client threads and
// emptied by the printer thread, as actions on values.
module PrintSpool {

  // The printer thread: about to take joblock and look at the list, asleep on
  // jobwait, or with a job in hand.
  datatype Printer = Idle | Asleep | Printing(job: nat)

  // unsignalled: clients that have queued a job and not yet signalled jobwait.
  // added and done are history: all jobs queued, and those that were printed or
  // cancelled, in order.
  datatype Spool = Spool(queue: seq<nat>, printer: Printer, unsignalled: nat, added: seq<nat>, done: seq<nat>)

  // Wake is a spurious wake-up.
  datatype Action = Add(job: nat) | Signal | Wake | Look | Finish | Cancel | Defer

  predicate Allowed(s: Spool, a: Action) {
    match a
    case Add(_) => true
    case Signal => s.unsignalled > 0
    case Wake => s.printer.Asleep?
    case Look => s.printer.Idle?
    case Finish => s.printer.Printing?
    case Cancel => s.printer.Printing?
    case Defer => s.printer.Printing?
  }

  function Next(s: Spool, a: Action): Spool
    requires Allowed(s, a)
  {
    match a
    case Add(j) => s.(queue := s.queue + [j], added := s.added + [j], unsignalled := s.unsignalled + 1)
    case Signal => s.(unsignalled := s.unsignalled - 1, printer := if s.printer.Asleep? then Idle else s.printer)
    case Wake => s.(printer := Idle)
    case Look =>
      if s.queue == [] then s.(printer := Asleep)
      else s.(printer := Printing(s.queue[0]), queue := s.queue[1..])
    case Finish => s.(printer := Idle, done := s.done + [s.printer.job])
    case Cancel => s.(printer := Idle, done := s.done + [s.printer.job])
    case Defer => s.(printer := Idle, queue := [s.printer.job] + s.queue)
  }

  const INIT := Spool([], Idle, 0, [], [])

  ghost predicate Path(t: seq<Spool>, acts: seq<Action>) {
    && |t| == |acts| + 1
    && forall k :: 0 <= k < |acts| ==> Allowed(t[k], acts[k]) && t[k + 1] == Next(t[k], acts[k])
  }

  // Any interleaving of the clients and the printer thread.
  ghost predicate Run(t: seq<Spool>, acts: seq<Action>) { Path(t, acts) && t[0] == INIT }

  function Hand(s: Spool): seq<nat> { if s.printer.Printing? then [s.printer.job] else [] }

  ghost predicate Inv(s: Spool) {
    && s.added == s.done + Hand(s) + s.queue
    && (s.printer.Asleep? && s.queue != [] ==> s.unsignalled > 0)
  }

  lemma InvNext(s: Spool, a: Action)
    requires Inv(s) && Allowed(s, a)
    ensures Inv(Next(s, a))
  {
    if a.Look? && s.queue != [] {
      assert s.queue == [s.queue[0]] + s.queue[1..];
    }
  }

  lemma {:induction false} PathInv(t: seq<Spool>, acts: seq<Action>, k: nat)
    requires Path(t, acts) && Inv(t[0]) && k <= |acts|
    ensures Inv(t[k])
  {
    if k > 0 {
      PathInv(t, acts, k - 1);
      InvNext(t[k - 1], acts[k - 1]);
    }
  }

  // The jobs that clients have asked for, in that order.
  function Asked(acts: seq<Action>): seq<nat> {
    if acts == [] then []
    else Asked(acts[..|acts| - 1]) + (if acts[|acts| - 1].Add? then [acts[|acts| - 1].job] else [])
  }

  // How many signals are owed: one for each job asked for, less those given.
  function Owed(acts: seq<Action>): int {
    if acts == [] then 0
    else Owed(acts[..|acts| - 1])
         + (if acts[|acts| - 1].Add? then 1 else if acts[|acts| - 1].Signal? then -1 else 0)
  }

  lemma {:induction false} AddedIsAsked(t: seq<Spool>, acts: seq<Action>, k: nat)
    requires Path(t, acts) && k <= |acts|
    ensures t[k].added == t[0].added + Asked(acts[..k]) && t[k].unsignalled == t[0].unsignalled + Owed(acts[..k])
  {
    if k > 0 {
      AddedIsAsked(t, acts, k - 1);
      assert acts[..k][..k - 1] == acts[..k - 1] && acts[..k][k - 1] == acts[k - 1];
      assert t[k] == Next(t[k - 1], acts[k - 1]);
    }
  }

  // Main result: no job is lost, duplicated or overtaken, deferred or not. At any
  // time the jobs asked for so far are those that have ended, then the one in
  // hand, then the queue.
  lemma NothingLost(t: seq<Spool>, acts: seq<Action>, k: nat)
    requires Run(t, acts) && k <= |acts|
    ensures Asked(acts[..k]) == t[k].done + Hand(t[k]) + t[k].queue
    ensures t[k].added == Asked(acts[..k]) && t[k].unsignalled == Owed(acts[..k])
  {
    PathInv(t, acts, k);
    AddedIsAsked(t, acts, k);
  }

  function Ended(acts: seq<Action>): nat {
    if acts == [] then 0
    else Ended(acts[..|acts| - 1]) + (if acts[|acts| - 1].Finish? || acts[|acts| - 1].Cancel? then 1 else 0)
  }

  lemma {:induction false} DoneCount(t: seq<Spool>, acts: seq<Action>)
    requires Run(t, acts)
    ensures |t[|acts|].done| == Ended(acts)
  {
    if acts != [] {
      DoneCount(t[..|acts|], acts[..|acts| - 1]);
    }
  }

  // Main result: jobs end in the order of their arrival. Whatever was deferred
  // and whatever arrived meanwhile, the m-th job to be printed or cancelled is
  // the m-th job asked for.
  lemma FirstComeFirstServed(t: seq<Spool>, acts: seq<Action>)
    requires Run(t, acts)
    ensures var s := t[|acts|];
      Ended(acts) <= |Asked(acts)| && s.done == Asked(acts)[..Ended(acts)]
  {
    assert acts[..|acts|] == acts;
    NothingLost(t, acts, |acts|);
    PathInv(t, acts, |acts|);
    DoneCount(t, acts);
  }

  // Main result: no wake-up is lost. While the printer thread sleeps beside a
  // queued job, a client is still about to signal.
  lemma NoLostWakeup(t: seq<Spool>, acts: seq<Action>, k: nat)
    requires Run(t, acts) && k <= |acts| && t[k].printer.Asleep? && t[k].queue != []
    ensures t[k].unsignalled > 0
  {
    PathInv(t, acts, k);
  }

  // ---------- everything queued is printed ----------

  // What is left to do when nothing is added and nothing deferred.
  function Work(s: Spool): nat {
    3 * |s.queue| + (if s.printer.Printing? then 2 else if s.printer.Idle? then 1 else 0) + 2 * s.unsignalled
  }

  predicate Calm(a: Action) { !a.Add? && !a.Defer? }

  predicate AllCalm(acts: seq<Action>) { forall k :: 0 <= k < |acts| ==> Calm(acts[k]) }

  function Wakes(acts: seq<Action>): nat {
    if acts == [] then 0 else Wakes(acts[..|acts| - 1]) + (if acts[|acts| - 1].Wake? then 1 else 0)
  }

  // Nothing can happen but a spurious wake-up.
  predicate AtRest(s: Spool) { s.printer.Asleep? && s.unsignalled == 0 }

  lemma RestOrWork(s: Spool)
    ensures AtRest(s) || exists a :: Calm(a) && !a.Wake? && Allowed(s, a)
  {
    assert Calm(Signal) && Calm(Look) && Calm(Finish);
    if !AtRest(s) {
      assert Allowed(s, if s.printer.Printing? then Finish else if s.printer.Idle? then Look else Signal);
    }
  }

  lemma {:induction false} CalmWork(u: seq<Spool>, more: seq<Action>)
    requires Path(u, more) && AllCalm(more)
    ensures |more| + Work(u[|more|]) <= Work(u[0]) + 2 * Wakes(more)
    ensures u[|more|].added == u[0].added
  {
    if more != [] {
      var n := |more| - 1;
      CalmWork(u[..n + 1], more[..n]);
      assert Calm(more[n]) && u[n + 1] == Next(u[n], more[n]);
    }
  }

  // Main result: nothing is stranded. From any state of any run, if nothing more
  // is added and nothing deferred, every schedule whatever is soon over: not
  // counting spurious wake-ups, it makes at most the work left in steps. Where
  // it cannot go on, every job ever queued has ended, in the order of arrival.
  lemma NothingStranded(t: seq<Spool>, acts: seq<Action>, u: seq<Spool>, more: seq<Action>)
    requires Run(t, acts) && Path(u, more) && u[0] == t[|acts|] && AllCalm(more)
    ensures |more| <= Work(u[0]) + 2 * Wakes(more)
    ensures AtRest(u[|more|]) ==> u[|more|].queue == [] && u[|more|].done == Asked(acts)
  {
    assert acts[..|acts|] == acts;
    NothingLost(t, acts, |acts|);
    PathInv(t, acts, |acts|);
    PathInv(u, more, |more|);
    CalmWork(u, more);
  }
}

// The doubly linked list of printd.c, rewritten in place under joblock.
module PrintJobs {
  import opened PrintSpool

  class Job {
    const jobid: nat
    var next: Job?
    var prev: Job?

    constructor (jobid: nat)
      ensures this.jobid == jobid && next == null
    {
      this.jobid := jobid;
      next := null;
    }
  }

  function Ids(q: seq<Job>): seq<nat> { seq(|q|, k requires 0 <= k < |q| => q[k].jobid) }

  // The k-th node, or null beyond either end.
  function At(q: seq<Job>, k: int): Job? { if 0 <= k < |q| then q[k] else null }

  // A doubly linked list from head to tail through the nodes of q.
  ghost predicate Chained(head: Job?, tail: Job?, q: seq<Job>)
    reads q
  {
    && head == At(q, 0)
    && tail == At(q, |q| - 1)
    && (forall k {:trigger q[k].next} :: 0 <= k < |q| ==> q[k].next == At(q, k + 1))
    && (forall k {:trigger q[k].prev} :: 0 <= k < |q| ==> q[k].prev == At(q, k - 1))
    && Distinct(q)
  }

  ghost predicate Distinct(q: seq<Job>) { forall k, m :: 0 <= k < m < |q| ==> q[k] != q[m] }

  // The other nodes of p linked past the k-th.
  ghost predicate Skipping(p: seq<Job>, k: nat)
    reads p
  {
    && (forall j {:trigger p[j].next} :: 0 <= j < |p| && j != k ==>
          p[j].next == if j == k - 1 then At(p, k + 1) else At(p, j + 1))
    && (forall j {:trigger p[j].prev} :: 0 <= j < |p| && j != k ==>
          p[j].prev == if j == k + 1 then At(p, k - 1) else At(p, j - 1))
  }

  lemma Unlinked(head: Job?, tail: Job?, p: seq<Job>, k: nat)
    requires k < |p| && Distinct(p) && Skipping(p, k)
    requires head == (if k == 0 then At(p, 1) else At(p, 0))
    requires tail == (if k == |p| - 1 then At(p, |p| - 2) else At(p, |p| - 1))
    ensures Chained(head, tail, p[..k] + p[k + 1..]) && p[k] !in p[..k] + p[k + 1..]
  {
    var q := p[..k] + p[k + 1..];
    forall m | 0 <= m < |q|
      ensures q[m] == p[if m < k then m else m + 1] != p[k]
      ensures q[m].next == At(q, m + 1) && q[m].prev == At(q, m - 1)
    {
      var j := if m < k then m else m + 1;
      assert q[m] == p[j];
    }
  }

  // The list between jobhead and jobtail; q is the jobs on it, in order.
  class JobList {
    var jobhead: Job?
    var jobtail: Job?
    ghost var q: seq<Job>

    ghost predicate Linked()
      reads this, q
    {
      Chained(jobhead, jobtail, q)
    }

    constructor ()
      ensures Linked() && q == []
    {
      jobhead, jobtail, q := null, null, [];
    }

    // The part of add_job under joblock.
    method Append(jp: Job)
      requires Linked() && jp !in q && jp.next == null
      modifies this, jobtail, jp
      ensures Linked() && q == old(q) + [jp]
    {
      jp.prev := jobtail;
      if jobtail == null {
        jobhead := jp;
      } else {
        jobtail.next := jp;
      }
      jobtail := jp;
      q := q + [jp];
      assert forall k :: 0 <= k < |q| - 1 ==> q[k] == old(q)[k] != jp;
    }

    method ReplaceJob(jp: Job)
      requires Linked() && jp !in q
      modifies this, jobhead, jp
      ensures Linked() && q == [jp] + old(q)
    {
      jp.prev := null;
      jp.next := jobhead;
      if jobhead == null {
        jobtail := jp;
      } else {
        jobhead.prev := jp;
      }
      jobhead := jp;
      q := [jp] + q;
      assert forall k :: 0 < k < |q| ==> q[k] == old(q)[k - 1] != jp;
    }

    // target is the k-th job; its own links stay as they were.
    method RemoveJob(target: Job, ghost k: nat)
      requires Linked() && k < |q| && q[k] == target
      modifies this, target.next, target.prev
      ensures Linked() && q == old(q[..k] + q[k + 1..]) && target !in q
    {
      ghost var p := q;
      assert target.next == At(p, k + 1) && target.prev == At(p, k - 1);
      if target.next != null {
        target.next.prev := target.prev;
      } else {
        jobtail := target.prev;
      }
      if target.prev != null {
        target.prev.next := target.next;
      } else {
        jobhead := target.next;
      }
      assert Skipping(p, k);
      q := p[..k] + p[k + 1..];
      Unlinked(jobhead, jobtail, p, k);
    }
  }

  // The daemon: its clients add jobs, its printer thread takes them.
  class Printd {
    const jobs: JobList
    var hand: Job?
    var asleep: bool
    var unsignalled: nat
    ghost var added: seq<nat>
    ghost var done: seq<nat>

    // The job in hand is out of the list.
    ghost predicate Valid()
      reads this, jobs, jobs.q
    {
      jobs.Linked() && (hand != null ==> hand !in jobs.q && !asleep)
    }

    ghost function State(): Spool
      reads this, jobs
    {
      Spool(Ids(jobs.q), if hand != null then Printing(hand.jobid) else if asleep then Asleep else Idle,
            unsignalled, added, done)
    }

    constructor ()
      ensures Valid() && State() == INIT && fresh(jobs) && jobs.q == []
    {
      jobs := new JobList();
      hand, asleep, unsignalled, added, done := null, false, 0, [], [];
    }

    method AddJob(jobid: nat)
      requires Valid()
      modifies this, jobs, jobs.jobtail
      ensures Valid() && State() == Next(old(State()), Add(jobid))
      ensures Ids(jobs.q) == old(Ids(jobs.q)) + [jobid] && added == old(added) + [jobid]
      ensures hand == old(hand) && asleep == old(asleep) && unsignalled == old(unsignalled) + 1 && done == old(done)
    {
      var jp := new Job(jobid);
      jobs.Append(jp);
      added := added + [jobid];
      unsignalled := unsignalled + 1;
    }

    // One look at the list by the printer thread.
    method Look()
      requires Valid() && Allowed(State(), PrintSpool.Look)
      modifies this, jobs, jobs.q
      ensures Valid() && State() == Next(old(State()), PrintSpool.Look)
      ensures added == old(added) && done == old(done) && unsignalled == old(unsignalled)
      ensures if old(jobs.q) == [] then jobs.q == [] && hand == null && asleep
              else jobs.q == old(jobs.q)[1..] && hand == old(jobs.q)[0] && !asleep
    {
      if jobs.jobhead == null {
        asleep := true;
      } else {
        var jp := jobs.jobhead;
        jobs.RemoveJob(jp, 0);
        hand := jp;
      }
    }

    method Signal()
      requires Valid() && Allowed(State(), PrintSpool.Signal)
      modifies this
      ensures Valid() && State() == Next(old(State()), PrintSpool.Signal)
      ensures !asleep && unsignalled == old(unsignalled) - 1 && hand == old(hand)
      ensures added == old(added) && done == old(done)
    {
      unsignalled := unsignalled - 1;
      asleep := false;
    }

    method Wake()
      requires Valid() && Allowed(State(), PrintSpool.Wake)
      modifies this
      ensures Valid() && State() == Next(old(State()), PrintSpool.Wake)
      ensures !asleep && unsignalled == old(unsignalled) && hand == old(hand)
      ensures added == old(added) && done == old(done)
    {
      asleep := false;
    }

    // What becomes of the job in hand: cancelled when its spool file cannot be
    // opened or examined, ended when the printer says that it was printed, and
    // put back when anything else fails.
    method Print(readable: bool, printed: bool) returns (a: Action)
      requires Valid() && hand != null
      modifies this, jobs, jobs.jobhead, hand
      ensures Valid() && a == (if !readable then Cancel else if printed then Finish else Defer)
      ensures State() == Next(old(State()), a)
      ensures hand == null && asleep == old(asleep) && unsignalled == old(unsignalled) && added == old(added)
      ensures if readable && !printed then jobs.q == [old(hand)] + old(jobs.q) && done == old(done)
              else jobs.q == old(jobs.q) && done == old(done) + [old(hand).jobid]
    {
      var jp := hand;
      if !readable {
        a := Cancel;
        done := done + [jp.jobid];
      } else if printed {
        a := Finish;
        done := done + [jp.jobid];
      } else {
        a := Defer;
        jobs.ReplaceJob(jp);
      }
      hand := null;
    }
  }
}
