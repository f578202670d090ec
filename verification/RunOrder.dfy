/**
 Order and storage, told from the events alone: runs are taken in the order in which they were
 queued, and a row says what its run was started with from `add` until it is deleted.
 */
module RunOrder {
  import opened Wrappers
  import opened RunQueue
  import opened Registry
  import opened RunProcess
  import opened RunSystem
  import opened RunVerdict

  // ---- first queued, first taken ----

  // In step k process pid puts x into its FIFO.
  ghost predicate Queues(ss: seq<System>, acts: seq<Action>, k: nat, pid: Pid, x: Id)
    requires |ss| == |acts| + 1
  {
    && k < |acts| && acts[k].Step? && acts[k].pid == pid && pid in ss[k].procs
    && (acts[k].e == Enqueue(x)
        || (acts[k].e.BootEnqueue? && HasNext(ss[k].procs[pid].boot) && Next(ss[k].procs[pid].boot).id == x))
  }

  predicate Ahead(fifo: seq<Id>, x: Id, y: Id) {
    exists i, j :: 0 <= i < j < |fifo| && fifo[i] == x && fifo[j] == y
  }

  // Only these events change the FIFO.
  lemma FifoStep(p: Process, e: Event)
    requires Enabled(p, e)
    ensures Apply(p, e).fifo
         == if e.Enqueue? then p.fifo + [e.id]
            else if e.BootEnqueue? then p.fifo + [Next(p.boot).id]
            else if e.Take? then p.fifo[1..]
            else p.fifo
    ensures e.Take? ==> p.fifo != [] && p.fifo[0] == e.id
  {
    if BeforeRun(e) {
      FifoBeforeRun(p, e);
    } else {
      FifoFromRun(p, e);
    }
  }

  lemma FifoBeforeRun(p: Process, e: Event)
    requires Enabled(p, e) && BeforeRun(e)
    ensures Apply(p, e).fifo
         == if e.Enqueue? then p.fifo + [e.id]
            else if e.BootEnqueue? then p.fifo + [Next(p.boot).id]
            else if e.Take? then p.fifo[1..]
            else p.fifo
    ensures e.Take? ==> p.fifo != [] && p.fifo[0] == e.id
  {
    if IsQueued(e) || Leaves(e) {
      FifoQueued(p, e);
    } else {
      FifoTaken(p, e);
    }
  }

  lemma FifoQueued(p: Process, e: Event)
    requires Enabled(p, e) && (IsQueued(e) || Leaves(e))
    ensures Apply(p, e).fifo
         == if e.Enqueue? then p.fifo + [e.id]
            else if e.BootEnqueue? then p.fifo + [Next(p.boot).id]
            else p.fifo
  {
  }

  lemma FifoTaken(p: Process, e: Event)
    requires Enabled(p, e) && (e.Take? || Begins(e) || Claims(e))
    ensures Apply(p, e).fifo == if e.Take? then p.fifo[1..] else p.fifo
    ensures e.Take? ==> p.fifo != [] && p.fifo[0] == e.id
  {
  }

  lemma FifoFromRun(p: Process, e: Event)
    requires Enabled(p, e) && !BeforeRun(e)
    ensures Apply(p, e).fifo == p.fifo
  {
  }

  // A process moves by its own events only.
  lemma OwnMove(ss: seq<System>, acts: seq<Action>, j: nat, pid: Pid)
    requires IsRun(ss, acts) && j < |acts| && pid in ss[j].procs && pid in ss[j + 1].procs
    ensures if acts[j].Step? && acts[j].pid == pid
            then Fair(ss[j].procs[pid], acts[j].e) && ss[j + 1].procs[pid] == Apply(ss[j].procs[pid], acts[j].e)
            else ss[j + 1].procs[pid] == ss[j].procs[pid]
  {
    RunHolds(ss, acts, j);
    assert Can(ss[j], acts[j]) && ss[j + 1] == Act(ss[j], acts[j]);
  }

  ghost predicate InFifo(s: System, pid: Pid, x: Id) {
    pid in s.procs && x in s.procs[pid].fifo
  }

  ghost predicate IsAhead(s: System, pid: Pid, x: Id, y: Id) {
    pid in s.procs && Ahead(s.procs[pid].fifo, x, y)
  }

  lemma QueuesOwn(ss: seq<System>, acts: seq<Action>, a: nat, pid: Pid, x: Id)
    requires IsRun(ss, acts) && Queues(ss, acts, a, pid, x)
    ensures InFifo(ss[a + 1], pid, x)
  {
    assert Can(ss[a], acts[a]) && ss[a + 1] == Act(ss[a], acts[a]);
    FifoStep(ss[a].procs[pid], acts[a].e);
  }

  lemma NotYet(acts: seq<Action>, i: nat, j: nat, pid: Pid, e: Event)
    requires i <= j <= |acts| && !Did(acts, j, pid, e)
    ensures !Did(acts, i, pid, e)
  {
  }

  // x waits until it is taken.
  lemma {:induction false} WaitsLater(ss: seq<System>, acts: seq<Action>, i: nat, j: nat, pid: Pid, x: Id)
    requires IsRun(ss, acts) && i <= j < |ss| && InFifo(ss[i], pid, x) && pid in ss[j].procs
    requires !Did(acts, j, pid, Take(x))
    ensures InFifo(ss[j], pid, x)
  {
    if i < j {
      NotYet(acts, j - 1, j, pid, Take(x));
      AliveBetween(ss, acts, i, j, j - 1, pid);
      WaitsLater(ss, acts, i, j - 1, pid, x);
      WaitsNext(ss, acts, j - 1, pid, x);
    }
  }

  lemma WaitsNext(ss: seq<System>, acts: seq<Action>, j: nat, pid: Pid, x: Id)
    requires IsRun(ss, acts) && j < |acts| && InFifo(ss[j], pid, x) && pid in ss[j + 1].procs
    requires !Did(acts, j + 1, pid, Take(x))
    ensures InFifo(ss[j + 1], pid, x)
  {
    OwnMove(ss, acts, j, pid);
    if acts[j].Step? && acts[j].pid == pid {
      NotTaken(acts, j, pid, x);
      WaitsStep(ss[j].procs[pid], acts[j].e, x);
    }
  }

  lemma NotTaken(acts: seq<Action>, j: nat, pid: Pid, x: Id)
    requires j < |acts| && !Did(acts, j + 1, pid, Take(x)) && acts[j].Step? && acts[j].pid == pid
    ensures acts[j].e != Take(x)
  {
    assert acts[j] == Step(pid, acts[j].e);
  }

  lemma WaitsStep(p: Process, e: Event, x: Id)
    requires Enabled(p, e) && x in p.fifo && e != Take(x)
    ensures x in Apply(p, e).fifo
  {
    FifoStep(p, e);
    if e.Take? {
      assert p.fifo == [p.fifo[0]] + p.fifo[1..];
    }
  }

  lemma {:induction false} StaysAhead(ss: seq<System>, acts: seq<Action>, i: nat, j: nat, pid: Pid, x: Id, y: Id)
    requires IsRun(ss, acts) && i <= j < |ss| && IsAhead(ss[i], pid, x, y) && pid in ss[j].procs
    requires !Did(acts, j, pid, Take(x))
    ensures IsAhead(ss[j], pid, x, y)
  {
    if i < j {
      NotYet(acts, j - 1, j, pid, Take(x));
      AliveBetween(ss, acts, i, j, j - 1, pid);
      StaysAhead(ss, acts, i, j - 1, pid, x, y);
      AheadNext(ss, acts, j - 1, pid, x, y);
    }
  }

  lemma AheadNext(ss: seq<System>, acts: seq<Action>, j: nat, pid: Pid, x: Id, y: Id)
    requires IsRun(ss, acts) && j < |acts| && IsAhead(ss[j], pid, x, y) && pid in ss[j + 1].procs
    requires !Did(acts, j + 1, pid, Take(x))
    ensures IsAhead(ss[j + 1], pid, x, y)
  {
    OwnMove(ss, acts, j, pid);
    if acts[j].Step? && acts[j].pid == pid {
      NotTaken(acts, j, pid, x);
      AheadStep(ss[j].procs[pid], acts[j].e, x, y);
    }
  }

  lemma AheadStep(p: Process, e: Event, x: Id, y: Id)
    requires Enabled(p, e) && Ahead(p.fifo, x, y) && e != Take(x)
    ensures Ahead(Apply(p, e).fifo, x, y)
  {
    FifoStep(p, e);
    if e.Take? {
      AheadOfFirst(p.fifo, x, y);
    } else {
      AheadBehind(p.fifo, Apply(p, e).fifo, x, y);
    }
  }

  // Who is queued while x waits is behind it.
  lemma AheadAtFirst(ss: seq<System>, acts: seq<Action>, b: nat, pid: Pid, x: Id, y: Id)
    requires IsRun(ss, acts) && Queues(ss, acts, b, pid, y) && InFifo(ss[b], pid, x)
    ensures IsAhead(ss[b + 1], pid, x, y)
  {
    assert Can(ss[b], acts[b]) && ss[b + 1] == Act(ss[b], acts[b]);
    FifoStep(ss[b].procs[pid], acts[b].e);
    AheadBehind(ss[b].procs[pid].fifo, ss[b + 1].procs[pid].fifo, x, y);
  }

  lemma AheadOfFirst(fifo: seq<Id>, x: Id, y: Id)
    requires Ahead(fifo, x, y) && fifo[0] != x
    ensures Ahead(fifo[1..], x, y)
  {
    var i, j :| 0 <= i < j < |fifo| && fifo[i] == x && fifo[j] == y;
    assert fifo[1..][i - 1] == x && fifo[1..][j - 1] == y;
  }

  lemma AheadBehind(fifo: seq<Id>, more: seq<Id>, x: Id, y: Id)
    requires fifo <= more
    requires Ahead(fifo, x, y) || (x in fifo && more == fifo + [y])
    ensures Ahead(more, x, y)
  {
    if Ahead(fifo, x, y) {
      var i, j :| 0 <= i < j < |fifo| && fifo[i] == x && fifo[j] == y;
      assert more[i] == x && more[j] == y;
    } else {
      var i :| 0 <= i < |fifo| && fifo[i] == x;
      assert more[i] == x && more[|fifo|] == y;
    }
  }

  /** Runs are taken in the order in which they were queued: who was queued first is taken first. */
  lemma {:induction false} TakenInOrder(ss: seq<System>, acts: seq<Action>, a: nat, b: nat, j: nat, pid: Pid, x: Id, y: Id)
    requires IsRun(ss, acts) && a < b < j < |acts|
    requires Queues(ss, acts, a, pid, x) && Queues(ss, acts, b, pid, y) && x != y
    requires acts[j] == Step(pid, Take(y))
    ensures exists i :: a < i < j && acts[i] == Step(pid, Take(x))
    decreases j
  {
    assert Can(ss[j], acts[j]);
    if Did(acts, j, pid, Take(y)) {
      TakenLater(ss, acts, b, j, pid, y);
      var first :| b < first < j && acts[first] == Step(pid, Take(y));
      TakenInOrder(ss, acts, a, b, first, pid, x, y);
    } else if !Did(acts, j, pid, Take(x)) {
      QueuedAhead(ss, acts, a, b, j, pid, x, y);
      FirstIsOnce(ss, acts, j, pid, x, y);
    } else {
      TakenLater(ss, acts, a, j, pid, x);
    }
  }

  lemma QueuedAhead(ss: seq<System>, acts: seq<Action>, a: nat, b: nat, j: nat, pid: Pid, x: Id, y: Id)
    requires IsRun(ss, acts) && a < b < j < |ss| && pid in ss[j].procs
    requires Queues(ss, acts, a, pid, x) && Queues(ss, acts, b, pid, y) && !Did(acts, j, pid, Take(x))
    ensures IsAhead(ss[j], pid, x, y)
  {
    QueuesOwn(ss, acts, a, pid, x);
    NotYet(acts, b, j, pid, Take(x));
    WaitsLater(ss, acts, a + 1, b, pid, x);
    AheadAtFirst(ss, acts, b, pid, x, y);
    StaysAhead(ss, acts, b + 1, j, pid, x, y);
  }

  // A job is in the FIFO once, so that one behind another is not the first.
  lemma FirstIsOnce(ss: seq<System>, acts: seq<Action>, j: nat, pid: Pid, x: Id, y: Id)
    requires IsRun(ss, acts) && j < |ss| && IsAhead(ss[j], pid, x, y)
    ensures ss[j].procs[pid].fifo[0] != y
  {
    RunHolds(ss, acts, j);
  }

  lemma TakenLater(ss: seq<System>, acts: seq<Action>, a: nat, j: nat, pid: Pid, x: Id)
    requires IsRun(ss, acts) && a < j <= |acts| && Queues(ss, acts, a, pid, x) && Did(acts, j, pid, Take(x))
    ensures exists i :: a < i < j && acts[i] == Step(pid, Take(x))
  {
    var i :| 0 <= i < j && acts[i] == Step(pid, Take(x));
    if i < a {
      TakenIsReturned(ss, acts, i, pid, x);
      ReturnedStays(ss, acts, i, a, pid, x);
      QueuedIsNotReturned(ss, acts, a, pid, x);
    }
  }

  lemma TakenIsReturned(ss: seq<System>, acts: seq<Action>, i: nat, pid: Pid, x: Id)
    requires IsRun(ss, acts) && i < |acts| && acts[i] == Step(pid, Take(x))
    ensures Tracks(ss[i], pid, x) && Returned(TaskOf(ss[i], pid, x).pc)
  {
    RunHolds(ss, acts, i);
    assert Can(ss[i], acts[i]) && Placed(ss[i].procs[pid], x);
  }

  lemma QueuedIsNotReturned(ss: seq<System>, acts: seq<Action>, a: nat, pid: Pid, x: Id)
    requires IsRun(ss, acts) && Queues(ss, acts, a, pid, x)
    ensures Tracks(ss[a], pid, x) && !Returned(TaskOf(ss[a], pid, x).pc)
  {
    assert Can(ss[a], acts[a]);
  }

  // Once handed over, an execution is never about to be queued again.
  lemma {:induction false} ReturnedStays(ss: seq<System>, acts: seq<Action>, i: nat, j: nat, pid: Pid, x: Id)
    requires IsRun(ss, acts) && i <= j < |ss| && Tracks(ss[i], pid, x) && pid in ss[j].procs
    requires Returned(TaskOf(ss[i], pid, x).pc)
    ensures Tracks(ss[j], pid, x) && Returned(TaskOf(ss[j], pid, x).pc)
  {
    if i < j {
      AliveBetween(ss, acts, i, j, j - 1, pid);
      ReturnedStays(ss, acts, i, j - 1, pid, x);
      ProcessStep(ss, acts, j - 1, pid);
      if ss[j].procs[pid] != ss[j - 1].procs[pid] {
        ReturnedNext(ss[j - 1].procs[pid], acts[j - 1].e, x);
      }
    }
  }

  lemma ReturnedNext(p: Process, e: Event, x: Id)
    requires Inv(p) && Fair(p, e) && x in p.tasks && Returned(p.tasks[x].pc)
    ensures x in Apply(p, e).tasks && Returned(Apply(p, e).tasks[x].pc)
  {
    assert Placed(p, x);
    if e.BootStart? {
      NextIsNew(p.boot, p.tasks);
    }
    if Subject(p, e) != Some(x) {
      OthersStay(p, e, x);
    } else {
      SubjectReturned(p, e, x);
    }
  }

  lemma SubjectReturned(p: Process, e: Event, x: Id)
    requires Enabled(p, e) && Placed(p, x) && Subject(p, e) == Some(x) && x in p.tasks && Returned(p.tasks[x].pc)
    requires !e.BootStart?
    ensures x in Apply(p, e).tasks && Returned(Apply(p, e).tasks[x].pc)
  {
    if !IsBoot(e) && !e.Start? {
      EventAdvances(p, e, x);
    }
  }

  // ---- what is stored ----

  ghost predicate StartedWith(s: System, pid: Pid, x: Id, ticket: RunTicket, createdAt: int) {
    Tracks(s, pid, x) && TaskOf(s, pid, x).ticket == ticket && TaskOf(s, pid, x).createdAt == createdAt
  }

  lemma {:induction false} StartedStays(ss: seq<System>, acts: seq<Action>, i: nat, j: nat, pid: Pid, x: Id,
                                        ticket: RunTicket, createdAt: int)
    requires IsRun(ss, acts) && i <= j < |ss| && StartedWith(ss[i], pid, x, ticket, createdAt) && pid in ss[j].procs
    ensures StartedWith(ss[j], pid, x, ticket, createdAt)
  {
    if i < j {
      AliveBetween(ss, acts, i, j, j - 1, pid);
      StartedStays(ss, acts, i, j - 1, pid, x, ticket, createdAt);
      StartedNext(ss, acts, j - 1, pid, x, ticket, createdAt);
    }
  }

  lemma StartedNext(ss: seq<System>, acts: seq<Action>, j: nat, pid: Pid, x: Id, ticket: RunTicket, createdAt: int)
    requires IsRun(ss, acts) && j < |acts| && StartedWith(ss[j], pid, x, ticket, createdAt) && pid in ss[j + 1].procs
    ensures StartedWith(ss[j + 1], pid, x, ticket, createdAt)
  {
    OwnMove(ss, acts, j, pid);
    ProcessStep(ss, acts, j, pid);
    if acts[j].Step? && acts[j].pid == pid {
      TaskStays(ss[j].procs[pid], acts[j].e, x);
    }
  }

  lemma TaskStays(p: Process, e: Event, x: Id)
    requires Inv(p) && Fair(p, e) && x in p.tasks
    ensures x in Apply(p, e).tasks && SameIdentity(p.tasks[x], Apply(p, e).tasks[x])
  {
    if e.BootStart? {
      NextIsNew(p.boot, p.tasks);
    }
    TaskStep(p, e, x);
  }

  /** The row `add` inserts holds the request and the creation time that the run was started with. */
  lemma AddedAsStarted(ss: seq<System>, acts: seq<Action>, i: nat, j: nat, pid: Pid, x: Id,
                       ticket: RunTicket, createdAt: int)
    requires IsRun(ss, acts) && i < j < |acts| && ss[j].kind.Db?
    requires acts[i] == Step(pid, Start(x, ticket, createdAt)) && acts[j] == Step(pid, Add(x))
    ensures x in ss[j + 1].rows && ss[j + 1].rows[x] == Row(Ok(ticket), createdAt)
  {
    assert Can(ss[i], acts[i]) && ss[i + 1] == Act(ss[i], acts[i]);
    assert Can(ss[j], acts[j]) && ss[j + 1] == Act(ss[j], acts[j]);
    StartedStays(ss, acts, i + 1, j, pid, x, ticket, createdAt);
  }

  lemma NotNewAgain(p: Process, e: Event, x: Id)
    requires Inv(p) && Fair(p, e) && x in p.tasks && !At(p, x, Registered)
    ensures x in Apply(p, e).tasks && !At(Apply(p, e), x, Registered)
  {
    TaskStays(p, e, x);
    if At(Apply(p, e), x, Registered) {
      StaysDecided(p, e, x);
    }
  }

  // ---- a row that is gone ----

  // Nobody is about to add x.
  ghost predicate NobodyAdds(s: System, x: Id) {
    x in s.ids && forall a :: a in s.procs ==> !At(s.procs[a], x, Registered)
  }

  lemma NobodyAddsNext(s: System, a: Action, x: Id)
    requires SystemInv(s) && Can(s, a) && NobodyAdds(s, x)
    ensures NobodyAdds(Act(s, a), x)
  {
    if a.Step? {
      var p := s.procs[a.pid];
      if At(Apply(p, a.e), x, Registered) {
        LearnsTask(p, a.e, x);
        if x in p.tasks {
          NotNewAgain(p, a.e, x);
        }
      }
    }
  }

  lemma NobodyAddsNow(s: System, x: Id)
    requires SystemInv(s) && x in s.rows
    ensures NobodyAdds(s, x)
  {
    assert Shared(s, x);
    forall a | a in s.procs ensures !At(s.procs[a], x, Registered) {
      assert Agrees(s, s.procs[a], x);
    }
  }

  lemma {:induction false} NobodyAddsLater(ss: seq<System>, acts: seq<Action>, i: nat, j: nat, x: Id)
    requires IsRun(ss, acts) && i <= j < |ss| && x in ss[i].rows
    ensures NobodyAdds(ss[j], x)
  {
    if i == j {
      RunHolds(ss, acts, i);
      NobodyAddsNow(ss[i], x);
    } else {
      NobodyAddsLater(ss, acts, i, j - 1, x);
      NobodyAddsThen(ss, acts, j - 1, x);
    }
  }

  lemma NobodyAddsThen(ss: seq<System>, acts: seq<Action>, j: nat, x: Id)
    requires IsRun(ss, acts) && j < |acts| && NobodyAdds(ss[j], x)
    ensures NobodyAdds(ss[j + 1], x)
  {
    RunHolds(ss, acts, j);
    NextOf(ss, acts, j);
    NobodyAddsNext(ss[j], acts[j], x);
  }

  lemma NextOf(ss: seq<System>, acts: seq<Action>, i: nat)
    requires IsRun(ss, acts) && i < |acts|
    ensures Can(ss[i], acts[i]) && ss[i + 1] == Act(ss[i], acts[i])
  {
  }

  lemma GoneNext(s: System, a: Action, x: Id)
    requires Can(s, a) && NobodyAdds(s, x) && x !in s.rows
    ensures x !in Act(s, a).rows
  {
  }

  /** A row that was deleted never comes back. */
  lemma {:induction false} GoneForGood(ss: seq<System>, acts: seq<Action>, i: nat, k: nat, j: nat, x: Id)
    requires IsRun(ss, acts) && i <= k <= j < |ss| && x in ss[i].rows && x !in ss[k].rows
    ensures x !in ss[j].rows
    decreases j
  {
    if k < j {
      GoneForGood(ss, acts, i, k, j - 1, x);
      NobodyAddsLater(ss, acts, i, j - 1, x);
      GoneThen(ss, acts, j - 1, x);
    }
  }

  lemma GoneThen(ss: seq<System>, acts: seq<Action>, j: nat, x: Id)
    requires IsRun(ss, acts) && j < |acts| && NobodyAdds(ss[j], x) && x !in ss[j].rows
    ensures x !in ss[j + 1].rows
  {
    NextOf(ss, acts, j);
    GoneNext(ss[j], acts[j], x);
  }

  /**
   What the table answers to a claim, and what is gone after it: a claim wins exactly while the
   row is there, and takes it; without a table every claim wins. A cancelled run's row goes too.
   */
  lemma ClaimsAreExact(ss: seq<System>, acts: seq<Action>, k: nat, j: nat, pid: Pid, x: Id, won: bool)
    requires IsRun(ss, acts) && k < |acts| && k < j < |ss|
    ensures acts[k] == Step(pid, Claim(x, won)) && ss[k].kind.Db? ==> (won <==> x in ss[k].rows)
    ensures acts[k] == Step(pid, Claim(x, won)) && ss[k].kind.Memory? ==> won
    ensures (acts[k] == Step(pid, Claim(x, won)) || acts[k] == Step(pid, CancelClaim(x))) && x in ss[k].rows ==>
              x !in ss[j].rows
  {
    NextOf(ss, acts, k);
    if (acts[k] == Step(pid, Claim(x, won)) || acts[k] == Step(pid, CancelClaim(x))) && x in ss[k].rows {
      RunHolds(ss, acts, k);
      assert Shared(ss[k], x);
      GoneForGood(ss, acts, k, k + 1, j, x);
    }
  }

  // ---- what recovery removes ----

  // The rows recovery has dealt with so far and did not queue are gone.
  ghost predicate Cleared(rows: map<Id, Row>, b: Boot, listing: Listing, x: Id) {
    match b
    case NotBooted => false
    case Parsing(l, parsed) =>
      l == listing && parsed <= |l| && forall n :: 0 <= n < parsed && l[n].0 == x && l[n].1.ticket.Err? ==> x !in rows
    case Starting(pending, fates) => Unreadable(listing, x, rows) && Dropped(pending, fates, x, rows)
    case Queueing(pending, fates) => Unreadable(listing, x, rows) && Dropped(pending, fates, x, rows)
    case Dropping(pending, fates) => Unreadable(listing, x, rows) && Dropped(pending, fates, x, rows)
    case Serving(_, _) => true
  }

  ghost predicate Unreadable(listing: Listing, x: Id, rows: map<Id, Row>) {
    forall n :: 0 <= n < |listing| && listing[n].0 == x && listing[n].1.ticket.Err? ==> x !in rows
  }

  ghost predicate Dropped(pending: seq<Pending>, fates: seq<Fate>, x: Id, rows: map<Id, Row>) {
    |fates| <= |pending|
    && forall m :: 0 <= m < |fates| && pending[m].id == x && fates[m].Dropped? ==> x !in rows
  }

  lemma ClearedLess(rows: map<Id, Row>, less: map<Id, Row>, b: Boot, listing: Listing, x: Id)
    requires Cleared(rows, b, listing, x) && (x !in rows ==> x !in less)
    ensures Cleared(less, b, listing, x)
  {
  }

  // One event of the process that recovers.
  lemma ClearedNext(s: System, pid: Pid, e: Event, listing: Listing, x: Id)
    requires Can(s, Step(pid, e)) && s.kind.Db? && Cleared(s.rows, s.procs[pid].boot, listing, x)
    requires x !in s.rows ==> x !in NextRows(s, s.procs[pid], e)
    ensures Cleared(NextRows(s, s.procs[pid], e), Apply(s.procs[pid], e).boot, listing, x)
  {
    var p := s.procs[pid];
    if !IsBoot(e) {
      OnlyRecoveryMovesBoot(p, e);
      ClearedLess(s.rows, NextRows(s, p, e), p.boot, listing, x);
    } else {
      ClearedBoot(s, pid, e, listing, x);
    }
  }

  lemma ClearedBoot(s: System, pid: Pid, e: Event, listing: Listing, x: Id)
    requires Can(s, Step(pid, e)) && s.kind.Db? && IsBoot(e) && Cleared(s.rows, s.procs[pid].boot, listing, x)
    requires x !in s.rows ==> x !in NextRows(s, s.procs[pid], e)
    ensures Cleared(NextRows(s, s.procs[pid], e), Apply(s.procs[pid], e).boot, listing, x)
  {
  }

  ghost predicate Recovers(s: System, pid: Pid, listing: Listing, x: Id) {
    s.kind.Db? && pid in s.procs && Cleared(s.rows, s.procs[pid].boot, listing, x)
  }

  lemma RecoveryBegins(s: System, pid: Pid, rows: Listing, x: Id)
    requires Can(s, Step(pid, BootList(rows))) && s.kind.Db?
    ensures Recovers(Act(s, Step(pid, BootList(rows))), pid, rows, x)
  {
  }

  // Recovery goes on, and nobody will add x again.
  ghost predicate Clears(s: System, pid: Pid, listing: Listing, x: Id) {
    Recovers(s, pid, listing, x) && NobodyAdds(s, x)
  }

  // What holds at i and goes on from each moment to the next holds at j.
  lemma {:induction false} Along(inv: nat -> bool, i: nat, j: nat)
    requires i <= j && inv(i) && forall k: nat :: i <= k < j && inv(k) ==> inv(k + 1)
    ensures inv(j)
  {
    if i < j {
      Along(inv, i, j - 1);
    }
  }

  lemma ClearedSoFar(ss: seq<System>, acts: seq<Action>, i: nat, j: nat, pid: Pid, rows: Listing, x: Id)
    requires IsRun(ss, acts) && i <= j < |ss| && Clears(ss[i], pid, rows, x) && pid in ss[j].procs
    ensures Clears(ss[j], pid, rows, x)
  {
    var inv := (k: nat) => k < |ss| && Clears(ss[k], pid, rows, x);
    forall k: nat | i <= k < j && inv(k) ensures inv(k + 1) {
      AliveBetween(ss, acts, i, j, k + 1, pid);
      ClearedThen(ss, acts, k, pid, rows, x);
    }
    Along(inv, i, j);
  }

  lemma ClearsFromStart(ss: seq<System>, acts: seq<Action>, i: nat, pid: Pid, rows: Listing, x: Id)
    requires IsRun(ss, acts) && i < |acts| && acts[i] == Step(pid, BootList(rows))
    requires ss[i].kind.Db? && x in ss[i].rows
    ensures Clears(ss[i + 1], pid, rows, x)
  {
    NextOf(ss, acts, i);
    RecoveryBegins(ss[i], pid, rows, x);
    NobodyAddsLater(ss, acts, i, i + 1, x);
  }

  lemma ClearedThen(ss: seq<System>, acts: seq<Action>, j: nat, pid: Pid, rows: Listing, x: Id)
    requires IsRun(ss, acts) && j < |acts| && Clears(ss[j], pid, rows, x) && pid in ss[j + 1].procs
    ensures Clears(ss[j + 1], pid, rows, x)
  {
    NextOf(ss, acts, j);
    OwnMove(ss, acts, j, pid);
    NobodyAddsThen(ss, acts, j, x);
    ClearedStep(ss[j], acts[j], pid, rows, x);
  }

  lemma ClearedStep(s: System, a: Action, pid: Pid, listing: Listing, x: Id)
    requires Can(s, a) && NobodyAdds(s, x) && Recovers(s, pid, listing, x) && pid in Act(s, a).procs
    requires if a.Step? && a.pid == pid then true else Act(s, a).procs[pid] == s.procs[pid]
    ensures Recovers(Act(s, a), pid, listing, x)
  {
    if x !in s.rows {
      GoneNext(s, a, x);
    }
    if a.Step? && a.pid == pid {
      ClearedNext(s, pid, a.e, listing, x);
    } else {
      ClearedLess(s.rows, Act(s, a).rows, s.procs[pid].boot, listing, x);
    }
  }

  /**
   Once recovery has gone through the rows it listed, the unreadable ones are deleted, and so
   are those it dropped because their cycle was queued already.
   */
  lemma RecoveryCleansUp(ss: seq<System>, acts: seq<Action>, i: nat, j: nat, pid: Pid, x: Id)
    requires IsRun(ss, acts) && i < j < |ss| && pid in ss[i].procs && pid in ss[j].procs
    requires acts[i].Step? && acts[i].pid == pid && acts[i].e.BootList? && ss[i].kind.Db? && x in ss[i].rows
    requires ss[j].procs[pid].boot.Starting? && !HasNext(ss[j].procs[pid].boot)
    ensures ss[i].rows[x].ticket.Err? ==> x !in ss[j].rows
    ensures var boot := ss[j].procs[pid].boot;
            forall m :: 0 <= m < |boot.pending| && m < |boot.fates| && boot.pending[m].id == x && boot.fates[m].Dropped? ==>
              x !in ss[j].rows
  {
    var rows := acts[i].e.rows;
    NextOf(ss, acts, i);
    ClearsFromStart(ss, acts, i, pid, rows, x);
    ClearedSoFar(ss, acts, i + 1, j, pid, rows, x);
    var n :| 0 <= n < |acts[i].e.rows| && acts[i].e.rows[n].0 == x;
  }

  /**
   The store and the ids never hold a process up: what it can do by itself it can do in the
   system, a claim gets exactly one answer, a crash can come at any moment, and a new process can
   always join, with any bound of at least one.
   */
  lemma NothingIsBlocked(s: System, pid: Pid, e: Event, newPid: Pid, maxFinished: nat, maxConcurrent: nat)
    requires pid in s.procs && Enabled(s.procs[pid], e)
    ensures !e.Start? && !e.Claim? && !e.BootList? ==> Can(s, Step(pid, e))
    ensures e.Start? && e.id !in s.ids ==> Can(s, Step(pid, e))
    ensures e.Claim? ==> (Can(s, Step(pid, Claim(e.id, true))) <==> !Can(s, Step(pid, Claim(e.id, false))))
    ensures e.BootList? && s.kind.Db? && IsListing(e.rows, s.rows) ==> Can(s, Step(pid, e))
    ensures Can(s, Crash(pid))
    ensures newPid !in s.pids && maxFinished >= 1 ==> Can(s, Spawn(newPid, map[], maxFinished, maxConcurrent))
  {
  }

  // ---- crashes, and sizes that cannot be read ----

  /** A process that crashed is gone for good. */
  lemma {:induction false} CrashedIsGone(ss: seq<System>, acts: seq<Action>, k: nat, j: nat, pid: Pid)
    requires IsRun(ss, acts) && k < |acts| && k < j < |ss| && acts[k] == Crash(pid)
    ensures pid !in ss[j].procs && pid in ss[j].pids
    decreases j
  {
    NextOf(ss, acts, j - 1);
    RunHolds(ss, acts, j - 1);
    if k < j - 1 {
      CrashedIsGone(ss, acts, k, j - 1, pid);
    }
  }

  /**
   When the events file's size cannot be read, a run's events start at the beginning of the file,
   and its range ends where it starts; without an events file there is no range.
   */
  lemma UnreadSizes(p: Process, x: Id)
    requires x in p.tasks
    ensures Enabled(p, EventsStart(x, false)) ==>
              var q := Apply(p, EventsStart(x, false)); x in q.tasks && q.tasks[x].x.startOffset == 0 && q.tasks[x].x.hasEvents
    ensures Enabled(p, EventsEnd(x, false)) ==>
              var q := Apply(p, EventsEnd(x, false));
              x in q.tasks && (p.tasks[x].x.hasEvents ==> q.tasks[x].x.endOffset == Some(p.tasks[x].x.startOffset))
    ensures !p.tasks[x].x.hasEvents ==>
              forall readable :: Enabled(p, EventsEnd(x, readable)) ==>
                x in Apply(p, EventsEnd(x, readable)).tasks
                && Apply(p, EventsEnd(x, readable)).tasks[x].x.endOffset == p.tasks[x].x.endOffset
  {
  }
}
