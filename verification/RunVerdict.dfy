/**
 What becomes of an execution, told from the events of its process alone: what a stop request
 does to a running run, what a cancel does to a queued one, and what its final status says.
 */
module RunVerdict {
  import opened Wrappers
  import opened RunQueue
  import opened Registry
  import opened RunProcess
  import opened RunSystem

  // Process pid did e before step n.
  ghost predicate Did(acts: seq<Action>, n: nat, pid: Pid, e: Event) {
    exists k :: 0 <= k < n <= |acts| && acts[k] == Step(pid, e)
  }

  lemma DidMore(acts: seq<Action>, n: nat, pid: Pid, e: Event)
    requires 0 < n <= |acts|
    ensures Did(acts, n, pid, e) <==> Did(acts, n - 1, pid, e) || acts[n - 1] == Step(pid, e)
  {
  }

  // Process pid holds x.
  ghost predicate Tracks(s: System, pid: Pid, x: Id) {
    pid in s.procs && x in s.procs[pid].tasks
  }

  ghost function TaskOf(s: System, pid: Pid, x: Id): Task
    requires Tracks(s, pid, x)
  {
    s.procs[pid].tasks[x]
  }

  // ---- what one event does to what an execution has to tell ----

  // The outcome is settled: it is on its way to `done`, or there.
  predicate Settled(t: Task, outcome: Status) {
    ((t.pc.Ending? || t.pc.Ended? || t.pc.Released?) && t.pc.outcome == outcome)
    || (t.pc.Finished? && t.x.status == outcome)
  }

  predicate Settling(e: Event, x: Id, outcome: Status) {
    match e
    case RunEnds(id, o) => id == x && o == outcome
    case ClaimRaises(id, _) => id == x && outcome == Failed
    case CancelClaim(id) => id == x && outcome == Cancelled
    case CancelClaimRaises(id, _) => id == x && outcome == Cancelled
    case _ => false
  }

  lemma SettledBy(e: Event, x: Id, outcome: Status)
    requires Settling(e, x, outcome)
    ensures e.RunEnds? ==> e == RunEnds(x, outcome)
    ensures !e.RunEnds? && outcome == Cancelled ==> (e.CancelClaim? || e.CancelClaimRaises?) && e.id == x
  {
  }

  // From t to u, one event about x.
  ghost predicate Tells(t: Task, u: Task, e: Event, x: Id) {
    && (u.x.stopped <==> t.x.stopped || e == RequestStop(x))
    && (u.x.status.Queued? <==> t.x.status.Queued? && e != BeginJob(x) && e != Cancel(x))
    && (forall o :: Settled(u, o) <==> Settled(t, o) || Settling(e, x, o))
  }

  lemma TellsBeforeRun(p: Process, e: Event, x: Id)
    requires Enabled(p, e) && x in p.tasks && Placed(p, x) && Subject(p, e) == Some(x) && BeforeRun(e)
    ensures x in Apply(p, e).tasks && Tells(p.tasks[x], Apply(p, e).tasks[x], e, x)
  {
    if IsQueued(e) || Leaves(e) {
      TellsQueued(p, e, x);
    } else if e.Take? || e.BeginJob? {
      TellsTaken(p, e, x);
    } else {
      TellsClaimed(p, e, x);
    }
  }

  lemma TellsQueued(p: Process, e: Event, x: Id)
    requires Enabled(p, e) && x in p.tasks && Placed(p, x) && Subject(p, e) == Some(x) && (IsQueued(e) || Leaves(e))
    ensures x in Apply(p, e).tasks && Tells(p.tasks[x], Apply(p, e).tasks[x], e, x)
  {
    OnlyPcMoves(p, e, x);
    assert !Apply(p, e).tasks[x].pc.Finished? && !p.tasks[x].pc.Finished?;
  }

  lemma TellsTaken(p: Process, e: Event, x: Id)
    requires Enabled(p, e) && x in p.tasks && Placed(p, x) && Subject(p, e) == Some(x) && (e.Take? || e.BeginJob?)
    ensures x in Apply(p, e).tasks && Tells(p.tasks[x], Apply(p, e).tasks[x], e, x)
  {
  }

  lemma TellsClaimed(p: Process, e: Event, x: Id)
    requires Enabled(p, e) && x in p.tasks && Placed(p, x) && Subject(p, e) == Some(x) && Claims(e)
    ensures x in Apply(p, e).tasks && Tells(p.tasks[x], Apply(p, e).tasks[x], e, x)
  {
  }

  lemma TellsFromRun(p: Process, e: Event, x: Id)
    requires Enabled(p, e) && x in p.tasks && Placed(p, x) && Subject(p, e) == Some(x)
    requires !Enters(e) && !BeforeRun(e)
    ensures x in Apply(p, e).tasks && Tells(p.tasks[x], Apply(p, e).tasks[x], e, x)
  {
    if IsCancelled(e) {
      TellsCancelled(p, e, x);
    } else {
      TellsRun(p, e, x);
    }
  }

  lemma TellsCancelled(p: Process, e: Event, x: Id)
    requires Enabled(p, e) && x in p.tasks && Placed(p, x) && Subject(p, e) == Some(x) && IsCancelled(e)
    ensures x in Apply(p, e).tasks && Tells(p.tasks[x], Apply(p, e).tasks[x], e, x)
  {
  }

  lemma TellsRun(p: Process, e: Event, x: Id)
    requires Enabled(p, e) && x in p.tasks && Placed(p, x) && Subject(p, e) == Some(x)
    requires !Enters(e) && !BeforeRun(e) && !IsCancelled(e)
    ensures x in Apply(p, e).tasks && Tells(p.tasks[x], Apply(p, e).tasks[x], e, x)
  {
  }

  lemma EventTells(p: Process, e: Event, x: Id)
    requires Inv(p) && Fair(p, e) && x in p.tasks
    ensures x in Apply(p, e).tasks && Tells(p.tasks[x], Apply(p, e).tasks[x], e, x)
  {
    assert Placed(p, x);
    if e.BootStart? {
      NextIsNew(p.boot, p.tasks);
    }
    if Subject(p, e) != Some(x) {
      OthersTell(p, e, x);
    } else if BeforeRun(e) {
      TellsBeforeRun(p, e, x);
    } else {
      TellsFromRun(p, e, x);
    }
  }

  lemma OthersTell(p: Process, e: Event, x: Id)
    requires Enabled(p, e) && x in p.tasks && Subject(p, e) != Some(x)
    ensures x in Apply(p, e).tasks && Tells(p.tasks[x], Apply(p, e).tasks[x], e, x)
  {
    OthersStay(p, e, x);
  }

  // ---- over whole runs ----

  // An execution that an event is about was in the process before, unless the event enters it.
  lemma OwnEventIsOfTask(ss: seq<System>, acts: seq<Action>, k: nat, pid: Pid, e: Event, x: Id)
    requires IsRun(ss, acts) && k < |acts| && acts[k] == Step(pid, e)
    requires !IsBoot(e) && !e.Start? && e.id == x
    ensures Tracks(ss[k], pid, x)
  {
    assert Can(ss[k], acts[k]);
    RunHolds(ss, acts, k);
    assert Placed(ss[k].procs[pid], x);
  }

  // What is told of x so far, by the events of its process.
  ghost predicate IsTold(s: System, acts: seq<Action>, n: nat, pid: Pid, x: Id)
    requires Tracks(s, pid, x)
  {
    IsToldOf(TaskOf(s, pid, x), acts, n, pid, x)
  }

  ghost predicate DidSettle(acts: seq<Action>, n: nat, pid: Pid, x: Id, o: Status) {
    exists k :: 0 <= k < n <= |acts| && acts[k].Step? && acts[k].pid == pid && Settling(acts[k].e, x, o)
  }

  // Nothing was done to x before it entered the process.
  lemma NothingBefore(ss: seq<System>, acts: seq<Action>, i: nat, pid: Pid, x: Id)
    requires IsRun(ss, acts) && i < |ss| && pid in ss[i].procs && x !in ss[i].procs[pid].tasks
    ensures forall k :: 0 <= k < i && acts[k].Step? && acts[k].pid == pid && !IsBoot(acts[k].e) && !acts[k].e.Start? ==>
              acts[k].e.id != x
  {
    forall k | 0 <= k < i && acts[k].Step? && acts[k].pid == pid && !IsBoot(acts[k].e) && !acts[k].e.Start?
      ensures acts[k].e.id != x
    {
      if acts[k].e.id == x {
        OwnEventIsOfTask(ss, acts, k, pid, acts[k].e, x);
        StatusAlongRun(ss, acts, k, i, pid, x);
      }
    }
  }

  lemma {:induction false} ToldByEvents(ss: seq<System>, acts: seq<Action>, i: nat, pid: Pid, x: Id)
    requires IsRun(ss, acts) && i < |ss| && Tracks(ss[i], pid, x)
    ensures IsTold(ss[i], acts, i, pid, x)
  {
    assert i > 0;
    assert Can(ss[i - 1], acts[i - 1]) && ss[i] == Act(ss[i - 1], acts[i - 1]);
    RunHolds(ss, acts, i - 1);
    if Tracks(ss[i - 1], pid, x) {
      ToldByEvents(ss, acts, i - 1, pid, x);
      ProcessStep(ss, acts, i - 1, pid);
      ToldNext(ss[i - 1], ss[i], acts, i, pid, x);
    } else {
      EntersUntold(ss, acts, i, pid, x);
    }
  }

  lemma ToldNext(s: System, s': System, acts: seq<Action>, i: nat, pid: Pid, x: Id)
    requires 0 < i <= |acts| && Tracks(s, pid, x) && Tracks(s', pid, x) && IsTold(s, acts, i - 1, pid, x)
    requires Inv(s.procs[pid]) && Can(s, acts[i - 1]) && s' == Act(s, acts[i - 1])
    ensures IsTold(s', acts, i, pid, x)
  {
    DidMore(acts, i, pid, RequestStop(x));
    DidMore(acts, i, pid, BeginJob(x));
    DidMore(acts, i, pid, Cancel(x));
    DidSettleMore(acts, i, pid, x);
    if acts[i - 1].Step? && acts[i - 1].pid == pid {
      EventTells(s.procs[pid], acts[i - 1].e, x);
      ToldMore(TaskOf(s, pid, x), TaskOf(s', pid, x), acts, i, pid, x);
    } else {
      assert TaskOf(s', pid, x) == TaskOf(s, pid, x);
    }
  }

  // What is told of one task.
  ghost predicate IsToldOf(t: Task, acts: seq<Action>, n: nat, pid: Pid, x: Id) {
    && (t.x.stopped <==> Did(acts, n, pid, RequestStop(x)))
    && (t.x.status.Queued? <==> !Did(acts, n, pid, BeginJob(x)) && !Did(acts, n, pid, Cancel(x)))
    && (forall o :: Settled(t, o) <==> DidSettle(acts, n, pid, x, o))
  }

  lemma ToldMore(t: Task, u: Task, acts: seq<Action>, i: nat, pid: Pid, x: Id)
    requires 0 < i <= |acts| && acts[i - 1].Step? && acts[i - 1].pid == pid
    requires IsToldOf(t, acts, i - 1, pid, x) && Tells(t, u, acts[i - 1].e, x)
    ensures IsToldOf(u, acts, i, pid, x)
  {
    DidMore(acts, i, pid, RequestStop(x));
    DidMore(acts, i, pid, BeginJob(x));
    DidMore(acts, i, pid, Cancel(x));
    DidSettleMore(acts, i, pid, x);
  }

  lemma DidSettleMore(acts: seq<Action>, i: nat, pid: Pid, x: Id)
    requires 0 < i <= |acts|
    ensures forall o :: DidSettle(acts, i, pid, x, o) <==>
              DidSettle(acts, i - 1, pid, x, o)
              || (acts[i - 1].Step? && acts[i - 1].pid == pid && Settling(acts[i - 1].e, x, o))
  {
  }

  lemma EntersUntold(ss: seq<System>, acts: seq<Action>, i: nat, pid: Pid, x: Id)
    requires IsRun(ss, acts) && 0 < i < |ss| && Tracks(ss[i], pid, x) && !Tracks(ss[i - 1], pid, x)
    ensures IsTold(ss[i], acts, i, pid, x)
  {
    assert Can(ss[i - 1], acts[i - 1]) && ss[i] == Act(ss[i - 1], acts[i - 1]);
    assert acts[i - 1].Step? && acts[i - 1].pid == pid;
    NewIsUntold(ss[i - 1].procs[pid], acts[i - 1].e, x);
    NothingBefore(ss, acts, i - 1, pid, x);
    NothingDone(acts, i, pid, x);
  }

  lemma NewIsUntold(p: Process, e: Event, x: Id)
    requires Enabled(p, e) && x !in p.tasks && x in Apply(p, e).tasks
    ensures e.Start? || e.BootStart?
    ensures var t := Apply(p, e).tasks[x]; !t.x.stopped && t.x.status.Queued? && forall o :: !Settled(t, o)
  {
    OnlyEntersAdd(p, e, x);
  }

  lemma NothingDone(acts: seq<Action>, i: nat, pid: Pid, x: Id)
    requires i <= |acts|
    requires forall k :: 0 <= k < i && acts[k].Step? && acts[k].pid == pid && !IsBoot(acts[k].e) && !acts[k].e.Start?
               ==> k < i - 1 && acts[k].e.id != x
    ensures !Did(acts, i, pid, RequestStop(x)) && !Did(acts, i, pid, BeginJob(x)) && !Did(acts, i, pid, Cancel(x))
    ensures forall o :: !DidSettle(acts, i, pid, x, o)
  {
  }

  /**
   What an execution shows once it is done is what became of it: completed, cancelled or failed
   as its run ended, failed when its claim raised, cancelled when it was stopped while queued.
   */
  lemma FinalStatusIs(ss: seq<System>, acts: seq<Action>, i: nat, pid: Pid, x: Id)
    requires IsRun(ss, acts) && i < |ss| && Tracks(ss[i], pid, x) && TaskOf(ss[i], pid, x).x.done
    ensures var status := TaskOf(ss[i], pid, x).x.status;
            exists k :: 0 <= k < i && acts[k].Step? && acts[k].pid == pid
              && match acts[k].e
                 case RunEnds(id, outcome) => id == x && outcome == status
                 case ClaimRaises(id, _) => id == x && status == Failed
                 case CancelClaim(id) => id == x && status == Cancelled
                 case CancelClaimRaises(id, _) => id == x && status == Cancelled
                 case _ => false
  {
    ToldByEvents(ss, acts, i, pid, x);
    RunHolds(ss, acts, i);
    assert Placed(ss[i].procs[pid], x);
    var status := TaskOf(ss[i], pid, x).x.status;
    assert Settled(TaskOf(ss[i], pid, x), status);
    var k :| 0 <= k < i && acts[k].Step? && acts[k].pid == pid && Settling(acts[k].e, x, status);
  }

  // ---- stopping a run ----

  /**
   A stop request takes effect: a run that was asked to stop while it was running never ends as
   completed, and one ends as cancelled only if it was asked.
   */
  lemma StopTakesEffect(ss: seq<System>, acts: seq<Action>, k: nat, pid: Pid, x: Id, outcome: Status)
    requires IsRun(ss, acts) && k < |acts| && acts[k] == Step(pid, RunEnds(x, outcome))
    ensures outcome == Completed ==> forall j :: 0 <= j < k ==> acts[j] != Step(pid, RequestStop(x))
    ensures outcome == Cancelled ==> exists j :: 0 <= j < k && acts[j] == Step(pid, RequestStop(x))
  {
    OwnEventIsOfTask(ss, acts, k, pid, RunEnds(x, outcome), x);
    ToldByEvents(ss, acts, k, pid, x);
    assert Can(ss[k], acts[k]);
  }

  /**
   Carried to the final status: an execution shown as completed was not asked to stop before its
   run ended, and one shown as cancelled was asked before it ended, or was never run.
   */
  lemma ShownAsStopped(ss: seq<System>, acts: seq<Action>, i: nat, pid: Pid, x: Id)
    requires IsRun(ss, acts) && i < |ss| && Tracks(ss[i], pid, x) && TaskOf(ss[i], pid, x).x.done
    ensures var status := TaskOf(ss[i], pid, x).x.status;
            && (status == Completed ==>
                  exists k :: 0 <= k < i && acts[k] == Step(pid, RunEnds(x, Completed))
                              && forall j :: 0 <= j < k ==> acts[j] != Step(pid, RequestStop(x)))
            && (status == Cancelled ==>
                  || (forall k :: 0 <= k < |acts| ==> acts[k] != Step(pid, Claim(x, true)))
                  || exists j, k :: 0 <= j < k < i && acts[j] == Step(pid, RequestStop(x))
                                    && acts[k] == Step(pid, RunEnds(x, Cancelled)))
  {
    FinalStatusIs(ss, acts, i, pid, x);
    var status := TaskOf(ss[i], pid, x).x.status;
    var k :| 0 <= k < i && acts[k].Step? && acts[k].pid == pid && Settling(acts[k].e, x, status);
    SettledBy(acts[k].e, x, status);
    if acts[k].e.RunEnds? {
      StopTakesEffect(ss, acts, k, pid, x, status);
    } else if status == Cancelled {
      CancelerNeverRan(ss, acts, k, pid, x);
    }
  }

  // A cancel that got as far as the queued run's row won it, and it is never run.
  lemma CancelerNeverRan(ss: seq<System>, acts: seq<Action>, k: nat, pid: Pid, x: Id)
    requires IsRun(ss, acts) && k < |acts| && acts[k].Step? && acts[k].pid == pid
    requires (acts[k].e.CancelClaim? || acts[k].e.CancelClaimRaises?) && acts[k].e.id == x
    ensures forall j :: 0 <= j < |acts| ==> acts[j] != Step(pid, Claim(x, true))
  {
    CancelerIsUnrun(ss, acts, k, pid, x);
    forall j | 0 <= j < |acts| ensures acts[j] != Step(pid, Claim(x, true)) {
      UnrunNeverClaims(ss, acts, k, j, pid, x);
    }
  }

  lemma CancelerIsUnrun(ss: seq<System>, acts: seq<Action>, k: nat, pid: Pid, x: Id)
    requires IsRun(ss, acts) && k < |acts| && acts[k].Step? && acts[k].pid == pid
    requires (acts[k].e.CancelClaim? || acts[k].e.CancelClaimRaises?) && acts[k].e.id == x
    ensures Tracks(ss[k], pid, x)
    ensures TaskOf(ss[k], pid, x).x.status.Cancelled? && !TaskOf(ss[k], pid, x).entered
  {
    RunHolds(ss, acts, k);
    assert Can(ss[k], acts[k]);
    MarkedIsUnrun(ss[k].procs[pid], acts[k].e);
  }

  lemma MarkedIsUnrun(p: Process, e: Event)
    requires Inv(p) && Enabled(p, e) && (e.CancelClaim? || e.CancelClaimRaises?)
    ensures e.id in p.tasks && p.tasks[e.id].x.status.Cancelled? && !p.tasks[e.id].entered
  {
    assert Placed(p, e.id);
  }

  lemma UnrunNeverClaims(ss: seq<System>, acts: seq<Action>, k: nat, j: nat, pid: Pid, x: Id)
    requires IsRun(ss, acts) && k < |ss| && j < |acts| && Tracks(ss[k], pid, x)
    requires TaskOf(ss[k], pid, x).x.status.Cancelled? && !TaskOf(ss[k], pid, x).entered
    ensures acts[j] != Step(pid, Claim(x, true))
  {
    if acts[j] == Step(pid, Claim(x, true)) {
      ClaimEnters(ss, acts, j, pid, x);
      if j < k {
        EnteredStays(ss, acts, j + 1, k, pid, x);
      } else {
        StatusAlongRun(ss, acts, k, j, pid, x);
      }
    }
  }

  lemma ClaimEnters(ss: seq<System>, acts: seq<Action>, j: nat, pid: Pid, x: Id)
    requires IsRun(ss, acts) && j < |acts| && acts[j] == Step(pid, Claim(x, true))
    ensures Tracks(ss[j], pid, x) && TaskOf(ss[j], pid, x).x.status.Running?
    ensures Tracks(ss[j + 1], pid, x) && TaskOf(ss[j + 1], pid, x).entered
  {
    OwnEventIsOfTask(ss, acts, j, pid, Claim(x, true), x);
    RunHolds(ss, acts, j);
    assert Can(ss[j], acts[j]) && ss[j + 1] == Act(ss[j], acts[j]) && Placed(ss[j].procs[pid], x);
  }

  lemma {:induction false} EnteredStays(ss: seq<System>, acts: seq<Action>, i: nat, j: nat, pid: Pid, x: Id)
    requires IsRun(ss, acts) && i <= j < |ss| && Tracks(ss[i], pid, x) && pid in ss[j].procs
    requires TaskOf(ss[i], pid, x).entered
    ensures Tracks(ss[j], pid, x) && TaskOf(ss[j], pid, x).entered
  {
    if i < j {
      AliveBetween(ss, acts, i, j, j - 1, pid);
      EnteredStays(ss, acts, i, j - 1, pid, x);
      ProcessStep(ss, acts, j - 1, pid);
      if ss[j].procs[pid] != ss[j - 1].procs[pid] {
        StatusOnlyAdvances(ss[j - 1].procs[pid], acts[j - 1].e, x);
      }
    }
  }

  /** A running run that is asked to stop can end as cancelled, once its events file is known, and not as completed. */
  lemma StopIsPossible(p: Process, x: Id)
    requires p.boot.Serving? && x in p.tasks && Returned(p.tasks[x].pc)
    ensures Enabled(p, RequestStop(x))
    ensures var q := Apply(p, RequestStop(x));
            && x in q.tasks && q == p.(tasks := p.tasks[x := q.tasks[x]])
            && (At(p, x, Executing) && p.tasks[x].x.hasEvents ==>
                  Enabled(q, RunEnds(x, Cancelled)) && !Enabled(q, RunEnds(x, Completed)))
    ensures At(p, x, Executing) && p.tasks[x].x.hasEvents && !p.tasks[x].x.stopped ==>
              Enabled(p, RunEnds(x, Completed)) && !Enabled(p, RunEnds(x, Cancelled))
  {
  }

  // ---- cancelling a queued run ----

  // What happened to an execution it has been there since.
  lemma HeldSince(ss: seq<System>, acts: seq<Action>, k: nat, j: nat, i: nat, pid: Pid, e: Event, x: Id)
    requires IsRun(ss, acts) && k <= j <= i < |ss| && k < |acts| && Tracks(ss[i], pid, x)
    requires acts[k] == Step(pid, e) && !IsBoot(e) && !e.Start? && e.id == x
    ensures Tracks(ss[j], pid, x)
  {
    OwnEventIsOfTask(ss, acts, k, pid, e, x);
    AliveBetween(ss, acts, k, i, j, pid);
    StatusAlongRun(ss, acts, k, j, pid, x);
  }

  predicate CancelledUnrun(t: Task) {
    t.x.status.Cancelled? && !t.entered
  }

  lemma CancelWinsStep(p: Process, e: Event, x: Id)
    requires Inv(p) && Fair(p, e) && x in p.tasks
    requires CancelledUnrun(p.tasks[x]) || (e == Cancel(x) && p.tasks[x].x.status.Queued?)
    ensures x in Apply(p, e).tasks && CancelledUnrun(Apply(p, e).tasks[x])
  {
    assert Placed(p, x);
    StatusOnlyAdvances(p, e, x);
  }

  lemma {:induction false} CancelledBeforeBegin(ss: seq<System>, acts: seq<Action>, k: nat, i: nat, pid: Pid, x: Id)
    requires IsRun(ss, acts) && k < i < |ss| && Tracks(ss[i], pid, x)
    requires acts[k] == Step(pid, Cancel(x)) && !Did(acts, i, pid, BeginJob(x))
    ensures CancelledUnrun(TaskOf(ss[i], pid, x))
    decreases i
  {
    HeldSince(ss, acts, k, i - 1, i, pid, Cancel(x), x);
    BeganBefore(acts, i - 1, i, pid, x);
    if k < i - 1 {
      CancelledBeforeBegin(ss, acts, k, i - 1, pid, x);
    } else if first :| 0 <= first < k && acts[first] == Step(pid, Cancel(x)) {
      CancelledBeforeBegin(ss, acts, first, k, pid, x);
    } else {
      StillQueued(ss, acts, k, pid, x);
    }
    CancelledNext(ss, acts, i, pid, x);
  }

  lemma StillQueued(ss: seq<System>, acts: seq<Action>, k: nat, pid: Pid, x: Id)
    requires IsRun(ss, acts) && k < |ss| && Tracks(ss[k], pid, x)
    requires !Did(acts, k, pid, Cancel(x)) && !Did(acts, k, pid, BeginJob(x))
    ensures TaskOf(ss[k], pid, x).x.status.Queued?
  {
    ToldByEvents(ss, acts, k, pid, x);
  }

  lemma CancelledNext(ss: seq<System>, acts: seq<Action>, i: nat, pid: Pid, x: Id)
    requires IsRun(ss, acts) && 0 < i < |ss| && Tracks(ss[i - 1], pid, x) && Tracks(ss[i], pid, x)
    requires || CancelledUnrun(TaskOf(ss[i - 1], pid, x))
             || (acts[i - 1] == Step(pid, Cancel(x)) && TaskOf(ss[i - 1], pid, x).x.status.Queued?)
    ensures CancelledUnrun(TaskOf(ss[i], pid, x))
  {
    ProcessStep(ss, acts, i - 1, pid);
    assert Can(ss[i - 1], acts[i - 1]) && ss[i] == Act(ss[i - 1], acts[i - 1]);
    if acts[i - 1].Step? && acts[i - 1].pid == pid {
      CancelWinsStep(ss[i - 1].procs[pid], acts[i - 1].e, x);
    }
  }

  /**
   Exactly one of `cancel` and the worker wins a queued run, and the events say which: the one
   that comes first. A run cancelled before its worker began it is never claimed by the worker
   and, once done, is shown as cancelled; one whose worker began first goes on to its claim.
   */
  lemma WhoComesFirst(ss: seq<System>, acts: seq<Action>, k: nat, pid: Pid, x: Id)
    requires IsRun(ss, acts) && k < |acts|
    ensures acts[k] == Step(pid, Cancel(x)) && !Did(acts, k, pid, BeginJob(x)) ==>
              && (forall j, won :: 0 <= j < |acts| ==> acts[j] != Step(pid, Claim(x, won)))
              && (forall i :: k < i < |ss| && Tracks(ss[i], pid, x) ==> TaskOf(ss[i], pid, x).x.status == Cancelled)
    ensures acts[k] == Step(pid, BeginJob(x)) && !Did(acts, k, pid, Cancel(x)) && !Did(acts, k, pid, BeginJob(x)) ==>
              Tracks(ss[k + 1], pid, x) && Enabled(ss[k + 1].procs[pid], Claim(x, true))
  {
    assert Can(ss[k], acts[k]) && ss[k + 1] == Act(ss[k], acts[k]);
    if acts[k] == Step(pid, Cancel(x)) && !Did(acts, k, pid, BeginJob(x)) {
      CancelWon(ss, acts, k, pid, x);
    } else if acts[k] == Step(pid, BeginJob(x)) && !Did(acts, k, pid, Cancel(x)) && !Did(acts, k, pid, BeginJob(x)) {
      BeginWon(ss, acts, k, pid, x);
    }
  }

  lemma CancelWon(ss: seq<System>, acts: seq<Action>, k: nat, pid: Pid, x: Id)
    requires IsRun(ss, acts) && k < |acts| && acts[k] == Step(pid, Cancel(x)) && !Did(acts, k, pid, BeginJob(x))
    ensures forall j, won :: 0 <= j < |acts| ==> acts[j] != Step(pid, Claim(x, won))
    ensures forall i :: k < i < |ss| && Tracks(ss[i], pid, x) ==> TaskOf(ss[i], pid, x).x.status == Cancelled
  {
    CancelledNow(ss, acts, k, pid, x);
    forall i | k < i < |ss| && Tracks(ss[i], pid, x) ensures TaskOf(ss[i], pid, x).x.status == Cancelled {
      StatusAlongRun(ss, acts, k + 1, i, pid, x);
    }
    forall j, won | 0 <= j < |acts| ensures acts[j] != Step(pid, Claim(x, won)) {
      if acts[j] == Step(pid, Claim(x, won)) {
        ClaimIsOfRunning(ss, acts, j, won, pid, x);
        if j < k {
          ToldByEvents(ss, acts, j, pid, x);
          BeganBefore(acts, j, k, pid, x);
          var first :| 0 <= first < j && acts[first] == Step(pid, Cancel(x));
          CancelledBeforeBegin(ss, acts, first, j, pid, x);
        }
      }
    }
  }

  lemma CancelledNow(ss: seq<System>, acts: seq<Action>, k: nat, pid: Pid, x: Id)
    requires IsRun(ss, acts) && k < |acts| && acts[k] == Step(pid, Cancel(x)) && !Did(acts, k, pid, BeginJob(x))
    ensures Tracks(ss[k + 1], pid, x) && CancelledUnrun(TaskOf(ss[k + 1], pid, x))
  {
    OwnEventIsOfTask(ss, acts, k, pid, Cancel(x), x);
    assert Can(ss[k], acts[k]) && ss[k + 1] == Act(ss[k], acts[k]);
    StatusAlongRun(ss, acts, k, k + 1, pid, x);
    DidMore(acts, k + 1, pid, BeginJob(x));
    CancelledBeforeBegin(ss, acts, k, k + 1, pid, x);
  }

  lemma ClaimIsOfRunning(ss: seq<System>, acts: seq<Action>, j: nat, won: bool, pid: Pid, x: Id)
    requires IsRun(ss, acts) && j < |acts| && acts[j] == Step(pid, Claim(x, won))
    ensures Tracks(ss[j], pid, x) && TaskOf(ss[j], pid, x).x.status.Running?
  {
    OwnEventIsOfTask(ss, acts, j, pid, Claim(x, won), x);
    RunHolds(ss, acts, j);
    assert Can(ss[j], acts[j]) && Placed(ss[j].procs[pid], x);
  }

  lemma BeganBefore(acts: seq<Action>, j: nat, k: nat, pid: Pid, x: Id)
    requires j <= k <= |acts| && !Did(acts, k, pid, BeginJob(x))
    ensures !Did(acts, j, pid, BeginJob(x))
  {
  }

  lemma BeginWon(ss: seq<System>, acts: seq<Action>, k: nat, pid: Pid, x: Id)
    requires IsRun(ss, acts) && k < |acts| && acts[k] == Step(pid, BeginJob(x))
    requires !Did(acts, k, pid, Cancel(x)) && !Did(acts, k, pid, BeginJob(x))
    ensures Tracks(ss[k + 1], pid, x) && Enabled(ss[k + 1].procs[pid], Claim(x, true))
  {
    OwnEventIsOfTask(ss, acts, k, pid, BeginJob(x), x);
    RunHolds(ss, acts, k);
    var p := ss[k].procs[pid];
    assert Can(ss[k], acts[k]) && ss[k + 1] == Act(ss[k], acts[k]) && Placed(p, x);
    ToldByEvents(ss, acts, k, pid, x);
  }
}
