/**
 Any number of server processes that share one store, start, crash and recover its rows in
 any order. What holds in every run of the whole system follows from what each event keeps.
 */
module RunSystem {
  import opened Wrappers
  import opened RunQueue
  import opened Registry
  import opened RunProcess

  datatype StoreKind = Memory | Db

  type Pid = nat

  datatype System = System(
    kind: StoreKind,
    rows: map<Id, Row>,              // the queued_run table
    procs: map<Pid, Process>,        // the processes alive now
    pids: set<Pid>,                  // every process there ever was
    ids: set<Id>,                    // every execution id there ever was
    tickets: map<Id, RunTicket>,     // history: what each id was queued with
    ran: seq<Id>,                    // history: every entry into `_run_execution`
    removed: set<Id>)                // history: the ids whose row a `cancel` deleted

  datatype Action =
    | Spawn(pid: Pid, files: Files, maxFinished: nat, maxConcurrent: nat)
    | Crash(pid: Pid)
    | Step(pid: Pid, e: Event)

  ghost predicate Init(s: System) {
    && s.procs == map[] && s.pids == {} && s.ran == [] && s.removed == {}
    && s.rows.Keys <= s.ids && s.tickets.Keys <= s.ids
    && (s.kind.Memory? ==> s.rows == map[])
    && (forall x <- s.rows :: s.rows[x].ticket.Ok? ==> x in s.tickets && s.tickets[x] == s.rows[x].ticket.value)
  }

  // What the store and the uniqueness of new ids decide about an event.
  ghost predicate Allowed(s: System, p: Process, e: Event) {
    match e
    case Start(id, _, _) => id !in s.ids
    case Claim(id, won) => won <==> s.kind.Memory? || id in s.rows
    case BootList(rows) => if s.kind.Db? then IsListing(rows, s.rows) else rows == []
    case _ => true
  }

  ghost predicate Can(s: System, a: Action) {
    match a
    case Spawn(pid, files, maxFinished, maxConcurrent) =>
      && pid !in s.pids && maxFinished >= 1
      && forall c <- files :: forall k :: 0 <= k < |files[c]| ==> files[c][k].owner.None?
    case Crash(pid) => pid in s.procs
    case Step(pid, e) => pid in s.procs && Enabled(s.procs[pid], e) && Allowed(s, s.procs[pid], e)
  }

  // The id whose row an event deletes, if it is there.
  function Deletes(p: Process, e: Event): Option<Id>
    requires Enabled(p, e)
  {
    match e
    case Claim(id, _) => Some(id)
    case ClaimRaises(id, gone) => if gone then Some(id) else None
    case CancelClaim(id) => Some(id)
    case CancelClaimRaises(id, gone) => if gone then Some(id) else None
    case BootParse =>
      var (id, row) := p.boot.listing[p.boot.parsed];
      if row.ticket.Err? then Some(id) else None
    case BootDrop => Some(Next(p.boot).id)
    case _ => None
  }

  // The id whose row an event inserts.
  function Inserts(e: Event): Option<Id> {
    match e
    case Add(id) => Some(id)
    case AddRaises(id, kept) => if kept then Some(id) else None
    case _ => None
  }

  function NextRows(s: System, p: Process, e: Event): map<Id, Row>
    requires Enabled(p, e)
  {
    if s.kind.Memory? then s.rows
    else if Deletes(p, e).Some? then s.rows - {Deletes(p, e).value}
    else if Inserts(e).Some? then
      s.rows[e.id := Row(Ok(p.tasks[e.id].ticket), p.tasks[e.id].createdAt)]
    else s.rows
  }

  function Act(s: System, a: Action): System
    requires Can(s, a)
  {
    match a
    case Spawn(pid, files, maxFinished, maxConcurrent) =>
      s.(procs := s.procs[pid := FreshProcess(files, maxFinished, maxConcurrent)], pids := s.pids + {pid})
    case Crash(pid) => s.(procs := s.procs - {pid})
    case Step(pid, e) =>
      var p := s.procs[pid];
      s.(procs := s.procs[pid := Apply(p, e)],
         rows := NextRows(s, p, e),
         ids := if e.Start? then s.ids + {e.id} else s.ids,
         tickets := if e.Start? then s.tickets[e.id := e.ticket] else s.tickets,
         ran := if e.Claim? && e.won then s.ran + [e.id] else s.ran,
         removed := if (e.CancelClaim? || (e.CancelClaimRaises? && e.rowGone)) && e.id in s.rows
                    then s.removed + {e.id} else s.removed)
  }

  // ---- the invariant of the system ----

  // What recovery still holds of an id it listed.
  ghost predicate Listed(b: Boot, x: Id, t: RunTicket) {
    match b
    case NotBooted => false
    case Parsing(listing, _) => exists i :: 0 <= i < |listing| && listing[i].0 == x && listing[i].1.ticket == Ok(t)
    case Starting(pending, _) => exists i :: 0 <= i < |pending| && pending[i].id == x && pending[i].ticket == t
    case Queueing(pending, _) => exists i :: 0 <= i < |pending| && pending[i].id == x && pending[i].ticket == t
    case Dropping(pending, _) => exists i :: 0 <= i < |pending| && pending[i].id == x && pending[i].ticket == t
    case Serving(_, _) => false
  }

  // x was not added to the table yet, or its claim has not been decided in this process.
  predicate Undecided(pc: Pc) {
    pc.Registered? || pc.Stored? || pc.Waiting? || pc.Claiming?
  }

  // What process p knows of x agrees with the shared store and the history.
  ghost predicate Agrees(s: System, p: Process, x: Id) {
    && TaskAgrees(s, p, x)
    && (forall t {:trigger Listed(p.boot, x, t)} :: Listed(p.boot, x, t) ==>
          s.kind.Db? && x in s.tickets && s.tickets[x] == t && x in s.ids)
  }

  predicate TaskAgrees(s: System, p: Process, x: Id) {
    && (x in p.tasks ==> x in s.ids && x in s.tickets && p.tasks[x].ticket == s.tickets[x])
    && (At(p, x, Registered) ==> x !in s.rows && x !in s.ran && x !in s.removed)
    && (s.kind.Memory? && x in p.tasks && Undecided(p.tasks[x].pc) ==> x !in s.ran)
  }

  ghost predicate Knows(p: Process, x: Id) {
    x in p.tasks || exists t :: Listed(p.boot, x, t)
  }

  // A row is the right to run: whoever deletes it is the only one to enter the run.
  ghost predicate Shared(s: System, x: Id) {
    && (x in s.rows ==> s.kind.Db? && x in s.ids && x !in s.ran && x !in s.removed
                        && (s.rows[x].ticket.Ok? ==> x in s.tickets && s.tickets[x] == s.rows[x].ticket.value))
    && (x in s.ran ==> x in s.ids && x !in s.removed)
    && (x in s.removed ==> x in s.ids && s.kind.Db?)
    && (x in s.tickets ==> x in s.ids)
    && (forall a, b {:trigger Separate(s, a, b, x)} :: Separate(s, a, b, x))
  }

  // In memory no id is known to two processes; in the database not before its row exists.
  ghost predicate Separate(s: System, a: Pid, b: Pid, x: Id) {
    a in s.procs && b in s.procs && a != b && Knows(s.procs[b], x) ==>
      !At(s.procs[a], x, Registered) && (s.kind.Memory? ==> !Knows(s.procs[a], x))
  }

  ghost predicate SystemInv(s: System) {
    && s.procs.Keys <= s.pids
    && (forall a {:trigger s.procs[a]} :: a in s.procs ==> Inv(s.procs[a]))
    && (forall a, x {:trigger Agrees(s, s.procs[a], x)} :: a in s.procs ==> Agrees(s, s.procs[a], x))
    && (forall x {:trigger Shared(s, x)} :: Shared(s, x))
    && Distinct(s.ran)
  }

  lemma InitHolds(s: System)
    requires Init(s)
    ensures SystemInv(s)
  {
    forall x ensures Shared(s, x) {
    }
  }

  lemma AgreesFresh(s: System, p: Process, x: Id)
    requires p.tasks == map[] && p.boot.NotBooted?
    ensures Agrees(s, p, x)
  {
  }

  lemma AgreesSame(s: System, s': System, p: Process, x: Id)
    requires Agrees(s, p, x)
    requires s'.kind == s.kind && s'.rows == s.rows && s'.ids == s.ids && s'.tickets == s.tickets
    requires s'.ran == s.ran && s'.removed == s.removed
    ensures Agrees(s', p, x)
  {
  }

  lemma SpawnKeeps(s: System, a: Action)
    requires SystemInv(s) && Can(s, a) && a.Spawn?
    ensures SystemInv(Act(s, a))
  {
    var s' := Act(s, a);
    var newborn := FreshProcess(a.files, a.maxFinished, a.maxConcurrent);
    FreshHolds(a.files, a.maxFinished, a.maxConcurrent);
    forall b, x | b in s'.procs ensures Agrees(s', s'.procs[b], x) {
      if b == a.pid {
        AgreesFresh(s', newborn, x);
      } else {
        AgreesSame(s, s', s.procs[b], x);
      }
    }
    forall b | b in s'.procs ensures Inv(s'.procs[b]) {
      assert b == a.pid || s'.procs[b] == s.procs[b];
    }
    forall x ensures Shared(s', x) {
      SharedSubset(s, s', x);
    }
  }

  lemma CrashKeeps(s: System, a: Action)
    requires SystemInv(s) && Can(s, a) && a.Crash?
    ensures SystemInv(Act(s, a))
  {
    var s' := Act(s, a);
    forall b, x | b in s'.procs ensures Agrees(s', s'.procs[b], x) {
      assert Agrees(s, s.procs[b], x);
    }
    forall x ensures Shared(s', x) {
      SharedSubset(s, s', x);
    }
  }

  // A process that knows nothing, or one process fewer, changes nothing for the others.
  lemma SharedSubset(s: System, s': System, x: Id)
    requires Shared(s, x) && s' == s.(procs := s'.procs, pids := s'.pids)
    requires forall b <- s'.procs :: (b in s.procs && s'.procs[b] == s.procs[b])
                                     || (s'.procs[b].tasks == map[] && s'.procs[b].boot.NotBooted?)
    ensures Shared(s', x)
  {
    forall b, c ensures Separate(s', b, c, x) {
      assert Separate(s, b, c, x);
    }
  }

  // What an event can teach its process about x.
  lemma LearnsListed(p: Process, e: Event, x: Id, t: RunTicket)
    requires Enabled(p, e) && Listed(Apply(p, e).boot, x, t)
    ensures Listed(p.boot, x, t)
            || (e.BootList? && exists i :: 0 <= i < |e.rows| && e.rows[i].0 == x && e.rows[i].1.ticket == Ok(t))
  {
    if !IsBoot(e) {
      OnlyRecoveryMovesBoot(p, e);
    } else if e.BootParsed? {
      ReadableIsListed(p.boot.listing, x, t);
    }
  }

  lemma OnlyRecoveryMovesBoot(p: Process, e: Event)
    requires Enabled(p, e) && !IsBoot(e)
    ensures Apply(p, e).boot == p.boot
  {
  }

  lemma ReadableIsListed(listing: Listing, x: Id, t: RunTicket)
    requires Listed(Starting(Readable(listing), []), x, t)
    ensures Listed(Parsing(listing, |listing|), x, t)
  {
    var k :| 0 <= k < |Readable(listing)| && Readable(listing)[k].id == x && Readable(listing)[k].ticket == t;
    assert listing[Source(listing, k)].1.ticket == Ok(t);
  }

  lemma LearnsTask(p: Process, e: Event, x: Id)
    requires Inv(p) && Fair(p, e) && x in Apply(p, e).tasks
    ensures x in p.tasks || (e.Start? && e.id == x && At(Apply(p, e), x, Registered))
            || (e.BootStart? && Next(p.boot).id == x && At(Apply(p, e), x, Stored))
    ensures x in p.tasks ==> Apply(p, e).tasks[x].ticket == p.tasks[x].ticket
    ensures x !in p.tasks && e.Start? ==> Apply(p, e).tasks[x].ticket == e.ticket
    ensures x !in p.tasks && e.BootStart? ==> Listed(p.boot, x, Apply(p, e).tasks[x].ticket)
  {
    if e.BootStart? {
      NextIsNew(p.boot, p.tasks);
    }
    TaskStep(p, e, x);
  }

  // A decided execution stays decided, and a claim that won decides it.
  lemma StaysDecided(p: Process, e: Event, x: Id)
    requires Inv(p) && Fair(p, e) && x in p.tasks && Undecided(Apply(p, e).tasks[x].pc)
    ensures Undecided(p.tasks[x].pc) && !(e.Claim? && e.id == x)
    ensures At(Apply(p, e), x, Registered) ==> At(p, x, Registered)
    ensures Inserts(e) == Some(x) ==> !At(Apply(p, e), x, Registered)
  {
    assert Placed(p, x);
    if e.BootStart? {
      NextIsNew(p.boot, p.tasks);
    }
    if Subject(p, e) != Some(x) {
      OthersStay(p, e, x);
    } else {
      SubjectStaysDecided(p, e, x);
    }
  }

  lemma SubjectStaysDecided(p: Process, e: Event, x: Id)
    requires Enabled(p, e) && x in p.tasks && Placed(p, x) && Subject(p, e) == Some(x)
    requires e.BootStart? ==> x !in p.tasks
    requires x in Apply(p, e).tasks && Undecided(Apply(p, e).tasks[x].pc)
    ensures Undecided(p.tasks[x].pc) && !e.Claim?
    ensures At(Apply(p, e), x, Registered) ==> At(p, x, Registered) && Inserts(e).None?
  {
    if BeforeRun(e) {
      StaysDecidedBeforeRun(p, e, x);
    } else {
      RunStaysDecided(p, e, x);
    }
  }

  lemma StaysDecidedBeforeRun(p: Process, e: Event, x: Id)
    requires Enabled(p, e) && x in p.tasks && Placed(p, x) && Subject(p, e) == Some(x) && BeforeRun(e)
    requires x in Apply(p, e).tasks && Undecided(Apply(p, e).tasks[x].pc)
    ensures Undecided(p.tasks[x].pc) && !e.Claim?
    ensures At(Apply(p, e), x, Registered) ==> At(p, x, Registered) && Inserts(e).None?
  {
    if IsQueued(e) {
      QueuedStaysDecided(p, e, x);
    } else {
      TakenStaysDecided(p, e, x);
    }
  }

  lemma TakenStaysDecided(p: Process, e: Event, x: Id)
    requires Enabled(p, e) && x in p.tasks && Placed(p, x) && Subject(p, e) == Some(x)
    requires BeforeRun(e) && !IsQueued(e)
    requires x in Apply(p, e).tasks && Undecided(Apply(p, e).tasks[x].pc)
    ensures Undecided(p.tasks[x].pc) && !e.Claim? && Inserts(e).None?
    ensures At(Apply(p, e), x, Registered) ==> At(p, x, Registered)
  {
    if e.Take? || e.BeginJob? {
      BegunStaysDecided(p, e, x);
    } else {
      GoneStaysDecided(p, e, x);
    }
  }

  lemma BegunStaysDecided(p: Process, e: Event, x: Id)
    requires Enabled(p, e) && x in p.tasks && Placed(p, x) && Subject(p, e) == Some(x) && (e.Take? || e.BeginJob?)
    requires x in Apply(p, e).tasks && Undecided(Apply(p, e).tasks[x].pc)
    ensures Undecided(p.tasks[x].pc) && (At(Apply(p, e), x, Registered) ==> At(p, x, Registered))
  {
  }

  lemma GoneStaysDecided(p: Process, e: Event, x: Id)
    requires Enabled(p, e) && x in p.tasks && Subject(p, e) == Some(x)
    requires Leaves(e) || e.Claim? || e.ClaimRaises?
    ensures x in Apply(p, e).tasks ==> !Undecided(Apply(p, e).tasks[x].pc)
  {
  }

  lemma QueuedStaysDecided(p: Process, e: Event, x: Id)
    requires Enabled(p, e) && x in p.tasks && Subject(p, e) == Some(x) && IsQueued(e)
    ensures x in Apply(p, e).tasks && Undecided(p.tasks[x].pc) && !At(Apply(p, e), x, Registered)
  {
  }

  lemma RunStaysDecided(p: Process, e: Event, x: Id)
    requires Enabled(p, e) && x in p.tasks && Placed(p, x) && Subject(p, e) == Some(x) && !BeforeRun(e)
    requires e.BootStart? ==> x !in p.tasks
    requires x in Apply(p, e).tasks && Undecided(Apply(p, e).tasks[x].pc)
    ensures Undecided(p.tasks[x].pc)
    ensures At(Apply(p, e), x, Registered) ==> At(p, x, Registered) && Inserts(e).None?
  {
  }

  // Shorthand for the state one process event starts from.
  ghost predicate Ready(s: System, pid: Pid, e: Event) {
    pid in s.procs && Inv(s.procs[pid]) && Fair(s.procs[pid], e) && Allowed(s, s.procs[pid], e)
  }

  lemma KnowsStep(s: System, pid: Pid, e: Event, x: Id)
    requires Ready(s, pid, e) && Knows(Apply(s.procs[pid], e), x)
    ensures Knows(s.procs[pid], x) || (e.Start? && e.id == x && x !in s.ids)
            || (e.BootList? && s.kind.Db? && x in s.rows)
  {
    var p := s.procs[pid];
    var q := Apply(p, e);
    if x in q.tasks {
      LearnsTask(p, e, x);
    } else {
      var t :| Listed(q.boot, x, t);
      LearnsListed(p, e, x, t);
    }
  }

  // What an event does to the shared state, as far as id x is concerned.
  ghost predicate StoreMoves(s: System, s': System, p: Process, e: Event, x: Id) {
    var claims := e.Claim? && e.won && e.id == x;
    var starts := e.Start? && e.id == x;
    && s'.kind == s.kind
    && (x in s'.rows ==>
          || (x in s.rows && s'.rows[x] == s.rows[x] && !claims)
          || (s.kind.Db? && Inserts(e) == Some(x) && At(p, x, Registered)
              && s'.rows[x].ticket == Ok(p.tasks[x].ticket)))
    && (x in s'.ran <==> x in s.ran || claims)
    && (claims ==> At(p, x, Claiming) && (s.kind.Db? ==> x in s.rows))
    && (x in s'.removed <==> x in s.removed || (x in s.rows && (e.CancelClaim? || e.CancelClaimRaises?) && x !in s'.rows))
    && (x in s'.ids <==> x in s.ids || starts)
    && (starts ==> x !in s.ids && x in s'.tickets && s'.tickets[x] == e.ticket)
    && (!starts ==> (x in s'.tickets <==> x in s.tickets))
    && (!starts && x in s.tickets ==> s'.tickets[x] == s.tickets[x])
  }

  // The events by what they do to the table.
  predicate MayInsert(e: Event) { e.Add? || e.AddRaises? }
  predicate MayDelete(e: Event) {
    e.Claim? || e.ClaimRaises? || e.CancelClaim? || e.CancelClaimRaises? || e.BootParse? || e.BootDrop?
  }

  lemma StoreInserts(s: System, pid: Pid, e: Event, x: Id)
    requires pid in s.procs && Enabled(s.procs[pid], e) && Allowed(s, s.procs[pid], e)
    requires s.kind.Memory? ==> s.rows == map[]
    requires MayInsert(e)
    ensures StoreMoves(s, Act(s, Step(pid, e)), s.procs[pid], e, x)
  {
  }

  lemma StoreDeletes(s: System, pid: Pid, e: Event, x: Id)
    requires pid in s.procs && Enabled(s.procs[pid], e) && Allowed(s, s.procs[pid], e)
    requires s.kind.Memory? ==> s.rows == map[]
    requires MayDelete(e)
    ensures StoreMoves(s, Act(s, Step(pid, e)), s.procs[pid], e, x)
  {
  }

  lemma StoreStarts(s: System, pid: Pid, e: Event, x: Id)
    requires pid in s.procs && Enabled(s.procs[pid], e) && Allowed(s, s.procs[pid], e)
    requires s.kind.Memory? ==> s.rows == map[]
    requires e.Start?
    ensures StoreMoves(s, Act(s, Step(pid, e)), s.procs[pid], e, x)
  {
  }

  lemma StoreStays(s: System, pid: Pid, e: Event, x: Id)
    requires pid in s.procs && Enabled(s.procs[pid], e) && Allowed(s, s.procs[pid], e)
    requires s.kind.Memory? ==> s.rows == map[]
    requires !MayInsert(e) && !MayDelete(e) && !e.Start?
    ensures StoreMoves(s, Act(s, Step(pid, e)), s.procs[pid], e, x)
  {
  }

  lemma StoreStep(s: System, pid: Pid, e: Event, x: Id)
    requires pid in s.procs && Enabled(s.procs[pid], e) && Allowed(s, s.procs[pid], e)
    requires s.kind.Memory? ==> s.rows == map[]
    ensures StoreMoves(s, Act(s, Step(pid, e)), s.procs[pid], e, x)
  {
    if MayInsert(e) {
      StoreInserts(s, pid, e, x);
    } else if MayDelete(e) {
      StoreDeletes(s, pid, e, x);
    } else if e.Start? {
      StoreStarts(s, pid, e, x);
    } else {
      StoreStays(s, pid, e, x);
    }
  }

  lemma KnownIsUsed(s: System, p: Process, x: Id)
    requires Agrees(s, p, x) && Knows(p, x)
    ensures x in s.ids
  {
  }

  lemma TaskAgreesMover(s: System, s': System, pid: Pid, e: Event, x: Id)
    requires Ready(s, pid, e) && Agrees(s, s.procs[pid], x) && Shared(s, x)
    requires StoreMoves(s, s', s.procs[pid], e, x)
    ensures TaskAgrees(s', Apply(s.procs[pid], e), x)
  {
    var p := s.procs[pid];
    var q := Apply(p, e);
    if x in q.tasks {
      LearnsTask(p, e, x);
      if x in p.tasks && Undecided(q.tasks[x].pc) {
        StaysDecided(p, e, x);
      }
    }
  }

  lemma AgreesMover(s: System, s': System, pid: Pid, e: Event, x: Id)
    requires Ready(s, pid, e) && Agrees(s, s.procs[pid], x) && Shared(s, x)
    requires StoreMoves(s, s', s.procs[pid], e, x)
    ensures Agrees(s', Apply(s.procs[pid], e), x)
  {
    var p := s.procs[pid];
    var q := Apply(p, e);
    TaskAgreesMover(s, s', pid, e, x);
    forall t | Listed(q.boot, x, t) ensures s.kind.Db? && x in s'.tickets && s'.tickets[x] == t && x in s'.ids {
      LearnsListed(p, e, x, t);
      assert Listed(p.boot, x, t) || s.rows[x].ticket == Ok(t);
    }
  }

  lemma AgreesOther(s: System, s': System, pid: Pid, e: Event, b: Pid, x: Id)
    requires Ready(s, pid, e) && b in s.procs && b != pid && Agrees(s, s.procs[b], x)
    requires StoreMoves(s, s', s.procs[pid], e, x) && Separate(s, b, pid, x)
    ensures Agrees(s', s.procs[b], x)
  {
    forall t | Listed(s.procs[b].boot, x, t) ensures s.kind.Db? && x in s'.tickets && s'.tickets[x] == t && x in s'.ids {
    }
  }

  // The pairwise part of `Shared` for two processes of which one moved.
  lemma SeparateStep(s: System, s': System, pid: Pid, e: Event, x: Id, a: Pid, b: Pid)
    requires Ready(s, pid, e) && s'.kind == s.kind && s'.procs == s.procs[pid := Apply(s.procs[pid], e)]
    requires Separate(s, a, b, x)
    requires a in s.procs ==> Agrees(s, s.procs[a], x)
    requires b in s.procs ==> Agrees(s, s.procs[b], x)
    ensures Separate(s', a, b, x)
  {
    if a in s.procs && b in s.procs && a != b && Knows(s'.procs[b], x) {
      var p := s.procs[pid];
      if b == pid {
        KnowsStep(s, pid, e, x);
        if Knows(s.procs[a], x) {
          KnownIsUsed(s, s.procs[a], x);
        }
      } else if a == pid {
        KnownIsUsed(s, s.procs[b], x);
        if Knows(Apply(p, e), x) {
          KnowsStep(s, pid, e, x);
        }
        if At(Apply(p, e), x, Registered) {
          LearnsTask(p, e, x);
          if x in p.tasks {
            StaysDecided(p, e, x);
          }
        }
      }
    }
  }

  lemma SharedStep(s: System, s': System, pid: Pid, e: Event, x: Id)
    requires Ready(s, pid, e) && s'.procs == s.procs[pid := Apply(s.procs[pid], e)]
    requires Shared(s, x) && StoreMoves(s, s', s.procs[pid], e, x)
    requires forall b {:trigger s.procs[b]} :: b in s.procs ==> Agrees(s, s.procs[b], x)
    ensures Shared(s', x)
  {
    assert Agrees(s, s.procs[pid], x);
    forall a, b ensures Separate(s', a, b, x) {
      assert Separate(s, a, b, x);
      SeparateStep(s, s', pid, e, x, a, b);
    }
  }

  // A row is only claimed while nobody has run it yet.
  lemma ClaimIsFirst(s: System, pid: Pid, e: Event)
    requires Ready(s, pid, e) && e.Claim? && e.won
    requires Agrees(s, s.procs[pid], e.id) && Shared(s, e.id)
    ensures e.id !in s.ran
  {
  }

  lemma StepKeepsAgrees(s: System, a: Action, b: Pid, x: Id)
    requires SystemInv(s) && Can(s, a) && a.Step? && b in s.procs
    ensures Agrees(Act(s, a), Act(s, a).procs[b], x)
  {
    var p := s.procs[a.pid];
    assert Agrees(s, s.procs[b], x) && Agrees(s, p, x) && Shared(s, x);
    if s.kind.Memory? {
      MemoryHasNoRows(s);
    }
    StoreStep(s, a.pid, a.e, x);
    if b == a.pid {
      AgreesMover(s, Act(s, a), a.pid, a.e, x);
    } else {
      assert Separate(s, b, a.pid, x);
      AgreesOther(s, Act(s, a), a.pid, a.e, b, x);
    }
  }

  lemma StepKeepsShared(s: System, a: Action, x: Id)
    requires SystemInv(s) && Can(s, a) && a.Step?
    ensures Shared(Act(s, a), x)
  {
    assert Shared(s, x);
    forall b | b in s.procs ensures Agrees(s, s.procs[b], x) {
    }
    if s.kind.Memory? {
      MemoryHasNoRows(s);
    }
    StoreStep(s, a.pid, a.e, x);
    SharedStep(s, Act(s, a), a.pid, a.e, x);
  }

  lemma StepKeepsSystem(s: System, a: Action)
    requires SystemInv(s) && Can(s, a) && a.Step?
    ensures SystemInv(Act(s, a))
  {
    var s' := Act(s, a);
    var p := s.procs[a.pid];
    StepKeeps(p, a.e);
    forall b | b in s'.procs ensures Inv(s'.procs[b]) {
      assert b == a.pid || s'.procs[b] == s.procs[b];
    }
    forall b, x | b in s'.procs ensures Agrees(s', s'.procs[b], x) {
      StepKeepsAgrees(s, a, b, x);
    }
    forall x ensures Shared(s', x) {
      StepKeepsShared(s, a, x);
    }
    StepRunsNew(s, a);
  }

  lemma StepRunsNew(s: System, a: Action)
    requires SystemInv(s) && Can(s, a) && a.Step?
    ensures Distinct(Act(s, a).ran)
  {
    if a.e.Claim? && a.e.won {
      assert Agrees(s, s.procs[a.pid], a.e.id) && Shared(s, a.e.id);
      ClaimIsFirst(s, a.pid, a.e);
    }
  }

  lemma MemoryHasNoRows(s: System)
    requires SystemInv(s) && s.kind.Memory?
    ensures s.rows == map[]
  {
    forall x ensures x !in s.rows {
      assert Shared(s, x);
    }
  }

  lemma ActKeeps(s: System, a: Action)
    requires SystemInv(s) && Can(s, a)
    ensures SystemInv(Act(s, a))
  {
    match a
    case Spawn(_, _, _, _) => SpawnKeeps(s, a);
    case Crash(_) => CrashKeeps(s, a);
    case Step(_, _) => StepKeepsSystem(s, a);
  }

  // ---- whole runs ----

  ghost predicate IsRun(ss: seq<System>, acts: seq<Action>) {
    && |ss| == |acts| + 1
    && Init(ss[0])
    && forall i :: 0 <= i < |acts| ==> Can(ss[i], acts[i]) && ss[i + 1] == Act(ss[i], acts[i])
  }

  lemma {:induction false} RunHolds(ss: seq<System>, acts: seq<Action>, i: nat)
    requires IsRun(ss, acts) && i < |ss|
    ensures SystemInv(ss[i])
  {
    if i == 0 {
      InitHolds(ss[0]);
    } else {
      RunHolds(ss, acts, i - 1);
      assert Can(ss[i - 1], acts[i - 1]) && ss[i] == Act(ss[i - 1], acts[i - 1]);
      ActKeeps(ss[i - 1], acts[i - 1]);
    }
  }

  // An execution enters `_run_execution` when its worker's claim succeeds.
  predicate EntersRun(a: Action, x: Id) {
    a.Step? && a.e.Claim? && a.e.won && a.e.id == x
  }

  // A cancel of a queued run that found its row still there.
  predicate CancelRemoves(s: System, a: Action, x: Id) {
    a.Step? && x in s.rows
    && (a.e.CancelClaim? || (a.e.CancelClaimRaises? && a.e.rowGone)) && a.e.id == x
  }

  lemma {:induction false} HistoryGrows(ss: seq<System>, acts: seq<Action>, i: nat, j: nat)
    requires IsRun(ss, acts) && i <= j < |ss|
    ensures forall x <- ss[i].ran :: x in ss[j].ran
    ensures ss[i].removed <= ss[j].removed && ss[i].pids <= ss[j].pids && ss[j].kind == ss[i].kind
  {
    if i < j {
      HistoryGrows(ss, acts, i, j - 1);
      assert ss[j] == Act(ss[j - 1], acts[j - 1]);
    }
  }

  /**
   Over any number of processes, crashes and recoveries, an execution id is run at most once.
   */
  lemma RunsAtMostOnce(ss: seq<System>, acts: seq<Action>, i: nat, j: nat, x: Id)
    requires IsRun(ss, acts) && i < j < |acts|
    requires EntersRun(acts[i], x)
    ensures !EntersRun(acts[j], x)
  {
    assert ss[i + 1] == Act(ss[i], acts[i]);
    HistoryGrows(ss, acts, i + 1, j);
    RunHolds(ss, acts, j);
    if EntersRun(acts[j], x) {
      assert Can(ss[j], acts[j]);
      var pid := acts[j].pid;
      assert Agrees(ss[j], ss[j].procs[pid], x) && Shared(ss[j], x);
      ClaimIsFirst(ss[j], pid, acts[j].e);
    }
  }

  /** A queued run whose `cancel` deleted its row is never run, before or after, by any process. */
  lemma CancelledIsNeverRun(ss: seq<System>, acts: seq<Action>, i: nat, j: nat, x: Id)
    requires IsRun(ss, acts) && i < |acts| && j < |acts|
    requires CancelRemoves(ss[i], acts[i], x)
    ensures !EntersRun(acts[j], x)
  {
    if EntersRun(acts[j], x) {
      assert ss[i + 1] == Act(ss[i], acts[i]) && ss[j + 1] == Act(ss[j], acts[j]);
      var k := if i < j then j + 1 else i + 1;
      HistoryGrows(ss, acts, i + 1, k);
      HistoryGrows(ss, acts, j + 1, k);
      RunHolds(ss, acts, k);
      RemovedNeverRan(ss[k], x);
    }
  }

  lemma RemovedNeverRan(s: System, x: Id)
    requires SystemInv(s) && x in s.removed
    ensures x !in s.ran
  {
    assert Shared(s, x);
  }

  // What becomes of a queued run when its row is deleted: it is run, or was stopped by a
  // `cancel`, or fails with the store's error, or a recovery found its row unreadable, or
  // dropped it because it had queued an earlier run of its cycle.
  ghost predicate Settles(s: System, a: Action, x: Id) {
    && Can(s, a) && a.Step?
    && var p := s.procs[a.pid];
       || EntersRun(a, x)
       || CancelRemoves(s, a, x)
       || (a.e.ClaimRaises? && a.e.id == x && At(Apply(p, a.e), x, Ending(Worker, Failed)))
       || (a.e.BootParse? && p.boot.listing[p.boot.parsed].0 == x && p.boot.listing[p.boot.parsed].1.ticket.Err?)
       || (a.e.BootDrop? && Next(p.boot).id == x && IsForestalled(p.boot.pending, p.boot.fates))
  }

  lemma RowStays(s: System, a: Action, x: Id)
    requires SystemInv(s) && Can(s, a) && x in s.rows
    ensures (x in Act(s, a).rows && Act(s, a).rows[x] == s.rows[x]) || Settles(s, a, x)
  {
    if a.Step? {
      var p := s.procs[a.pid];
      assert Agrees(s, p, x) && Shared(s, x);
      RowIsKeptOrTaken(s, a, x);
    }
  }

  lemma RowIsKeptOrTaken(s: System, a: Action, x: Id)
    requires Can(s, a) && a.Step? && x in s.rows && s.kind.Db? && TaskAgrees(s, s.procs[a.pid], x)
    requires BootExact(s.procs[a.pid].boot, s.procs[a.pid].tasks)
    ensures (x in Act(s, a).rows && Act(s, a).rows[x] == s.rows[x]) || Settles(s, a, x)
  {
  }

  ghost predicate KeepsRow(s: System, t: System, x: Id) {
    x in s.rows && x in t.rows && t.rows[x] == s.rows[x]
  }

  lemma StepKeepsRow(ss: seq<System>, acts: seq<Action>, k: nat, x: Id)
    requires IsRun(ss, acts) && k < |acts| && x in ss[k].rows
    ensures KeepsRow(ss[k], ss[k + 1], x) || Settles(ss[k], acts[k], x)
  {
    assert Can(ss[k], acts[k]) && ss[k + 1] == Act(ss[k], acts[k]);
    RunHolds(ss, acts, k);
    RowStays(ss[k], acts[k], x);
  }

  /**
   From `add` on a row keeps its request and survives everything, crashes included, until a
   step that settles what becomes of the run: no queued run is lost silently.
   */
  lemma {:induction false} RowsAreDurable(ss: seq<System>, acts: seq<Action>, i: nat, j: nat, x: Id)
    requires IsRun(ss, acts) && i <= j < |ss|
    requires x in ss[i].rows
    ensures || KeepsRow(ss[i], ss[j], x)
            || exists k :: i <= k < j && KeepsRow(ss[i], ss[k], x) && Settles(ss[k], acts[k], x)
  {
    if i < j {
      RowsAreDurable(ss, acts, i, j - 1, x);
      if KeepsRow(ss[i], ss[j - 1], x) {
        StepKeepsRow(ss, acts, j - 1, x);
      }
    }
  }

  /** Every process that holds an execution holds it with the request it was queued with. */
  lemma SameRequestEverywhere(ss: seq<System>, acts: seq<Action>, i: nat, a: Pid, b: Pid, x: Id)
    requires IsRun(ss, acts) && i < |ss|
    requires a in ss[i].procs && b in ss[i].procs && x in ss[i].procs[a].tasks && x in ss[i].procs[b].tasks
    ensures ss[i].procs[a].tasks[x].ticket == ss[i].procs[b].tasks[x].ticket
    ensures x in ss[i].rows && ss[i].rows[x].ticket.Ok? ==>
              ss[i].rows[x].ticket.value == ss[i].procs[a].tasks[x].ticket
  {
    RunHolds(ss, acts, i);
    assert Agrees(ss[i], ss[i].procs[a], x) && Agrees(ss[i], ss[i].procs[b], x) && Shared(ss[i], x);
  }

  // ---- one process along a run ----

  lemma {:induction false} AliveBetween(ss: seq<System>, acts: seq<Action>, i: nat, j: nat, k: nat, pid: Pid)
    requires IsRun(ss, acts) && i <= k <= j < |ss|
    requires pid in ss[i].procs && pid in ss[j].procs
    ensures pid in ss[k].procs
    decreases j - k
  {
    if k < j {
      AliveBetween(ss, acts, i, j, k + 1, pid);
      RunHolds(ss, acts, i);
      HistoryGrows(ss, acts, i, k);
      assert Can(ss[k], acts[k]) && ss[k + 1] == Act(ss[k], acts[k]);
    }
  }

  // Either nothing happens to process pid in a step, or one fair event of its own.
  lemma ProcessStep(ss: seq<System>, acts: seq<Action>, i: nat, pid: Pid)
    requires IsRun(ss, acts) && i < |acts| && pid in ss[i].procs && pid in ss[i + 1].procs
    ensures Inv(ss[i].procs[pid])
    ensures ss[i + 1].procs[pid] == ss[i].procs[pid]
            || (acts[i].Step? && Fair(ss[i].procs[pid], acts[i].e)
                && ss[i + 1].procs[pid] == Apply(ss[i].procs[pid], acts[i].e))
  {
    RunHolds(ss, acts, i);
    assert Can(ss[i], acts[i]) && ss[i + 1] == Act(ss[i], acts[i]);
  }

  predicate StatusReaches(a: Status, b: Status) {
    a == b || a.Queued? || (a.Running? && Terminal(b))
  }

  /**
   Along a process's life a status only moves queued, running or cancelled, final; a run
   cancelled while queued never executes there; and a finished run keeps its record.
   */
  lemma {:induction false} StatusAlongRun(ss: seq<System>, acts: seq<Action>, i: nat, j: nat, pid: Pid, x: Id)
    requires IsRun(ss, acts) && i <= j < |ss| && pid in ss[i].procs && pid in ss[j].procs
    requires x in ss[i].procs[pid].tasks
    ensures x in ss[j].procs[pid].tasks
    ensures var t, u := ss[i].procs[pid].tasks[x], ss[j].procs[pid].tasks[x];
            && StatusReaches(t.x.status, u.x.status)
            && (t.x.status.Cancelled? && !t.entered ==> u.x.status.Cancelled? && !u.entered)
            && (t.x.done ==> u.x.(stopped := t.x.stopped) == t.x && u.entered == t.entered)
  {
    if i < j {
      AliveBetween(ss, acts, i, j, j - 1, pid);
      StatusAlongRun(ss, acts, i, j - 1, pid, x);
      ProcessStep(ss, acts, j - 1, pid);
      var p := ss[j - 1].procs[pid];
      if ss[j].procs[pid] != p {
        StatusOnlyAdvances(p, acts[j - 1].e, x);
      }
    }
  }

  // ---- recovery ----

  ghost predicate ListedBy(b: Boot, listing: Listing) {
    match b
    case Parsing(l, _) => l == listing
    case Starting(pending, _) => pending == Readable(listing)
    case Queueing(pending, _) => pending == Readable(listing)
    case Dropping(pending, _) => pending == Readable(listing)
    case _ => true
  }

  lemma {:induction false} BootKeepsListing(ss: seq<System>, acts: seq<Action>, i: nat, j: nat, pid: Pid,
                                            listing: Listing)
    requires IsRun(ss, acts) && i <= j < |ss| && pid in ss[i].procs && pid in ss[j].procs
    requires ss[i].procs[pid].boot == Parsing(listing, 0)
    ensures !ss[j].procs[pid].boot.NotBooted? && ListedBy(ss[j].procs[pid].boot, listing)
  {
    if i < j {
      AliveBetween(ss, acts, i, j, j - 1, pid);
      BootKeepsListing(ss, acts, i, j - 1, pid, listing);
      ProcessStep(ss, acts, j - 1, pid);
      if ss[j].procs[pid] != ss[j - 1].procs[pid] {
        BootStep(ss[j - 1].procs[pid], acts[j - 1].e, listing);
      }
    }
  }

  lemma BootStep(p: Process, e: Event, listing: Listing)
    requires Enabled(p, e) && !p.boot.NotBooted? && ListedBy(p.boot, listing)
    ensures !Apply(p, e).boot.NotBooted? && ListedBy(Apply(p, e).boot, listing)
  {
  }

  // Recovery is through and x, listed with ticket t, has its fate.
  ghost predicate Recovered(p: Process, x: Id, t: RunTicket) {
    && p.boot.Starting? && !HasNext(p.boot) && |p.boot.pending| <= |p.boot.fates|
    && exists k :: 0 <= k < |p.boot.pending| && p.boot.pending[k].id == x && p.boot.pending[k].ticket == t
         && (if p.boot.fates[k].Requeued?
             then x in p.tasks && p.tasks[x].ticket == t && Returned(p.tasks[x].pc)
             else exists l :: 0 <= l < k && p.boot.fates[l].Requeued?
                    && p.boot.pending[l].ticket.cycle == p.boot.pending[k].ticket.cycle)
  }

  /**
   Once recovery has gone through the rows it listed, every readable one is queued again
   under its id with its ticket, or was dropped because an earlier run of its cycle was
   queued; so the first listed run of each cycle is always queued.
   */
  lemma RecoveryIsComplete(ss: seq<System>, acts: seq<Action>, i: nat, j: nat, pid: Pid, x: Id)
    requires IsRun(ss, acts) && i < j < |ss| && pid in ss[i].procs && pid in ss[j].procs
    requires acts[i].Step? && acts[i].pid == pid && acts[i].e.BootList? && ss[i].kind.Db?
    requires ss[j].procs[pid].boot.Starting? && !HasNext(ss[j].procs[pid].boot)
    requires x in ss[i].rows && ss[i].rows[x].ticket.Ok?
    ensures Recovered(ss[j].procs[pid], x, ss[i].rows[x].ticket.value)
  {
    var listing := acts[i].e.rows;
    assert Can(ss[i], acts[i]) && ss[i + 1] == Act(ss[i], acts[i]);
    AliveBetween(ss, acts, i, j, i + 1, pid);
    BootKeepsListing(ss, acts, i + 1, j, pid, listing);
    RunHolds(ss, acts, j);
    var k := RowIsReadable(listing, ss[i].rows, x);
    ListedIsRecovered(ss[j].procs[pid], k);
  }

  lemma RowIsReadable(listing: Listing, rows: map<Id, Row>, x: Id) returns (k: nat)
    requires IsListing(listing, rows) && x in rows && rows[x].ticket.Ok?
    ensures k < |Readable(listing)| && Readable(listing)[k].id == x && Readable(listing)[k].ticket == rows[x].ticket.value
  {
    ReadableCoversTable(listing, rows);
    var n :| 0 <= n < |listing| && listing[n].0 == x;
    ReadableHas(listing, n);
    k :| 0 <= k < |Readable(listing)| && Readable(listing)[k]
           == RunQueue.Pending(listing[n].0, listing[n].1.ticket.value, listing[n].1.createdAt);
  }

  lemma ListedIsRecovered(p: Process, k: nat)
    requires Inv(p) && p.boot.Starting? && !HasNext(p.boot) && k < |p.boot.pending|
    ensures Recovered(p, p.boot.pending[k].id, p.boot.pending[k].ticket)
  {
    assert Booted(p.tasks, p.boot.pending, p.boot.fates, |p.boot.fates|);
    if p.boot.fates[k].Requeued? {
      assert IsRequeued(p.tasks, p.boot.pending, p.boot.fates, p.boot.pending[k].id, k);
    }
  }
}
