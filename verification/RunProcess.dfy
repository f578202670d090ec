/**
 One server process of the run manager as a state machine: every lock region and every
 store call of `_start`, `cancel`, `_claim_and_run`, `_run_execution`, `_finish` and
 `recover_queued` is one event, and the threads' events interleave freely.
 */
module RunProcess {
  import opened Wrappers
  import opened RunQueue
  import opened Registry


  // One byte of a cycle's events file, with the execution that appended it (None: an earlier process).
  datatype Cell = Cell(owner: Option<Id>, byte: Byte)

  datatype Finisher = Worker | Canceler

  // How far the threads that handle an execution have got.
  datatype Pc =
    | Registered                                // in the registry; `add` not called yet
    | AddFailed                                 // `add` raised; the rollback comes next
    | RolledBack
    | Stored                                    // not in the FIFO yet
    | Waiting                                   // queued: in the FIFO, or just taken out of it
    | Marked                                    // `cancel` won it; its row is deleted next
    | Claiming                                  // a worker won it; it claims the row next
    | Lost                                      // the claim said another process has it
    | Gone
    | Executing                                 // inside `_run_execution`
    | Ending(who: Finisher, outcome: Status)     // in `_finish`, before the end offset
    | Ended(who: Finisher, outcome: Status)      // before the registry region of `_finish`
    | Released(who: Finisher, outcome: Status)   // before `mark_done`
    | Finished

  // From registration until the registry region that forgets or releases the execution.
  predicate Live(pc: Pc) {
    !pc.RolledBack? && !pc.Gone? && !pc.Released? && !pc.Finished?
  }

  // Past the point where `_start` returned the id.
  predicate Returned(pc: Pc) {
    !pc.Registered? && !pc.AddFailed? && !pc.RolledBack? && !pc.Stored?
  }

  // `entered`, `startRead` and `endRead` are history: whether `_run_execution` was entered,
  // and whether the file sizes at the start and the end could be read.
  datatype Task = Task(x: Execution, ticket: RunTicket, createdAt: int, pc: Pc,
                      entered: bool, startRead: bool, endRead: bool)

  datatype Fate = Requeued | Dropped

  // Where `recover_queued` is.
  datatype Boot =
    | NotBooted
    | Parsing(listing: Listing, parsed: nat)                          // in `pending`
    | Starting(pending: seq<Pending>, fates: seq<Fate>)               // next: pending[|fates|]
    | Queueing(pending: seq<Pending>, fates: seq<Fate>)               // registered, not in the FIFO yet
    | Dropping(pending: seq<Pending>, fates: seq<Fate>)               // its cycle is active; claims its row next
    | Serving(pending: seq<Pending>, fates: seq<Fate>)

  datatype Process = Process(
    registry: Registry,
    tasks: map<Id, Task>,
    fifo: seq<Id>,
    taken: set<Id>,                   // jobs a worker took out of the FIFO and has not begun
    running: set<Id>,                 // executions a worker is handling
    log: seq<Id>,                     // history: every append to the finished deque
    files: map<Cycle, seq<Cell>>,     // each cycle's events.ndjson
    boot: Boot,
    maxFinished: nat,
    maxConcurrent: nat)

  datatype Event =
    | Start(id: Id, ticket: RunTicket, createdAt: int)
    | Add(id: Id)
    | AddRaises(id: Id, rowKept: bool)
    | RollBack(id: Id)
    | Enqueue(id: Id)
    | Take(id: Id)
    | BeginJob(id: Id)
    | Claim(id: Id, won: bool)
    | ClaimRaises(id: Id, rowGone: bool)
    | Forget(id: Id)
    | EventsStart(id: Id, readable: bool)
    | Append(id: Id, bytes: seq<Byte>)
    | RunEnds(id: Id, outcome: Status)
    | EventsEnd(id: Id, readable: bool)
    | ReleaseCycle(id: Id)
    | Done(id: Id)
    | Cancel(id: Id)
    | RequestStop(id: Id)
    | CancelClaim(id: Id)
    | CancelClaimRaises(id: Id, rowGone: bool)
    | BootList(rows: Listing)
    | BootParse
    | BootParsed
    | BootStart
    | BootEnqueue
    | BootRefused
    | BootDrop
    | BootEnds

  function FreshProcess(files: Files, maxFinished: nat, maxConcurrent: nat): Process {
    Process(Registry({}, map[], []), map[], [], {}, {}, [], files, NotBooted, maxFinished, maxConcurrent)
  }

  function File(p: Process, c: Cycle): seq<Cell> {
    FileOf(p.files, c)
  }

  predicate At(p: Process, id: Id, pc: Pc) {
    id in p.tasks && p.tasks[id].pc == pc
  }

  predicate OutcomeFits(x: Execution, outcome: Status) {
    match outcome
    case Completed => x.hasEvents && !x.stopped
    case Cancelled => x.hasEvents && x.stopped
    case Failed => true
    case _ => false
  }

  predicate CanTake(p: Process) {
    |p.fifo| > 0 && |p.taken + p.running| < p.maxConcurrent
  }

  // The run `recover_queued` handles next.
  predicate HasNext(b: Boot) {
    (b.Starting? || b.Queueing? || b.Dropping?) && |b.fates| < |b.pending|
  }

  function Next(b: Boot): Pending
    requires HasNext(b)
  {
    b.pending[|b.fates|]
  }

  // When an event can happen, as far as this process alone decides it.
  predicate Enabled(p: Process, e: Event) {
    match e
    case Start(id, ticket, _) => p.boot.Serving? && id !in p.tasks && ticket.cycle !in p.registry.active
    case Add(id) => At(p, id, Registered)
    case AddRaises(id, _) => At(p, id, Registered)
    case RollBack(id) => At(p, id, AddFailed)
    case Enqueue(id) => p.boot.Serving? && At(p, id, Stored)
    case Take(id) => CanTake(p) && p.fifo[0] == id
    case BeginJob(id) => id in p.taken && id in p.tasks
    case Claim(id, _) => At(p, id, Claiming)
    case ClaimRaises(id, _) => At(p, id, Claiming)
    case Forget(id) => At(p, id, Lost)
    case EventsStart(id, _) => At(p, id, Executing) && !p.tasks[id].x.hasEvents
    case Append(id, _) => At(p, id, Executing) && p.tasks[id].x.hasEvents
    case RunEnds(id, outcome) => At(p, id, Executing) && OutcomeFits(p.tasks[id].x, outcome)
    case EventsEnd(id, _) => id in p.tasks && p.tasks[id].pc.Ending?
    case ReleaseCycle(id) => id in p.tasks && p.tasks[id].pc.Ended?
    case Done(id) => id in p.tasks && p.tasks[id].pc.Released?
    case Cancel(id) => p.boot.Serving? && id in p.registry.states && id in p.tasks && Returned(p.tasks[id].pc)
    case RequestStop(id) => p.boot.Serving? && id in p.tasks && Returned(p.tasks[id].pc)
    case CancelClaim(id) => At(p, id, Marked)
    case CancelClaimRaises(id, _) => At(p, id, Marked)
    case BootList(_) => p.boot.NotBooted?
    case BootParse => p.boot.Parsing? && p.boot.parsed < |p.boot.listing|
    case BootParsed => p.boot.Parsing? && p.boot.parsed == |p.boot.listing|
    case BootStart => p.boot.Starting? && HasNext(p.boot) && Next(p.boot).ticket.cycle !in p.registry.active
    case BootEnqueue => p.boot.Queueing? && HasNext(p.boot) && At(p, Next(p.boot).id, Stored)
    case BootRefused => p.boot.Starting? && HasNext(p.boot) && Next(p.boot).ticket.cycle in p.registry.active
    case BootDrop => p.boot.Dropping? && HasNext(p.boot)
    case BootEnds => !p.boot.Serving? && !p.boot.Queueing?
  }

  function Size(p: Process, c: Cycle, readable: bool): Option<nat> {
    if readable then Some(|File(p, c)|) else None
  }

  function NewTask(ticket: RunTicket, createdAt: int, pc: Pc): Task {
    Task(NewExecution(ticket.cycle), ticket, createdAt, pc, false, true, true)
  }

  function Put(p: Process, id: Id, t: Task): Process {
    p.(tasks := p.tasks[id := t])
  }

  function Goto(p: Process, id: Id, pc: Pc): Process
    requires id in p.tasks
  {
    Put(p, id, p.tasks[id].(pc := pc))
  }

  function Cells(id: Id, bytes: seq<Byte>): seq<Cell> {
    seq(|bytes|, i requires 0 <= i < |bytes| => Cell(Some(id), bytes[i]))
  }

  /** What an event does to the process. */
  function Apply(p: Process, e: Event): Process
    requires Enabled(p, e)
  {
    match e
    case Start(id, ticket, createdAt) =>
      Put(p, id, NewTask(ticket, createdAt, Registered)).(registry := Register(p.registry, id, ticket.cycle))
    case Add(id) => Goto(p, id, Stored)
    case AddRaises(id, _) => Goto(p, id, AddFailed)
    case RollBack(id) =>
      Goto(p, id, RolledBack).(registry := Rollback(p.registry, id, p.tasks[id].x.cycle))
    case Enqueue(id) => Goto(p, id, Waiting).(fifo := p.fifo + [id])
    case Take(id) => p.(fifo := p.fifo[1..], taken := p.taken + {id})
    case BeginJob(id) =>
      var t := p.tasks[id];
      if t.x.status.Queued?
      then Put(p, id, t.(x := Begin(t.x), pc := Claiming)).(taken := p.taken - {id}, running := p.running + {id})
      else p.(taken := p.taken - {id})
    case Claim(id, won) =>
      if won then Put(p, id, p.tasks[id].(pc := Executing, entered := true)) else Goto(p, id, Lost)
    case ClaimRaises(id, _) => Goto(p, id, Ending(Worker, Failed))
    case Forget(id) =>
      Goto(p, id, Gone).(registry := DropLost(p.registry, id, p.tasks[id].x.cycle), running := p.running - {id})
    case EventsStart(id, readable) =>
      var t := p.tasks[id];
      Put(p, id, t.(x := RecordStart(t.x, Size(p, t.x.cycle, readable)), startRead := readable))
    case Append(id, bytes) =>
      var c := p.tasks[id].x.cycle;
      p.(files := p.files[c := File(p, c) + Cells(id, bytes)])
    case RunEnds(id, outcome) => Goto(p, id, Ending(Worker, outcome))
    case EventsEnd(id, readable) =>
      var t := p.tasks[id];
      Put(p, id, t.(x := RecordEnd(t.x, Size(p, t.x.cycle, readable)), endRead := readable,
                    pc := Ended(t.pc.who, t.pc.outcome)))
    case ReleaseCycle(id) =>
      var t := p.tasks[id];
      Goto(p, id, Released(t.pc.who, t.pc.outcome))
        .(registry := Release(p.registry, id, t.x.cycle, p.maxFinished), log := p.log + [id])
    case Done(id) =>
      var t := p.tasks[id];
      Put(p, id, t.(x := MarkDone(t.x, t.pc.outcome), pc := Finished))
        .(running := if t.pc.who.Worker? then p.running - {id} else p.running)
    case Cancel(id) =>
      var t := p.tasks[id];
      if CancelWins(t.x) then Put(p, id, t.(x := MarkCancelled(t.x), pc := Marked)) else p
    case RequestStop(id) => Put(p, id, p.tasks[id].(x := p.tasks[id].x.(stopped := true)))
    case CancelClaim(id) => Goto(p, id, Ending(Canceler, Cancelled))
    case CancelClaimRaises(id, _) => Goto(p, id, Ending(Canceler, Cancelled))
    case BootList(rows) => p.(boot := Parsing(rows, 0))
    case BootParse => p.(boot := p.boot.(parsed := p.boot.parsed + 1))
    case BootParsed => p.(boot := Starting(Readable(p.boot.listing), []))
    case BootStart =>
      var n := Next(p.boot);
      Put(p, n.id, NewTask(n.ticket, n.createdAt, Stored))
        .(registry := Register(p.registry, n.id, n.ticket.cycle), boot := Queueing(p.boot.pending, p.boot.fates))
    case BootEnqueue =>
      var n := Next(p.boot);
      Goto(p, n.id, Waiting)
        .(fifo := p.fifo + [n.id], boot := Starting(p.boot.pending, p.boot.fates + [Requeued]))
    case BootRefused => p.(boot := Dropping(p.boot.pending, p.boot.fates))
    case BootDrop => p.(boot := Starting(p.boot.pending, p.boot.fates + [Dropped]))
    case BootEnds =>
      p.(boot := if p.boot.Starting? || p.boot.Dropping? then Serving(p.boot.pending, p.boot.fates) else Serving([], []))
  }

  // ---- the invariant of one process ----

  type Tasks = map<Id, Task>

  // What each position of the threads says about the execution's fields.
  predicate Fits(t: Task) {
    && t.x.cycle == t.ticket.cycle
    && (t.x.hasEvents ==> t.entered)
    && (t.x.done <==> t.pc.Finished?)
    && (t.x.endOffset.Some? ==> t.x.hasEvents)
    && match t.pc {
         case Registered | AddFailed | RolledBack | Stored | Waiting => t.x.status.Queued? && !t.entered
         case Marked => t.x.status.Cancelled? && !t.entered
         case Claiming | Lost | Gone => t.x.status.Running? && !t.entered
         case Executing => t.x.status.Running? && t.entered && t.x.endOffset.None?
         case Ending(who, outcome) => Finishing(t, who, outcome) && t.x.endOffset.None?
         case Ended(who, outcome) => Finishing(t, who, outcome) && EndKnown(t.x)
         case Released(who, outcome) => Finishing(t, who, outcome) && EndKnown(t.x)
         case Finished => Terminal(t.x.status) && EndKnown(t.x)
       }
  }

  predicate EndKnown(x: Execution) {
    x.hasEvents ==> x.endOffset.Some?
  }

  predicate Finishing(t: Task, who: Finisher, outcome: Status) {
    && Terminal(outcome)
    && (if who.Worker? then t.x.status.Running?
        else t.x.status.Cancelled? && outcome.Cancelled? && !t.entered)
  }

  predicate Over(pc: Pc) {
    pc.Released? || pc.Finished?
  }

  predicate HandedOver(pc: Pc) {
    Returned(pc) && !pc.Gone?
  }

  predicate HeldByWorker(pc: Pc) {
    pc.Claiming? || pc.Lost? || pc.Executing?
    || ((pc.Ending? || pc.Ended? || pc.Released?) && pc.who.Worker?)
  }

  // A job in the FIFO or just taken: waiting, or won by `cancel` in the meantime.
  predicate Unbegun(t: Task) {
    HandedOver(t.pc) && !HeldByWorker(t.pc) && !t.entered
  }

  // Where execution x is: exactly one live execution per active cycle, a registry of the
  // live and the finished, a log of those that are over, and its place in the job lists.
  predicate Placed(p: Process, x: Id) {
    var r := p.registry;
    && (x in p.tasks ==> Fits(p.tasks[x]))
    && (x in p.tasks && Live(p.tasks[x].pc) ==>
          p.tasks[x].x.cycle in r.active && r.active[p.tasks[x].x.cycle] == x)
    && (x in r.states <==> (x in p.tasks && Live(p.tasks[x].pc)) || x in r.finished)
    && (x in r.finished ==> x in p.log)
    && (x in p.log <==> x in p.tasks && Over(p.tasks[x].pc))
    && (x in p.fifo ==> x in p.tasks && Unbegun(p.tasks[x]) && x !in p.taken)
    && (x in p.taken ==> x in p.tasks && Unbegun(p.tasks[x]))
    && (x in p.running <==> x in p.tasks && HeldByWorker(p.tasks[x].pc))
    && (x in p.tasks && p.tasks[x].pc.Waiting? ==> x in p.fifo || x in p.taken)
  }

  // The execution that holds cycle c is a live one of that cycle.
  predicate Held(p: Process, c: Cycle) {
    c in p.registry.active ==>
      var x := p.registry.active[c];
      x in p.tasks && Live(p.tasks[x].pc) && p.tasks[x].x.cycle == c
  }

  ghost predicate PlacesExact(p: Process) {
    && (forall x {:trigger Placed(p, x)} :: Placed(p, x))
    && (forall c {:trigger Held(p, c)} :: Held(p, c))
  }

  // The finished deque is the newest part of the log.
  ghost predicate QueuesExact(p: Process) {
    && p.maxFinished >= 1
    && p.registry.finished == p.log[Excess(|p.log|, p.maxFinished)..]
    && Distinct(p.log)
    && Distinct(p.fifo)
    && |p.taken + p.running| <= p.maxConcurrent
  }

  // Byte k of the file was appended by `id`.
  predicate Owns(f: seq<Cell>, id: Id, k: nat) {
    k < |f| && f[k].owner == Some(id)
  }

  // The recorded offsets enclose exactly the execution's own bytes, as far as the file's
  // size could be read at its start and its end.
  ghost predicate RangeExact(t: Task, f: seq<Cell>, id: Id) {
    var x := t.x;
    && (!x.hasEvents ==> forall k: nat :: !Owns(f, id, k))
    && (x.hasEvents ==>
          && x.startOffset <= |f|
          && (forall k: nat :: Owns(f, id, k) ==> x.startOffset <= k)
          && (x.endOffset.None? && t.startRead ==> forall k: nat :: x.startOffset <= k < |f| ==> Owns(f, id, k)))
    && (x.endOffset.Some? ==>
          && x.startOffset <= x.endOffset.value <= |f|
          && (t.endRead ==> forall k: nat :: Owns(f, id, k) ==> k < x.endOffset.value)
          && (t.startRead ==> forall k: nat :: x.startOffset <= k < x.endOffset.value ==> Owns(f, id, k)))
  }

  type Files = map<Cycle, seq<Cell>>

  function FileOf(files: Files, c: Cycle): seq<Cell> {
    if c in files then files[c] else []
  }

  ghost predicate InRange(files: Files, tasks: Tasks, id: Id) {
    id in tasks ==> RangeExact(tasks[id], FileOf(files, tasks[id].x.cycle), id)
  }

  // Who appended to the file of cycle `c` is a task of that cycle.
  ghost predicate Attributed(files: Files, tasks: Tasks, c: Cycle) {
    forall id, k: nat :: Owns(FileOf(files, c), id, k) ==> id in tasks && tasks[id].x.cycle == c
  }

  ghost predicate FilesExact(files: Files, tasks: Tasks) {
    && (forall id {:trigger InRange(files, tasks, id)} :: InRange(files, tasks, id))
    && (forall c {:trigger Attributed(files, tasks, c)} :: Attributed(files, tasks, c))
  }

  ghost predicate DistinctIds(listing: Listing) {
    forall i, j :: 0 <= i < j < |listing| ==> listing[i].0 != listing[j].0
  }

  ghost predicate DistinctPending(pending: seq<Pending>) {
    forall i, j :: 0 <= i < j < |pending| ==> pending[i].id != pending[j].id
  }

  // A run is only dropped when an earlier listed run of its cycle was queued.
  ghost predicate FatesJustified(pending: seq<Pending>, fates: seq<Fate>) {
    && |fates| <= |pending|
    && forall i :: 0 <= i < |fates| && fates[i].Dropped? ==>
         exists j :: 0 <= j < i && fates[j].Requeued? && pending[j].ticket.cycle == pending[i].ticket.cycle
  }

  // Task `id` is the i-th listed run, queued again with the same ticket.
  ghost predicate IsRequeued(tasks: Tasks, pending: seq<Pending>, fates: seq<Fate>, id: Id, i: int) {
    && 0 <= i < |pending| && pending[i].id == id && id in tasks && tasks[id].ticket == pending[i].ticket
    && (i < |fates| ==> fates[i].Requeued?)
  }

  // During recovery the only tasks are the first n listed runs that were not dropped.
  ghost predicate Booted(tasks: Tasks, pending: seq<Pending>, fates: seq<Fate>, n: nat) {
    && |fates| <= n <= |pending|
    && DistinctPending(pending)
    && FatesJustified(pending, fates)
    && (forall id <- tasks :: exists i :: i < n && IsRequeued(tasks, pending, fates, id, i))
    && (forall i :: 0 <= i < |fates| && fates[i].Requeued? ==>
          IsRequeued(tasks, pending, fates, pending[i].id, i) && Returned(tasks[pending[i].id].pc))
  }

  // An earlier listed run of the next one's cycle was queued.
  ghost predicate IsForestalled(pending: seq<Pending>, fates: seq<Fate>)
    requires |fates| < |pending|
  {
    exists j :: 0 <= j < |fates| && fates[j].Requeued? && pending[j].ticket.cycle == pending[|fates|].ticket.cycle
  }

  ghost predicate BootExact(boot: Boot, tasks: Tasks) {
    match boot
    case NotBooted => tasks == map[]
    case Parsing(listing, parsed) => tasks == map[] && parsed <= |listing| && DistinctIds(listing)
    case Starting(pending, fates) => Booted(tasks, pending, fates, |fates|)
    case Queueing(pending, fates) =>
      && |fates| < |pending|
      && Booted(tasks, pending, fates, |fates| + 1)
      && IsRequeued(tasks, pending, fates, pending[|fates|].id, |fates|)
      && tasks[pending[|fates|].id].pc.Stored?
    case Dropping(pending, fates) =>
      && |fates| < |pending| && Booted(tasks, pending, fates, |fates|)
      && IsForestalled(pending, fates)
    case Serving(pending, fates) => FatesJustified(pending, fates)
  }

  ghost predicate Inv(p: Process) {
    && PlacesExact(p)
    && QueuesExact(p)
    && FilesExact(p.files, p.tasks)
    && BootExact(p.boot, p.tasks)
  }

  // What the database adds: a listing never names a row twice.
  ghost predicate Fair(p: Process, e: Event) {
    && Enabled(p, e)
    && (e.BootList? ==> DistinctIds(e.rows))
  }

  // ---- every event keeps the invariant ----

  lemma FreshHolds(files: Files, maxFinished: nat, maxConcurrent: nat)
    requires maxFinished >= 1
    requires forall c <- files :: forall k :: 0 <= k < |files[c]| ==> files[c][k].owner.None?
    ensures Inv(FreshProcess(files, maxFinished, maxConcurrent))
  {
    forall c ensures Attributed(files, map[], c) {
    }
  }

  // The execution an event is about.
  function Subject(p: Process, e: Event): Option<Id>
    requires Enabled(p, e)
  {
    match e
    case BootList(_) | BootParse | BootParsed | BootRefused | BootDrop | BootEnds => None
    case BootStart | BootEnqueue => Some(Next(p.boot).id)
    case Start(id, _, _) => Some(id)
    case _ => Some(e.id)
  }

  // The kinds of event, by the part of an execution's life they belong to.
  predicate Enters(e: Event) { e.Start? || e.BootStart? }
  predicate Leaves(e: Event) { e.RollBack? || e.Forget? }
  predicate IsQueued(e: Event) { e.Add? || e.AddRaises? || e.Enqueue? || e.BootEnqueue? }
  predicate Begins(e: Event) { e.BeginJob? }
  predicate Claims(e: Event) { e.Claim? || e.ClaimRaises? }
  predicate Runs(e: Event) { e.EventsStart? || e.Append? || e.RunEnds? || e.EventsEnd? }
  predicate Ends(e: Event) { e.Done? }
  predicate IsCancelled(e: Event) { e.Cancel? || e.RequestStop? || e.CancelClaim? || e.CancelClaimRaises? }

  predicate BeforeRun(e: Event) {
    IsQueued(e) || Leaves(e) || Begins(e) || Claims(e) || e.Take?
  }

  // Nothing but the subject's own place moves, except that a release can evict others.
  lemma PlaceEnters(p: Process, e: Event, s: Id, x: Id)
    requires Enabled(p, e) && Subject(p, e) == Some(s) && Enters(e)
    requires Placed(p, s) && Placed(p, x)
    requires e.BootStart? ==> s !in p.tasks
    ensures Placed(Apply(p, e), x)
  {
  }

  lemma PlaceLeaves(p: Process, e: Event, s: Id, x: Id)
    requires Enabled(p, e) && Subject(p, e) == Some(s) && Leaves(e)
    requires Placed(p, s) && Placed(p, x) && (s in p.tasks ==> Held(p, p.tasks[s].x.cycle))
    ensures Placed(Apply(p, e), x)
  {
  }

  lemma PlaceIsQueued(p: Process, e: Event, s: Id, x: Id)
    requires Enabled(p, e) && Subject(p, e) == Some(s) && IsQueued(e)
    requires Placed(p, s) && Placed(p, x)
    ensures Placed(Apply(p, e), x)
  {
  }

  lemma PlaceBegins(p: Process, e: Event, s: Id, x: Id)
    requires Enabled(p, e) && Subject(p, e) == Some(s) && Begins(e)
    requires Placed(p, s) && Placed(p, x)
    ensures Placed(Apply(p, e), x)
  {
  }

  lemma PlaceClaims(p: Process, e: Event, s: Id, x: Id)
    requires Enabled(p, e) && Subject(p, e) == Some(s) && Claims(e)
    requires Placed(p, s) && Placed(p, x)
    ensures Placed(Apply(p, e), x)
  {
  }

  lemma PlaceRuns(p: Process, e: Event, s: Id, x: Id)
    requires Enabled(p, e) && Subject(p, e) == Some(s) && Runs(e)
    requires Placed(p, s) && Placed(p, x)
    ensures Placed(Apply(p, e), x)
  {
  }

  lemma PlaceEnds(p: Process, e: Event, s: Id, x: Id)
    requires Enabled(p, e) && Subject(p, e) == Some(s) && Ends(e)
    requires Placed(p, s) && Placed(p, x)
    ensures Placed(Apply(p, e), x)
  {
  }

  lemma PlaceIsCancelled(p: Process, e: Event, s: Id, x: Id)
    requires Enabled(p, e) && Subject(p, e) == Some(s) && IsCancelled(e)
    requires Placed(p, s) && Placed(p, x)
    ensures Placed(Apply(p, e), x)
  {
    if e.Cancel? || e.RequestStop? {
      PlaceIsStopped(p, e, s, x);
    } else {
      PlaceCancelEnds(p, e, s, x);
    }
  }

  lemma PlaceIsStopped(p: Process, e: Event, s: Id, x: Id)
    requires Enabled(p, e) && Subject(p, e) == Some(s) && (e.Cancel? || e.RequestStop?)
    requires Placed(p, s) && Placed(p, x)
    ensures Placed(Apply(p, e), x)
  {
  }

  lemma PlaceCancelEnds(p: Process, e: Event, s: Id, x: Id)
    requires Enabled(p, e) && Subject(p, e) == Some(s) && (e.CancelClaim? || e.CancelClaimRaises?)
    requires Placed(p, s) && Placed(p, x)
    ensures Placed(Apply(p, e), x)
  {
  }

  lemma PlaceTake(p: Process, e: Event, x: Id)
    requires Enabled(p, e) && e.Take? && Placed(p, e.id) && Placed(p, x) && Distinct(p.fifo)
    ensures Placed(Apply(p, e), x)
  {
    assert p.fifo == [e.id] + p.fifo[1..];
  }

  lemma Evicts(r: Registry, id: Id, c: Cycle, maxFinished: nat, x: Id)
    requires Distinct(r.finished + [id])
    ensures var s := Release(r, id, c, maxFinished);
            && (x in s.finished ==> x in r.finished || x == id)
            && (x in s.states <==> x in r.states && (x in r.finished || x == id ==> x in s.finished))
  {
    var queue := r.finished + [id];
    var k := Excess(|queue|, maxFinished);
    assert queue == queue[..k] + queue[k..];
    assert x in queue <==> x in r.finished || x == id;
    assert x in Release(r, id, c, maxFinished).states <==> x in r.states && x !in queue[..k];
  }

  lemma PlaceRelease(p: Process, e: Event, x: Id)
    requires Enabled(p, e) && e.ReleaseCycle? && Placed(p, e.id) && Placed(p, x) && QueuesExact(p)
    requires Held(p, p.tasks[e.id].x.cycle)
    ensures Placed(Apply(p, e), x)
  {
    assert forall y <- p.registry.finished :: y in p.log;
    Evicts(p.registry, e.id, p.tasks[e.id].x.cycle, p.maxFinished, x);
  }

  lemma HeldEnters(p: Process, e: Event, c: Cycle)
    requires Enabled(p, e) && Enters(e) && Held(p, c) && Subject(p, e).value !in p.tasks
    ensures Held(Apply(p, e), c)
  {
  }

  lemma HeldFreed(p: Process, e: Event, c: Cycle)
    requires Enabled(p, e) && (Leaves(e) || e.ReleaseCycle?) && Held(p, c) && Placed(p, e.id)
    requires c in p.registry.active ==> Placed(p, p.registry.active[c])
    ensures Held(Apply(p, e), c)
  {
  }

  lemma HeldQueued(p: Process, e: Event, c: Cycle)
    requires Enabled(p, e) && IsQueued(e) && Held(p, c)
    ensures Held(Apply(p, e), c)
  {
    assert Apply(p, e).registry == p.registry;
  }

  lemma HeldTaken(p: Process, e: Event, c: Cycle)
    requires Enabled(p, e) && (e.Take? || Begins(e) || Claims(e)) && Held(p, c)
    ensures Held(Apply(p, e), c)
  {
    assert Apply(p, e).registry == p.registry;
  }

  lemma HeldFromRun(p: Process, e: Event, c: Cycle)
    requires Enabled(p, e) && !BeforeRun(e) && !Enters(e) && !e.ReleaseCycle? && Held(p, c)
    ensures Held(Apply(p, e), c)
  {
  }

  lemma HeldStep(p: Process, e: Event, c: Cycle)
    requires Enabled(p, e) && PlacesExact(p)
    requires e.BootStart? ==> Next(p.boot).id !in p.tasks
    ensures Held(Apply(p, e), c)
  {
    assert Held(p, c);
    if Enters(e) {
      HeldEnters(p, e, c);
    } else if Leaves(e) || e.ReleaseCycle? {
      assert Placed(p, e.id);
      if c in p.registry.active {
        assert Placed(p, p.registry.active[c]);
      }
      HeldFreed(p, e, c);
    } else if IsQueued(e) {
      HeldQueued(p, e, c);
    } else if BeforeRun(e) {
      HeldTaken(p, e, c);
    } else {
      HeldFromRun(p, e, c);
    }
  }

  lemma NextIsNew(boot: Boot, tasks: Tasks)
    requires BootExact(boot, tasks) && boot.Starting? && HasNext(boot)
    ensures Next(boot).id !in tasks
  {
    forall i | i < |boot.fates| && IsRequeued(tasks, boot.pending, boot.fates, Next(boot).id, i) ensures false {
    }
  }

  lemma KeepsPlaces(p: Process, e: Event)
    requires Inv(p) && Fair(p, e)
    ensures PlacesExact(Apply(p, e))
  {
    var q := Apply(p, e);
    if e.BootStart? {
      NextIsNew(p.boot, p.tasks);
    }
    forall x ensures Placed(q, x) {
      PlaceStep(p, e, x);
    }
    forall c ensures Held(q, c) {
      HeldStep(p, e, c);
    }
  }

  lemma PlaceStep(p: Process, e: Event, x: Id)
    requires PlacesExact(p) && QueuesExact(p) && Enabled(p, e)
    requires e.BootStart? ==> Next(p.boot).id !in p.tasks
    ensures Placed(Apply(p, e), x)
  {
    assert Placed(p, x);
    var subject := Subject(p, e);
    if subject.Some? {
      var s := subject.value;
      assert Placed(p, s);
      if s in p.tasks {
        assert Held(p, p.tasks[s].x.cycle);
      }
      if e.Take? {
        PlaceTake(p, e, x);
      } else if e.ReleaseCycle? {
        PlaceRelease(p, e, x);
      } else if Enters(e) {
        PlaceEnters(p, e, s, x);
      } else if Leaves(e) {
        PlaceLeaves(p, e, s, x);
      } else if IsQueued(e) {
        PlaceIsQueued(p, e, s, x);
      } else if Begins(e) {
        PlaceBegins(p, e, s, x);
      } else if Claims(e) {
        PlaceClaims(p, e, s, x);
      } else if Runs(e) {
        PlaceRuns(p, e, s, x);
      } else if Ends(e) {
        PlaceEnds(p, e, s, x);
      } else {
        PlaceIsCancelled(p, e, s, x);
      }
    }
  }

  lemma QueuesRelease(p: Process, e: Event)
    requires QueuesExact(p) && Enabled(p, e) && e.ReleaseCycle? && Placed(p, e.id)
    ensures QueuesExact(Apply(p, e))
  {
    var queue, log := p.registry.finished + [e.id], p.log + [e.id];
    assert queue[Excess(|queue|, p.maxFinished)..] == log[Excess(|log|, p.maxFinished)..];
  }

  lemma QueuesTake(p: Process, e: Event)
    requires QueuesExact(p) && Enabled(p, e) && e.Take? && Placed(p, e.id)
    ensures QueuesExact(Apply(p, e))
  {
    var q := Apply(p, e);
    assert q.taken + q.running == (p.taken + p.running) + {e.id};
  }

  // A worker goes on with its job, or is free again.
  lemma QueuesWorker(p: Process, e: Event)
    requires QueuesExact(p) && Enabled(p, e) && (e.BeginJob? || e.Done? || e.Forget?)
    ensures QueuesExact(Apply(p, e))
  {
    var q := Apply(p, e);
    assert q.taken + q.running <= p.taken + p.running;
    SubsetSize(q.taken + q.running, p.taken + p.running);
  }

  lemma QueuesQueued(p: Process, e: Event)
    requires QueuesExact(p) && Enabled(p, e) && IsQueued(e) && Placed(p, Subject(p, e).value)
    ensures QueuesExact(Apply(p, e))
  {
  }

  lemma QueuesOther(p: Process, e: Event)
    requires QueuesExact(p) && Enabled(p, e) && !IsQueued(e)
    requires !e.ReleaseCycle? && !e.Take? && !e.BeginJob? && !e.Done? && !e.Forget?
    ensures QueuesExact(Apply(p, e))
  {
    var q := Apply(p, e);
    assert q.fifo == p.fifo && q.taken == p.taken && q.running == p.running && q.log == p.log;
  }

  lemma KeepsQueues(p: Process, e: Event)
    requires PlacesExact(p) && QueuesExact(p) && Enabled(p, e)
    ensures QueuesExact(Apply(p, e))
  {
    if Subject(p, e).Some? {
      assert Placed(p, Subject(p, e).value);
    }
    if e.ReleaseCycle? {
      QueuesRelease(p, e);
    } else if e.Take? {
      QueuesTake(p, e);
    } else if e.BeginJob? || e.Done? || e.Forget? {
      QueuesWorker(p, e);
    } else if IsQueued(e) {
      QueuesQueued(p, e);
    } else {
      QueuesOther(p, e);
    }
  }

  // ---- the events files ----

  // Bytes are only added for the execution that is running, and no other one of its cycle is.
  lemma RangeAppend(p: Process, e: Event, x: Id)
    requires PlacesExact(p) && Enabled(p, e) && e.Append? && InRange(p.files, p.tasks, x)
    ensures InRange(Apply(p, e).files, p.tasks, x)
  {
    assert Placed(p, e.id) && Placed(p, x);
    var c := p.tasks[e.id].x.cycle;
    var f, g := File(p, c), File(Apply(p, e), c);
    assert forall y, k: nat :: Owns(g, y, k) <==> Owns(f, y, k) || (y == e.id && |f| <= k < |g|);
    if x in p.tasks && p.tasks[x].x.cycle == c && x != e.id {
      assert !Live(p.tasks[x].pc);
    }
  }

  lemma RangeOffset(p: Process, e: Event)
    requires PlacesExact(p) && Enabled(p, e) && (e.EventsStart? || e.EventsEnd?)
    requires InRange(p.files, p.tasks, e.id)
    ensures InRange(p.files, Apply(p, e).tasks, e.id)
  {
    assert Placed(p, e.id);
  }

  // The fields that say where an execution's bytes are.
  predicate SameRange(t: Task, u: Task) {
    && t.x.cycle == u.x.cycle && t.x.hasEvents == u.x.hasEvents && t.startRead == u.startRead
    && t.x.startOffset == u.x.startOffset && t.x.endOffset == u.x.endOffset && t.endRead == u.endRead
  }

  predicate SameIdentity(t: Task, u: Task) {
    t.ticket == u.ticket && t.createdAt == u.createdAt && t.x.cycle == u.x.cycle
  }

  // What one event does to the tasks: only the subject changes, and never what it was started with.
  lemma OthersStay(p: Process, e: Event, x: Id)
    requires Enabled(p, e) && x in p.tasks && Subject(p, e) != Some(x)
    ensures x in Apply(p, e).tasks && Apply(p, e).tasks[x] == p.tasks[x]
  {
    if BeforeRun(e) {
      OthersStayBeforeRun(p, e, x);
    } else {
      OthersStayFromRun(p, e, x);
    }
  }

  lemma OthersStayBeforeRun(p: Process, e: Event, x: Id)
    requires Enabled(p, e) && x in p.tasks && Subject(p, e) != Some(x)
    requires BeforeRun(e)
    ensures x in Apply(p, e).tasks && Apply(p, e).tasks[x] == p.tasks[x]
  {
    if IsQueued(e) || Leaves(e) {
      OthersStayQueued(p, e, x);
    } else {
      OthersStayTaken(p, e, x);
    }
  }

  lemma OthersStayQueued(p: Process, e: Event, x: Id)
    requires Enabled(p, e) && x in p.tasks && Subject(p, e) != Some(x)
    requires BeforeRun(e)
    requires IsQueued(e) || Leaves(e)
    ensures x in Apply(p, e).tasks && Apply(p, e).tasks[x] == p.tasks[x]
  {
  }

  lemma OthersStayTaken(p: Process, e: Event, x: Id)
    requires Enabled(p, e) && x in p.tasks && Subject(p, e) != Some(x)
    requires BeforeRun(e)
    requires !(IsQueued(e) || Leaves(e))
    ensures x in Apply(p, e).tasks && Apply(p, e).tasks[x] == p.tasks[x]
  {
  }

  lemma OthersStayFromRun(p: Process, e: Event, x: Id)
    requires Enabled(p, e) && x in p.tasks && Subject(p, e) != Some(x)
    requires !BeforeRun(e)
    ensures x in Apply(p, e).tasks && Apply(p, e).tasks[x] == p.tasks[x]
  {
  }

  lemma SubjectStays(p: Process, e: Event, x: Id)
    requires Enabled(p, e) && x in p.tasks && Subject(p, e) == Some(x) && !Enters(e)
    ensures x in Apply(p, e).tasks && SameIdentity(p.tasks[x], Apply(p, e).tasks[x])
    ensures !e.EventsStart? && !e.EventsEnd? ==> SameRange(p.tasks[x], Apply(p, e).tasks[x])
  {
    if BeforeRun(e) {
      StaysBeforeRun(p, e, x);
    } else {
      StaysFromRun(p, e, x);
    }
  }

  lemma StaysBeforeRun(p: Process, e: Event, x: Id)
    requires Enabled(p, e) && x in p.tasks && Subject(p, e) == Some(x) && BeforeRun(e)
    ensures x in Apply(p, e).tasks && SameIdentity(p.tasks[x], Apply(p, e).tasks[x])
    ensures SameRange(p.tasks[x], Apply(p, e).tasks[x])
  {
    if IsQueued(e) || Leaves(e) {
      OnlyPcMoves(p, e, x);
    } else {
      StaysWhileTaken(p, e, x);
    }
  }

  lemma StaysWhileTaken(p: Process, e: Event, x: Id)
    requires Enabled(p, e) && x in p.tasks && Subject(p, e) == Some(x) && (e.Take? || Begins(e) || Claims(e))
    ensures x in Apply(p, e).tasks && SameIdentity(p.tasks[x], Apply(p, e).tasks[x])
    ensures SameRange(p.tasks[x], Apply(p, e).tasks[x])
  {
  }

  lemma OnlyPcMoves(p: Process, e: Event, x: Id)
    requires Enabled(p, e) && x in p.tasks && Subject(p, e) == Some(x) && (IsQueued(e) || Leaves(e))
    ensures x in Apply(p, e).tasks && Apply(p, e).tasks[x] == p.tasks[x].(pc := Apply(p, e).tasks[x].pc)
  {
  }

  lemma StaysFromRun(p: Process, e: Event, x: Id)
    requires Enabled(p, e) && x in p.tasks && Subject(p, e) == Some(x) && !Enters(e) && !BeforeRun(e)
    ensures x in Apply(p, e).tasks && SameIdentity(p.tasks[x], Apply(p, e).tasks[x])
    ensures !e.EventsStart? && !e.EventsEnd? ==> SameRange(p.tasks[x], Apply(p, e).tasks[x])
  {
  }

  lemma OnlyEntersAdd(p: Process, e: Event, x: Id)
    requires Enabled(p, e) && x !in p.tasks && x in Apply(p, e).tasks
    ensures Enters(e) && !Apply(p, e).tasks[x].x.hasEvents && Apply(p, e).tasks[x].x.endOffset.None?
  {
  }

  lemma OnlyAppendWrites(p: Process, e: Event)
    requires Enabled(p, e) && !e.Append?
    ensures Apply(p, e).files == p.files
  {
    if BeforeRun(e) {
      NoWriteBeforeRun(p, e);
    } else {
      OnlyAppendWritesInRun(p, e);
    }
  }

  lemma NoWriteBeforeRun(p: Process, e: Event)
    requires Enabled(p, e) && !e.Append?
    requires BeforeRun(e)
    ensures Apply(p, e).files == p.files
  {
    if IsQueued(e) || Leaves(e) {
      NoWriteQueued(p, e);
    } else {
      NoWriteTaken(p, e);
    }
  }

  lemma NoWriteQueued(p: Process, e: Event)
    requires Enabled(p, e) && !e.Append?
    requires BeforeRun(e)
    requires IsQueued(e) || Leaves(e)
    ensures Apply(p, e).files == p.files
  {
  }

  lemma NoWriteTaken(p: Process, e: Event)
    requires Enabled(p, e) && !e.Append?
    requires BeforeRun(e)
    requires !(IsQueued(e) || Leaves(e))
    ensures Apply(p, e).files == p.files
  {
  }

  lemma OnlyAppendWritesInRun(p: Process, e: Event)
    requires Enabled(p, e) && !e.Append?
    requires !BeforeRun(e)
    ensures Apply(p, e).files == p.files
  {
  }

  lemma TaskStep(p: Process, e: Event, x: Id)
    requires Enabled(p, e)
    requires e.BootStart? ==> Next(p.boot).id !in p.tasks
    ensures x in p.tasks ==>
              && x in Apply(p, e).tasks
              && (Subject(p, e) != Some(x) ==> Apply(p, e).tasks[x] == p.tasks[x])
              && (!e.EventsStart? && !e.EventsEnd? ==> SameRange(p.tasks[x], Apply(p, e).tasks[x]))
              && SameIdentity(p.tasks[x], Apply(p, e).tasks[x])
    ensures x !in p.tasks && x in Apply(p, e).tasks ==>
              Enters(e) && !Apply(p, e).tasks[x].x.hasEvents && Apply(p, e).tasks[x].x.endOffset.None?
    ensures !e.Append? ==> Apply(p, e).files == p.files
  {
    if x in p.tasks {
      if Subject(p, e) != Some(x) {
        OthersStay(p, e, x);
      } else {
        SubjectStays(p, e, x);
      }
    } else if x in Apply(p, e).tasks {
      OnlyEntersAdd(p, e, x);
    }
    if !e.Append? {
      OnlyAppendWrites(p, e);
    }
  }

  lemma RangeStep(p: Process, e: Event, x: Id)
    requires Inv(p) && Fair(p, e)
    ensures InRange(Apply(p, e).files, Apply(p, e).tasks, x)
  {
    if e.BootStart? {
      NextIsNew(p.boot, p.tasks);
    }
    TaskStep(p, e, x);
    assert InRange(p.files, p.tasks, x);
    if e.Append? {
      RangeAppend(p, e, x);
    } else if (e.EventsStart? || e.EventsEnd?) && e.id == x {
      RangeOffset(p, e);
    } else if x !in p.tasks && x in Apply(p, e).tasks {
      assert Attributed(p.files, p.tasks, Apply(p, e).tasks[x].x.cycle);
    }
  }

  lemma AttributedStep(p: Process, e: Event, c: Cycle)
    requires Inv(p) && Fair(p, e)
    ensures Attributed(Apply(p, e).files, Apply(p, e).tasks, c)
  {
    var q := Apply(p, e);
    if e.BootStart? {
      NextIsNew(p.boot, p.tasks);
    }
    assert Attributed(p.files, p.tasks, c);
    forall x, k: nat | Owns(FileOf(q.files, c), x, k) ensures x in q.tasks && q.tasks[x].x.cycle == c {
      TaskStep(p, e, x);
      assert Owns(FileOf(p.files, c), x, k) || (e.Append? && x == e.id && p.tasks[x].x.cycle == c);
    }
  }

  lemma KeepsFiles(p: Process, e: Event)
    requires Inv(p) && Fair(p, e)
    ensures FilesExact(Apply(p, e).files, Apply(p, e).tasks)
  {
    forall x ensures InRange(Apply(p, e).files, Apply(p, e).tasks, x) {
      RangeStep(p, e, x);
    }
    forall c ensures Attributed(Apply(p, e).files, Apply(p, e).tasks, c) {
      AttributedStep(p, e, c);
    }
  }

  // ---- recovery ----

  // Tasks only move forward as far as recovery is concerned.
  ghost predicate Advances(tasks: Tasks, tasks': Tasks) {
    && tasks'.Keys == tasks.Keys
    && forall x <- tasks ::
         tasks'[x].ticket == tasks[x].ticket && (Returned(tasks[x].pc) ==> Returned(tasks'[x].pc))
  }

  lemma BootedAdvances(tasks: Tasks, tasks': Tasks, pending: seq<Pending>, fates: seq<Fate>, n: nat)
    requires Booted(tasks, pending, fates, n) && Advances(tasks, tasks')
    ensures Booted(tasks', pending, fates, n)
  {
    forall x | x in tasks' ensures exists i :: i < n && IsRequeued(tasks', pending, fates, x, i) {
      var i :| i < n && IsRequeued(tasks, pending, fates, x, i);
      assert IsRequeued(tasks', pending, fates, x, i);
    }
    forall i | 0 <= i < |fates| && fates[i].Requeued? ensures IsRequeued(tasks', pending, fates, pending[i].id, i) {
      assert IsRequeued(tasks, pending, fates, pending[i].id, i);
    }
  }

  lemma BootedNew(tasks: Tasks, pending: seq<Pending>, fates: seq<Fate>, u: Task)
    requires |fates| < |pending| && Booted(tasks, pending, fates, |fates|)
    requires pending[|fates|].id !in tasks && u.ticket == pending[|fates|].ticket
    ensures Booted(tasks[pending[|fates|].id := u], pending, fates, |fates| + 1)
    ensures IsRequeued(tasks[pending[|fates|].id := u], pending, fates, pending[|fates|].id, |fates|)
  {
    var k := |fates|;
    var tasks' := tasks[pending[k].id := u];
    assert IsRequeued(tasks', pending, fates, pending[k].id, k);
    forall x | x in tasks' ensures exists i :: i < k + 1 && IsRequeued(tasks', pending, fates, x, i) {
      if x != pending[k].id {
        var i :| i < k && IsRequeued(tasks, pending, fates, x, i);
        assert IsRequeued(tasks', pending, fates, x, i);
      }
    }
    forall i | 0 <= i < k && fates[i].Requeued? ensures IsRequeued(tasks', pending, fates, pending[i].id, i) {
      assert IsRequeued(tasks, pending, fates, pending[i].id, i);
    }
  }

  lemma BootedGrows(tasks: Tasks, pending: seq<Pending>, fates: seq<Fate>, fate: Fate)
    requires |fates| < |pending| && Booted(tasks, pending, fates, if fate.Requeued? then |fates| + 1 else |fates|)
    requires fate.Requeued? ==> IsRequeued(tasks, pending, fates, pending[|fates|].id, |fates|)
                                && Returned(tasks[pending[|fates|].id].pc)
    requires FatesJustified(pending, fates + [fate])
    ensures Booted(tasks, pending, fates + [fate], |fates| + 1)
  {
    var n := if fate.Requeued? then |fates| + 1 else |fates|;
    var fates' := fates + [fate];
    forall x | x in tasks ensures exists i :: i < |fates| + 1 && IsRequeued(tasks, pending, fates', x, i) {
      var i :| i < n && IsRequeued(tasks, pending, fates, x, i);
      assert IsRequeued(tasks, pending, fates', x, i);
    }
    forall i | 0 <= i < |fates'| && fates'[i].Requeued?
      ensures IsRequeued(tasks, pending, fates', pending[i].id, i) && Returned(tasks[pending[i].id].pc)
    {
      assert IsRequeued(tasks, pending, fates, pending[i].id, i);
    }
  }

  lemma FatesGrow(pending: seq<Pending>, fates: seq<Fate>, fate: Fate, j: int)
    requires FatesJustified(pending, fates) && |fates| < |pending|
    requires fate.Dropped? ==> 0 <= j < |fates| && fates[j].Requeued?
                               && pending[j].ticket.cycle == pending[|fates|].ticket.cycle
    ensures FatesJustified(pending, fates + [fate])
  {
    var fates' := fates + [fate];
    forall i | 0 <= i < |fates'| && fates'[i].Dropped?
      ensures exists j :: 0 <= j < i && fates'[j].Requeued? && pending[j].ticket.cycle == pending[i].ticket.cycle
    {
      var k := j;
      if i < |fates| {
        k :| 0 <= k < i && fates[k].Requeued? && pending[k].ticket.cycle == pending[i].ticket.cycle;
      }
      assert fates'[k].Requeued?;
    }
  }

  lemma BootEnqueueKeeps(p: Process, e: Event)
    requires BootExact(p.boot, p.tasks) && Enabled(p, e) && e.BootEnqueue?
    ensures BootExact(Apply(p, e).boot, Apply(p, e).tasks)
  {
    var pending, fates := p.boot.pending, p.boot.fates;
    var q := Apply(p, e);
    assert q.tasks[pending[|fates|].id].ticket == p.tasks[pending[|fates|].id].ticket;
    BootedAdvances(p.tasks, q.tasks, pending, fates, |fates| + 1);
    FatesGrow(pending, fates, Requeued, 0);
    BootedGrows(q.tasks, pending, fates, Requeued);
  }

  // Only recovery itself has started anything yet, so whoever holds the cycle was listed before.
  lemma BootRefusedKeeps(p: Process, e: Event)
    requires BootExact(p.boot, p.tasks) && Enabled(p, e) && e.BootRefused?
    requires Held(p, Next(p.boot).ticket.cycle)
    requires Placed(p, p.registry.active[Next(p.boot).ticket.cycle])
    ensures BootExact(Apply(p, e).boot, Apply(p, e).tasks)
  {
    var pending, fates := p.boot.pending, p.boot.fates;
    var id := p.registry.active[Next(p.boot).ticket.cycle];
    var j :| j < |fates| && IsRequeued(p.tasks, pending, fates, id, j);
    assert IsForestalled(pending, fates);
  }

  lemma BootDropKeeps(p: Process, e: Event)
    requires BootExact(p.boot, p.tasks) && Enabled(p, e) && e.BootDrop?
    ensures BootExact(Apply(p, e).boot, Apply(p, e).tasks)
  {
    var pending, fates := p.boot.pending, p.boot.fates;
    var j :| 0 <= j < |fates| && fates[j].Requeued? && pending[j].ticket.cycle == pending[|fates|].ticket.cycle;
    FatesGrow(pending, fates, Dropped, j);
    BootedGrows(p.tasks, pending, fates, Dropped);
  }

  lemma BootParsedKeeps(p: Process, e: Event)
    requires BootExact(p.boot, p.tasks) && Enabled(p, e) && e.BootParsed?
    ensures BootExact(Apply(p, e).boot, Apply(p, e).tasks)
  {
    var pending := Readable(p.boot.listing);
    forall i, j | 0 <= i < j < |pending| ensures pending[i].id != pending[j].id {
      SourceMonotone(p.boot.listing, i, j);
    }
  }

  predicate IsBoot(e: Event) {
    e.BootList? || e.BootParse? || e.BootParsed? || e.BootStart? || e.BootEnqueue? || e.BootRefused?
    || e.BootDrop? || e.BootEnds?
  }

  lemma BootEventKeeps(p: Process, e: Event)
    requires Inv(p) && Fair(p, e) && IsBoot(e)
    ensures BootExact(Apply(p, e).boot, Apply(p, e).tasks)
  {
    if e.BootStart? {
      NextIsNew(p.boot, p.tasks);
      BootedNew(p.tasks, p.boot.pending, p.boot.fates, NewTask(Next(p.boot).ticket, Next(p.boot).createdAt, Stored));
    } else if e.BootEnqueue? {
      BootEnqueueKeeps(p, e);
    } else if e.BootRefused? {
      assert Held(p, Next(p.boot).ticket.cycle);
      assert Placed(p, p.registry.active[Next(p.boot).ticket.cycle]);
      BootRefusedKeeps(p, e);
    } else if e.BootDrop? {
      BootDropKeeps(p, e);
    } else if e.BootParsed? {
      BootParsedKeeps(p, e);
    }
  }

  // While recovery runs, the threads only move tasks that are already handed over.
  lemma QueueEventAdvances(p: Process, e: Event, s: Id)
    requires Enabled(p, e) && Subject(p, e) == Some(s) && Placed(p, s)
    requires Leaves(e) || e.Add? || e.AddRaises? || e.Enqueue?
    ensures s in p.tasks && Advances(p.tasks, Apply(p, e).tasks) && Apply(p, e).boot == p.boot
    ensures p.tasks[s].pc.Stored? && !p.boot.Serving? ==> Apply(p, e).tasks == p.tasks
  {
  }

  lemma WorkerEventAdvances(p: Process, e: Event, s: Id)
    requires Enabled(p, e) && Subject(p, e) == Some(s) && Placed(p, s)
    requires e.Take? || Begins(e) || Claims(e)
    ensures s in p.tasks && Advances(p.tasks, Apply(p, e).tasks) && Apply(p, e).boot == p.boot
    ensures p.tasks[s].pc.Stored? && !p.boot.Serving? ==> Apply(p, e).tasks == p.tasks
  {
  }

  lemma RunEventAdvances(p: Process, e: Event, s: Id)
    requires Enabled(p, e) && Subject(p, e) == Some(s) && Placed(p, s)
    requires Runs(e) || e.ReleaseCycle?
    ensures s in p.tasks && Advances(p.tasks, Apply(p, e).tasks) && Apply(p, e).boot == p.boot
    ensures p.tasks[s].pc.Stored? && !p.boot.Serving? ==> Apply(p, e).tasks == p.tasks
  {
  }

  lemma EndEventAdvances(p: Process, e: Event, s: Id)
    requires Enabled(p, e) && Subject(p, e) == Some(s) && Placed(p, s)
    requires Ends(e) || IsCancelled(e)
    ensures s in p.tasks && Advances(p.tasks, Apply(p, e).tasks) && Apply(p, e).boot == p.boot
    ensures p.tasks[s].pc.Stored? && !p.boot.Serving? ==> Apply(p, e).tasks == p.tasks
  {
    if Ends(e) {
      DoneAdvances(p, e, s);
    } else {
      CancelAdvances(p, e, s);
    }
  }

  lemma DoneAdvances(p: Process, e: Event, s: Id)
    requires Enabled(p, e) && Subject(p, e) == Some(s) && Placed(p, s)
    requires Ends(e) || IsCancelled(e)
    requires Ends(e)
    ensures s in p.tasks && Advances(p.tasks, Apply(p, e).tasks) && Apply(p, e).boot == p.boot
    ensures p.tasks[s].pc.Stored? && !p.boot.Serving? ==> Apply(p, e).tasks == p.tasks
  {
  }

  lemma CancelAdvances(p: Process, e: Event, s: Id)
    requires Enabled(p, e) && Subject(p, e) == Some(s) && Placed(p, s)
    requires Ends(e) || IsCancelled(e)
    requires IsCancelled(e)
    ensures s in p.tasks && Advances(p.tasks, Apply(p, e).tasks) && Apply(p, e).boot == p.boot
    ensures p.tasks[s].pc.Stored? && !p.boot.Serving? ==> Apply(p, e).tasks == p.tasks
  {
  }

  lemma KeepsBoot(p: Process, e: Event)
    requires Inv(p) && Fair(p, e)
    ensures BootExact(Apply(p, e).boot, Apply(p, e).tasks)
  {
    if IsBoot(e) {
      BootEventKeeps(p, e);
    } else if !e.Start? {
      var s := Subject(p, e).value;
      assert Placed(p, s);
      EventAdvances(p, e, s);
      if p.boot.Queueing? && s != p.boot.pending[|p.boot.fates|].id {
        OthersStay(p, e, p.boot.pending[|p.boot.fates|].id);
      }
      BootKept(p.boot, p.tasks, Apply(p, e).tasks);
    }
  }

  lemma EventAdvances(p: Process, e: Event, s: Id)
    requires Enabled(p, e) && Subject(p, e) == Some(s) && Placed(p, s) && !IsBoot(e) && !e.Start?
    ensures s in p.tasks && Advances(p.tasks, Apply(p, e).tasks) && Apply(p, e).boot == p.boot
    ensures p.tasks[s].pc.Stored? && !p.boot.Serving? ==> Apply(p, e).tasks == p.tasks
  {
    if Runs(e) || e.ReleaseCycle? {
      RunEventAdvances(p, e, s);
    } else if Ends(e) || IsCancelled(e) {
      EndEventAdvances(p, e, s);
    } else if e.Take? || Begins(e) || Claims(e) {
      WorkerEventAdvances(p, e, s);
    } else {
      QueueEventAdvances(p, e, s);
    }
  }

  lemma BootKept(boot: Boot, tasks: Tasks, tasks': Tasks)
    requires BootExact(boot, tasks) && Advances(tasks, tasks')
    requires boot.NotBooted? || boot.Parsing? ==> tasks' == tasks
    requires boot.Queueing? ==>
      var id := boot.pending[|boot.fates|].id; id in tasks' && tasks'[id] == tasks[id]
    ensures BootExact(boot, tasks')
  {
    if boot.Starting? || boot.Dropping? {
      BootedAdvances(tasks, tasks', boot.pending, boot.fates, |boot.fates|);
    } else if boot.Queueing? {
      BootedAdvances(tasks, tasks', boot.pending, boot.fates, |boot.fates| + 1);
    }
  }

  /** Every event keeps the invariant. */
  lemma StepKeeps(p: Process, e: Event)
    requires Inv(p) && Fair(p, e)
    ensures Inv(Apply(p, e))
  {
    KeepsPlaces(p, e);
    assert Enabled(p, e);
    KeepsQueues(p, e);
    KeepsFiles(p, e);
    KeepsBoot(p, e);
  }

  // ---- what the invariant means ----

  /**
   The registry is the disjoint union of the finished deque and the active executions; the
   deque is bounded and never names an execution twice; no live execution is missing from
   the registry; and one that reports `done` no longer holds its cycle.
   */
  lemma RegistryIsExact(p: Process)
    requires Inv(p)
    ensures var r := p.registry;
            && r.states == (set x | x in r.finished) + r.active.Values
            && (set x | x in r.finished) !! r.active.Values
            && |r.finished| <= p.maxFinished && Distinct(r.finished)
    ensures forall x <- p.tasks :: Live(p.tasks[x].pc) ==> x in p.registry.states
    ensures forall x <- p.tasks :: p.tasks[x].x.done ==> x !in p.registry.active.Values
    ensures forall x <- p.tasks :: x in p.log <==> Over(p.tasks[x].pc)
    ensures Distinct(p.log)
  {
    var r := p.registry;
    forall x ensures x in r.states <==> x in r.finished || x in r.active.Values {
      assert Placed(p, x);
      if x in r.active.Values {
        var c :| c in r.active && r.active[c] == x;
        assert Held(p, c);
      }
    }
    forall x | x in r.active.Values ensures x !in r.finished && x in p.tasks && Live(p.tasks[x].pc) {
      var c :| c in r.active && r.active[c] == x;
      assert Held(p, c) && Placed(p, x);
    }
    forall x | x in p.tasks
      ensures Live(p.tasks[x].pc) ==> x in r.states
      ensures p.tasks[x].x.done ==> x !in r.active.Values
      ensures x in p.log <==> Over(p.tasks[x].pc)
    {
      assert Placed(p, x);
    }
  }

  /** A cycle has at most one execution between its registration and its release. */
  lemma OneLivePerCycle(p: Process, x: Id, y: Id)
    requires Inv(p) && x in p.tasks && y in p.tasks
    requires Live(p.tasks[x].pc) && Live(p.tasks[y].pc) && p.tasks[x].x.cycle == p.tasks[y].x.cycle
    ensures x == y
  {
    assert Placed(p, x) && Placed(p, y);
  }

  /** No more executions run at once than there are workers. */
  lemma BoundedConcurrency(p: Process)
    requires Inv(p)
    ensures |set x | x in p.tasks && p.tasks[x].pc.Executing?| <= p.maxConcurrent
  {
    var busy := set x | x in p.tasks && p.tasks[x].pc.Executing?;
    forall x | x in busy ensures x in p.taken + p.running {
      assert Placed(p, x);
    }
    SubsetSize(busy, p.taken + p.running);
  }

  predicate StatusMoves(a: Status, b: Status) {
    a == b || (a.Queued? && (b.Running? || b.Cancelled?)) || (a.Running? && Terminal(b))
  }

  // What of an execution a step may change, once it is in the registry.
  predicate Moves(t: Task, u: Task) {
    && StatusMoves(t.x.status, u.x.status)
    && (t.x.status.Cancelled? && !t.entered ==> u.x.status.Cancelled? && !u.entered)
    && (t.entered ==> u.entered)
    && (t.x.done ==> u.x.(stopped := t.x.stopped) == t.x && u.entered == t.entered)
  }

  /**
   Exactly one of `cancel` and the worker wins a queued execution: its status only moves
   queued to running or cancelled, then running to a final one; a run that was cancelled
   while queued is never entered, and nothing but the stop switch of a finished run changes.
   */
  lemma StatusOnlyAdvances(p: Process, e: Event, x: Id)
    requires Inv(p) && Fair(p, e) && x in p.tasks
    ensures x in Apply(p, e).tasks && Moves(p.tasks[x], Apply(p, e).tasks[x])
  {
    if e.BootStart? {
      NextIsNew(p.boot, p.tasks);
    }
    TaskStep(p, e, x);
    assert Placed(p, x);
    if Subject(p, e) == Some(x) {
      SubjectAdvances(p, e, x);
    }
  }

  lemma SubjectAdvances(p: Process, e: Event, x: Id)
    requires Enabled(p, e) && x in p.tasks && Placed(p, x) && Subject(p, e) == Some(x) && !Enters(e)
    ensures x in Apply(p, e).tasks && Moves(p.tasks[x], Apply(p, e).tasks[x])
  {
    if BeforeRun(e) {
      AdvancesBeforeRun(p, e, x);
    } else {
      AdvancesFromRun(p, e, x);
    }
  }

  lemma AdvancesBeforeRun(p: Process, e: Event, x: Id)
    requires Enabled(p, e) && x in p.tasks && Placed(p, x) && Subject(p, e) == Some(x) && BeforeRun(e)
    ensures x in Apply(p, e).tasks && Moves(p.tasks[x], Apply(p, e).tasks[x])
  {
    if IsQueued(e) || Leaves(e) {
      OnlyPcMoves(p, e, x);
    }
  }

  lemma AdvancesFromRun(p: Process, e: Event, x: Id)
    requires Enabled(p, e) && x in p.tasks && Placed(p, x) && Subject(p, e) == Some(x)
    requires !Enters(e) && !BeforeRun(e)
    ensures x in Apply(p, e).tasks && Moves(p.tasks[x], Apply(p, e).tasks[x])
  {
  }

  // The offsets a follower of execution x reads once it is done.
  predicate Recorded(p: Process, x: Id) {
    x in p.tasks && p.tasks[x].x.endOffset.Some? && p.tasks[x].startRead && p.tasks[x].endRead
  }

  /**
   A finished execution's byte range is exactly the bytes it appended. So the ranges of two
   executions of a cycle never overlap, and one lies wholly before the other.
   */
  lemma RangesAreOwnBytes(p: Process, x: Id)
    requires Inv(p) && Recorded(p, x)
    ensures var t := p.tasks[x].x;
            && t.startOffset <= t.endOffset.value <= |File(p, t.cycle)|
            && forall k: nat :: Owns(File(p, t.cycle), x, k) <==> t.startOffset <= k < t.endOffset.value
  {
    assert InRange(p.files, p.tasks, x) && Placed(p, x);
  }

  /** A run starts reading its events where every earlier run of its cycle has ended. */
  lemma StartsAfterEarlierEnds(p: Process, e: Event, x: Id)
    requires Inv(p) && Fair(p, e) && e.EventsStart? && e.readable
    requires x in p.tasks && p.tasks[x].x.endOffset.Some? && p.tasks[x].x.cycle == p.tasks[e.id].x.cycle
    ensures p.tasks[x].x.endOffset.value <= Apply(p, e).tasks[e.id].x.startOffset
  {
    assert InRange(p.files, p.tasks, x);
  }

  lemma RangesAreDisjoint(p: Process, x: Id, y: Id)
    requires Inv(p) && Recorded(p, x) && Recorded(p, y) && x != y
    requires p.tasks[x].x.cycle == p.tasks[y].x.cycle
    ensures var a, b := p.tasks[x].x, p.tasks[y].x;
            a.startOffset == a.endOffset.value || b.startOffset == b.endOffset.value
            || a.endOffset.value <= b.startOffset || b.endOffset.value <= a.startOffset
  {
    RangesAreOwnBytes(p, x);
    RangesAreOwnBytes(p, y);
    var a, b := p.tasks[x].x, p.tasks[y].x;
    var f := File(p, a.cycle);
    if a.startOffset < a.endOffset.value && b.startOffset < b.endOffset.value {
      assert Owns(f, x, a.startOffset) && Owns(f, y, b.startOffset);
      if a.startOffset <= b.startOffset {
        assert !Owns(f, x, b.startOffset);
      } else {
        assert !Owns(f, y, a.startOffset);
      }
    }
  }
}
