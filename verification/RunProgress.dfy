/**
 How far an execution can always get, and how long it can be seen: the next step of every
 execution that is not over, and when a released execution leaves the registry.
 */
module RunProgress {
  import opened Wrappers
  import opened RunQueue
  import opened Registry
  import opened RunProcess

  // ---- every execution gets on ----

  // How many steps of its own an execution has left, at most.
  function StepsLeft(p: Process, x: Id): nat
    requires x in p.tasks
  {
    match p.tasks[x].pc
    case Registered => 9
    case Stored => 8
    case Waiting => if x in p.taken then 6 else 7
    case Marked | Claiming => 5
    case Executing => 4
    case Ending(_, _) => 3
    case Ended(_, _) => 2
    case AddFailed | Lost | Released(_, _) => 1
    case RolledBack | Gone | Finished => 0
  }

  // The next step of its own; `won` is what the store answers to a claim.
  function NextStep(p: Process, x: Id, won: bool): Event
    requires x in p.tasks && StepsLeft(p, x) > 0
  {
    match p.tasks[x].pc
    case Registered => Add(x)
    case AddFailed => RollBack(x)
    case Stored => if p.boot.Serving? then Enqueue(x) else BootEnqueue
    case Waiting => if x in p.taken then BeginJob(x) else Take(x)
    case Marked => CancelClaim(x)
    case Claiming => Claim(x, won)
    case Lost => Forget(x)
    case Executing => RunEnds(x, Failed)
    case Ending(_, _) => EventsEnd(x, true)
    case Ended(_, _) => ReleaseCycle(x)
    case Released(_, _) => Done(x)
  }

  // In the FIFO, behind another job or with no worker free.
  predicate Waits(p: Process, x: Id) {
    At(p, x, Waiting) && x !in p.taken && !(CanTake(p) && p.fifo[0] == x)
  }

  lemma StoredIsNext(p: Process, x: Id)
    requires Inv(p) && At(p, x, Stored) && !p.boot.Serving?
    ensures p.boot.Queueing? && HasNext(p.boot) && Next(p.boot).id == x
  {
  }

  lemma OwnStep(p: Process, x: Id, won: bool)
    requires Inv(p) && x in p.tasks && StepsLeft(p, x) > 0 && !Waits(p, x)
    ensures Fair(p, NextStep(p, x, won)) && Subject(p, NextStep(p, x, won)) == Some(x)
  {
    assert Placed(p, x);
    if At(p, x, Stored) && !p.boot.Serving? {
      StoredIsNext(p, x);
    }
  }

  lemma OwnStepCounts(p: Process, x: Id, won: bool)
    requires x in p.tasks && Placed(p, x) && StepsLeft(p, x) > 0
    requires Enabled(p, NextStep(p, x, won)) && Subject(p, NextStep(p, x, won)) == Some(x)
    ensures x in Apply(p, NextStep(p, x, won)).tasks
    ensures StepsLeft(Apply(p, NextStep(p, x, won)), x) < StepsLeft(p, x)
  {
    var n := StepsLeft(p, x);
    if n >= 8 {
      QueueingCounts(p, x, won);
    } else if n >= 6 {
      WaitingCounts(p, x, won);
    } else if n == 5 {
      ClaimingCounts(p, x, won);
    } else if n >= 2 {
      RunningCounts(p, x, won);
    } else {
      LastStepCounts(p, x, won);
    }
  }

  lemma QueueingCounts(p: Process, x: Id, won: bool)
    requires x in p.tasks && Placed(p, x) && StepsLeft(p, x) >= 8
    requires Enabled(p, NextStep(p, x, won)) && Subject(p, NextStep(p, x, won)) == Some(x)
    ensures x in Apply(p, NextStep(p, x, won)).tasks
    ensures StepsLeft(Apply(p, NextStep(p, x, won)), x) < StepsLeft(p, x)
  {
  }

  lemma WaitingCounts(p: Process, x: Id, won: bool)
    requires x in p.tasks && Placed(p, x) && p.tasks[x].pc.Waiting?
    requires Enabled(p, NextStep(p, x, won)) && Subject(p, NextStep(p, x, won)) == Some(x)
    ensures x in Apply(p, NextStep(p, x, won)).tasks
    ensures StepsLeft(Apply(p, NextStep(p, x, won)), x) < StepsLeft(p, x)
  {
  }

  lemma ClaimingCounts(p: Process, x: Id, won: bool)
    requires x in p.tasks && Placed(p, x) && StepsLeft(p, x) == 5
    requires Enabled(p, NextStep(p, x, won)) && Subject(p, NextStep(p, x, won)) == Some(x)
    ensures x in Apply(p, NextStep(p, x, won)).tasks
    ensures StepsLeft(Apply(p, NextStep(p, x, won)), x) < StepsLeft(p, x)
  {
  }

  lemma RunningCounts(p: Process, x: Id, won: bool)
    requires x in p.tasks && Placed(p, x) && 2 <= StepsLeft(p, x) < 5
    requires Enabled(p, NextStep(p, x, won)) && Subject(p, NextStep(p, x, won)) == Some(x)
    ensures x in Apply(p, NextStep(p, x, won)).tasks
    ensures StepsLeft(Apply(p, NextStep(p, x, won)), x) < StepsLeft(p, x)
  {
  }

  lemma LastStepCounts(p: Process, x: Id, won: bool)
    requires x in p.tasks && Placed(p, x) && StepsLeft(p, x) == 1
    requires Enabled(p, NextStep(p, x, won)) && Subject(p, NextStep(p, x, won)) == Some(x)
    ensures x in Apply(p, NextStep(p, x, won)).tasks
    ensures StepsLeft(Apply(p, NextStep(p, x, won)), x) < StepsLeft(p, x)
  {
  }

  // ---- what an execution in the FIFO waits for ----

  function Place(fifo: seq<Id>, x: Id): nat {
    if fifo == [] || fifo[0] == x then 0 else 1 + Place(fifo[1..], x)
  }

  function Weight(p: Process, w: Id): nat {
    1 + if w in p.tasks then StepsLeft(p, w) else 0
  }

  ghost function Load(p: Process, s: set<Id>): nat {
    if s == {} then 0 else
      var w :| w in s;
      Weight(p, w) + Load(p, s - {w})
  }

  // The jobs before x, each of which can keep a worker for eight steps, and what the busy
  // workers have left.
  ghost function Ahead(p: Process, x: Id): nat {
    8 * Place(p.fifo, x) + Load(p, p.taken + p.running)
  }

  lemma {:induction false} LoadOf(p: Process, s: set<Id>, w: Id)
    requires w in s
    ensures Load(p, s) == Weight(p, w) + Load(p, s - {w})
    decreases |s|
  {
    var v :| v in s && Load(p, s) == Weight(p, v) + Load(p, s - {v});
    if v != w {
      LoadOf(p, s - {v}, w);
      LoadOf(p, s - {w}, v);
      assert s - {v} - {w} == s - {w} - {v};
    }
  }

  lemma {:induction false} SameLoad(p: Process, q: Process, s: set<Id>)
    requires forall w <- s :: Weight(q, w) == Weight(p, w)
    ensures Load(q, s) == Load(p, s)
    decreases |s|
  {
    if s != {} {
      var w :| w in s;
      LoadOf(p, s, w);
      LoadOf(q, s, w);
      SameLoad(p, q, s - {w});
    }
  }

  // One worker went on or is free again.
  lemma LoadLess(p: Process, q: Process, s: set<Id>, w: Id)
    requires w in s && forall v <- s :: v != w ==> Weight(q, v) == Weight(p, v)
    ensures Load(q, s - {w}) < Load(p, s)
    ensures Weight(q, w) < Weight(p, w) ==> Load(q, s) < Load(p, s)
  {
    LoadOf(p, s, w);
    LoadOf(q, s, w);
    SameLoad(p, q, s - {w});
  }

  // What a worker's step leaves as it is: the FIFO and everyone else.
  predicate OnlyWorker(p: Process, q: Process, w: Id) {
    && q.fifo == p.fifo && q.taken - {w} == p.taken - {w} && q.running - {w} == p.running - {w}
    && (w in q.taken + q.running ==> w in p.taken + p.running && Weight(q, w) < Weight(p, w))
  }

  lemma WorkerNearer(p: Process, e: Event, w: Id, x: Id)
    requires Enabled(p, e) && Subject(p, e) == Some(w) && !Enters(e) && w in p.taken + p.running
    requires OnlyWorker(p, Apply(p, e), w)
    ensures Ahead(Apply(p, e), x) < Ahead(p, x)
  {
    var q := Apply(p, e);
    forall v | v in p.taken + p.running && v != w ensures Weight(q, v) == Weight(p, v) {
      OthersWeigh(p, e, v);
      assert v in q.taken <==> v in q.taken - {w};
    }
    BusyLess(p, q, w);
  }

  lemma BusyLess(p: Process, q: Process, w: Id)
    requires OnlyWorker(p, q, w) && w in p.taken + p.running
    requires forall v <- p.taken + p.running :: v != w ==> Weight(q, v) == Weight(p, v)
    ensures Load(q, q.taken + q.running) < Load(p, p.taken + p.running)
  {
    var s, t := p.taken + p.running, q.taken + q.running;
    LoadLess(p, q, s, w);
    assert t - {w} == (q.taken - {w}) + (q.running - {w}) == s - {w};
    if w in t {
      assert t == (t - {w}) + {w} == s;
    } else {
      assert t == t - {w};
    }
  }

  lemma OthersWeigh(p: Process, e: Event, v: Id)
    requires Enabled(p, e) && !Enters(e) && Subject(p, e) != Some(v)
    ensures (v in Apply(p, e).taken <==> v in p.taken) ==> Weight(Apply(p, e), v) == Weight(p, v)
  {
    if v in p.tasks {
      OthersStay(p, e, v);
    } else if v in Apply(p, e).tasks {
      OnlyEntersAdd(p, e, v);
    }
  }

  // A worker begins the job it took.
  lemma BeginsNearer(p: Process, w: Id, x: Id)
    requires Inv(p) && w in p.taken
    ensures Fair(p, BeginJob(w)) && Ahead(Apply(p, BeginJob(w)), x) < Ahead(p, x)
    ensures Apply(p, BeginJob(w)).fifo == p.fifo
  {
    assert Placed(p, w);
    WorkerNearer(p, BeginJob(w), w, x);
  }

  // A worker goes on with its run.
  lemma GoesOnNearer(p: Process, w: Id, won: bool, x: Id)
    requires Inv(p) && w in p.running
    ensures w in p.tasks && StepsLeft(p, w) > 0
    ensures var e := NextStep(p, w, won);
            Fair(p, e) && Subject(p, e) == Some(w) && Ahead(Apply(p, e), x) < Ahead(p, x) && Apply(p, e).fifo == p.fifo
  {
    assert Placed(p, w);
    var e := NextStep(p, w, won);
    OwnStep(p, w, won);
    OwnStepCounts(p, w, won);
    RunningStep(p, w, won);
    WorkerNearer(p, e, w, x);
  }

  lemma RunningStep(p: Process, w: Id, won: bool)
    requires w in p.running && Placed(p, w) && Enabled(p, NextStep(p, w, won))
    requires w in Apply(p, NextStep(p, w, won)).tasks
    requires StepsLeft(Apply(p, NextStep(p, w, won)), w) < StepsLeft(p, w)
    ensures OnlyWorker(p, Apply(p, NextStep(p, w, won)), w)
  {
    var n := StepsLeft(p, w);
    if n >= 4 {
      RunningStepEarly(p, w, won);
    } else {
      RunningStepLate(p, w, won);
    }
  }

  lemma RunningStepEarly(p: Process, w: Id, won: bool)
    requires w in p.running && Placed(p, w) && Enabled(p, NextStep(p, w, won)) && StepsLeft(p, w) >= 4
    requires w in Apply(p, NextStep(p, w, won)).tasks
    requires StepsLeft(Apply(p, NextStep(p, w, won)), w) < StepsLeft(p, w)
    ensures OnlyWorker(p, Apply(p, NextStep(p, w, won)), w)
  {
    if p.tasks[w].pc.Claiming? {
      ClaimStep(p, w, won);
    } else {
      ExecutingStep(p, w, won);
    }
  }

  lemma ClaimStep(p: Process, w: Id, won: bool)
    requires w in p.running && Placed(p, w) && At(p, w, Claiming)
    requires w in Apply(p, Claim(w, won)).tasks && StepsLeft(Apply(p, Claim(w, won)), w) < StepsLeft(p, w)
    ensures OnlyWorker(p, Apply(p, Claim(w, won)), w)
  {
  }

  lemma ExecutingStep(p: Process, w: Id, won: bool)
    requires w in p.running && Placed(p, w) && At(p, w, Executing) && Enabled(p, RunEnds(w, Failed))
    requires w in Apply(p, RunEnds(w, Failed)).tasks && StepsLeft(Apply(p, RunEnds(w, Failed)), w) < StepsLeft(p, w)
    ensures OnlyWorker(p, Apply(p, RunEnds(w, Failed)), w)
  {
  }

  lemma RunningStepLate(p: Process, w: Id, won: bool)
    requires w in p.running && Placed(p, w) && 0 < StepsLeft(p, w) < 4 && Enabled(p, NextStep(p, w, won))
    requires w in Apply(p, NextStep(p, w, won)).tasks
    requires StepsLeft(Apply(p, NextStep(p, w, won)), w) < StepsLeft(p, w)
    ensures OnlyWorker(p, Apply(p, NextStep(p, w, won)), w)
  {
  }

  // The first job in the FIFO is taken.
  lemma TakeNearer(p: Process, x: Id)
    requires Inv(p) && CanTake(p) && x in p.fifo && p.fifo[0] != x
    ensures Fair(p, Take(p.fifo[0])) && Ahead(Apply(p, Take(p.fifo[0])), x) < Ahead(p, x)
    ensures x in Apply(p, Take(p.fifo[0])).fifo
  {
    var y := p.fifo[0];
    var q := Apply(p, Take(y));
    assert Placed(p, y) && y in p.fifo;
    assert p.fifo == [y] + q.fifo;
    var s := p.taken + p.running;
    assert q.taken + q.running == s + {y} && s + {y} - {y} == s;
    LoadOf(q, s + {y}, y);
    forall v | v in s ensures Weight(q, v) == Weight(p, v) {
      assert Placed(p, v);
    }
    SameLoad(p, q, s);
    assert Weight(q, y) <= 7;
  }

  lemma BusyWorker(p: Process, won: bool, x: Id) returns (e: Event)
    requires Inv(p) && p.maxConcurrent >= 1 && |p.taken + p.running| == p.maxConcurrent
    ensures Fair(p, e) && Ahead(Apply(p, e), x) < Ahead(p, x) && Apply(p, e).fifo == p.fifo
    ensures Subject(p, e).Some? && Subject(p, e).value in p.taken + p.running
  {
    var w :| w in p.taken + p.running;
    assert Placed(p, w);
    if w in p.taken {
      e := BeginJob(w);
      BeginsNearer(p, w, x);
    } else {
      GoesOnNearer(p, w, won, x);
      e := NextStep(p, w, won);
    }
  }

  /**
   No execution is ever stuck. Unless it waits in the FIFO, its own next step can be taken,
   whatever the store answers, and brings it nearer to its end. If it waits, a step can be
   taken that brings its turn nearer: the first job in the FIFO is taken, or all workers are
   busy and one of them goes on. So it is reached after at most `Ahead` such steps.
   */
  lemma NeverStuck(p: Process, x: Id, won: bool) returns (e: Event)
    requires Inv(p) && x in p.tasks && StepsLeft(p, x) > 0 && p.maxConcurrent >= 1
    ensures Fair(p, e)
    ensures !Waits(p, x) ==>
              Subject(p, e) == Some(x) && x in Apply(p, e).tasks && StepsLeft(Apply(p, e), x) < StepsLeft(p, x)
    ensures Waits(p, x) ==> x in p.fifo && x in Apply(p, e).fifo && Ahead(Apply(p, e), x) < Ahead(p, x)
    ensures Waits(p, x) && CanTake(p) ==> e == Take(p.fifo[0])
    ensures Waits(p, x) && !CanTake(p) ==>
              |p.taken + p.running| == p.maxConcurrent && Subject(p, e).Some? && Subject(p, e).value in p.taken + p.running
  {
    assert Placed(p, x);
    if !Waits(p, x) {
      e := NextStep(p, x, won);
      OwnStep(p, x, won);
      OwnStepCounts(p, x, won);
    } else if CanTake(p) {
      e := Take(p.fifo[0]);
      TakeNearer(p, x);
    } else {
      e := BusyWorker(p, won, x);
    }
  }

  // ---- recovery gets on ----

  // How many steps recovery has left once it has its listing, at most.
  function BootSteps(b: Boot): int {
    match b
    case NotBooted => 0
    case Parsing(listing, parsed) => 4 * |listing| - parsed + 2
    case Starting(pending, fates) => 3 * (|pending| - |fates|) + 1
    case Queueing(pending, fates) => 3 * (|pending| - |fates|) - 1
    case Dropping(pending, fates) => 3 * (|pending| - |fates|) - 1
    case Serving(_, _) => 0
  }

  lemma {:induction false} ReadableIsNoMore(listing: Listing)
    ensures |Readable(listing)| <= |listing|
  {
    if listing != [] {
      ReadableIsNoMore(listing[..|listing| - 1]);
    }
  }

  /**
   Recovery is never stuck, whatever the workers do meanwhile: it can always take its next step,
   which brings it nearer to serving. A run it registered is queued next, a run it refused has its
   row claimed next or recovery ends there, and a server that serves never recovers again.
   */
  lemma RecoveryGoesOn(p: Process) returns (e: Event)
    requires Inv(p) && !p.boot.Serving?
    ensures Fair(p, e) && IsBoot(e) && (p.boot.NotBooted? ==> Apply(p, e).boot == Parsing([], 0))
    ensures !p.boot.NotBooted? ==> 0 <= BootSteps(Apply(p, e).boot) < BootSteps(p.boot)
    ensures e.BootEnds? ==> p.boot.Starting? && !HasNext(p.boot) && Apply(p, e).boot.Serving?
  {
    match p.boot
    case NotBooted =>
      e := BootList([]);
    case Parsing(listing, parsed) =>
      ReadableIsNoMore(listing);
      e := if parsed < |listing| then BootParse else BootParsed;
    case Starting(pending, fates) =>
      e := if !HasNext(p.boot) then BootEnds
           else if Next(p.boot).ticket.cycle in p.registry.active then BootRefused
           else BootStart;
    case Queueing(pending, fates) =>
      e := BootEnqueue;
    case Dropping(pending, fates) =>
      e := BootDrop;
  }

  lemma RecoveryKeepsOrder(p: Process, e: Event)
    requires Enabled(p, e) && IsBoot(e)
    ensures !p.boot.Serving?
    ensures p.boot.Queueing? ==> e.BootEnqueue?
    ensures p.boot.Dropping? ==> e.BootDrop? || e.BootEnds?
    ensures p.boot.NotBooted? ==> e.BootList? || e.BootEnds?
  {
  }

  // ---- how long an execution stays in the registry ----

  // How many executions were released after x.
  function ReleasedAfter(log: seq<Id>, x: Id): nat {
    if log == [] || log[|log| - 1] == x then 0 else 1 + ReleasedAfter(log[..|log| - 1], x)
  }

  lemma {:induction false} ReleasedAfterIs(log: seq<Id>, x: Id, n: nat)
    requires Distinct(log) && x in log && n <= |log|
    ensures x in log[|log| - n..] <==> ReleasedAfter(log, x) < n
  {
    var last := |log| - 1;
    if n > 0 {
      var front, tail := log[..last], log[|log| - n..];
      assert tail == front[|front| - (n - 1)..] + [log[last]];
      if log[last] != x {
        var i :| 0 <= i < |log| && log[i] == x;
        assert front[i] == x;
        ReleasedAfterIs(front, x, n - 1);
      }
    }
  }

  /**
   An execution that `_start` returned is in the registry until it was released and
   `max_finished` others were released after it, whether or not it is done by then.
   */
  lemma InRegistryUntilPushedOut(p: Process, x: Id)
    requires Inv(p) && x in p.tasks && !p.tasks[x].pc.RolledBack? && !p.tasks[x].pc.Gone?
    ensures x in p.registry.states <==> (Over(p.tasks[x].pc) ==> ReleasedAfter(p.log, x) < p.maxFinished)
    ensures !p.tasks[x].x.done ==>
              (x !in p.registry.states
               <==> p.tasks[x].pc.Released? && ReleasedAfter(p.log, x) >= p.maxFinished)
  {
    assert Placed(p, x);
    if Over(p.tasks[x].pc) {
      var n := if |p.log| < p.maxFinished then |p.log| else p.maxFinished;
      assert p.registry.finished == p.log[|p.log| - n..];
      ReleasedAfterIs(p.log, x, n);
      AtMostTheRest(p.log, x);
    }
  }

  lemma {:induction false} AtMostTheRest(log: seq<Id>, x: Id)
    requires x in log
    ensures ReleasedAfter(log, x) < |log|
  {
    var last := |log| - 1;
    if log[last] != x {
      AtMostTheRest(log[..last], x);
    }
  }

  /** The step that takes an execution out of the registry: its own, or the release that is one too many. */
  lemma LeavesRegistry(p: Process, e: Event, x: Id)
    requires Inv(p) && Fair(p, e) && x in p.tasks && x in p.registry.states
    ensures x !in Apply(p, e).registry.states <==>
              || (Leaves(e) && e.id == x)
              || (e.ReleaseCycle? && Over(p.tasks[x].pc) && ReleasedAfter(p.log, x) + 1 == p.maxFinished)
  {
    StepKeeps(p, e);
    assert Placed(p, x) && Placed(Apply(p, e), x);
    if e.ReleaseCycle? {
      PushedOut(p, e, x);
    } else {
      OthersStayRegistered(p, e, x);
    }
  }

  lemma PushedOut(p: Process, e: Event, x: Id)
    requires Inv(p) && Enabled(p, e) && e.ReleaseCycle? && x in p.tasks && x in p.registry.states
    requires Inv(Apply(p, e))
    ensures x !in Apply(p, e).registry.states <==>
              Over(p.tasks[x].pc) && ReleasedAfter(p.log, x) + 1 == p.maxFinished
  {
    assert Placed(p, x) && Placed(p, e.id);
    ReleasedMore(p.log, e.id, x);
    InRegistryUntilPushedOut(p, x);
    ReleasedTasks(p, e, x);
    InRegistryUntilPushedOut(Apply(p, e), x);
  }

  lemma ReleasedMore(log: seq<Id>, id: Id, x: Id)
    ensures ReleasedAfter(log + [id], x) == if x == id then 0 else 1 + ReleasedAfter(log, x)
  {
    assert (log + [id])[..|log|] == log;
  }

  lemma ReleasedTasks(p: Process, e: Event, x: Id)
    requires Enabled(p, e) && e.ReleaseCycle? && x in p.tasks
    ensures var q := Apply(p, e);
            && q.log == p.log + [e.id] && q.maxFinished == p.maxFinished && x in q.tasks
            && (x != e.id ==> q.tasks[x] == p.tasks[x]) && (x == e.id ==> q.tasks[x].pc.Released? && p.tasks[x].pc.Ended?)
  {
  }

  lemma OthersStayRegistered(p: Process, e: Event, x: Id)
    requires Enabled(p, e) && !e.ReleaseCycle?
    ensures x in p.registry.states && x !in Apply(p, e).registry.states ==> Leaves(e) && e.id == x
    ensures Leaves(e) ==> e.id !in Apply(p, e).registry.states
  {
  }

  // ---- what can happen from a state ----

  // From p the events lead to q.
  ghost predicate Leads(p: Process, es: seq<Event>, q: Process)
    decreases |es|
  {
    if es == [] then p == q else Fair(p, es[0]) && Leads(Apply(p, es[0]), es[1..], q)
  }

  ghost predicate Reaches(p: Process, q: Process) {
    exists es :: Leads(p, es, q)
  }

  lemma ReachesSelf(p: Process)
    ensures Reaches(p, p)
  {
    assert Leads(p, [], p);
  }

  lemma Step(p: Process, q: Process, e: Event)
    requires Reaches(p, q) && Fair(q, e)
    ensures Reaches(p, Apply(q, e))
  {
    var es :| Leads(p, es, q);
    LeadsOn(p, es, q, [e], Apply(q, e));
  }

  lemma Further(p: Process, q: Process, r: Process)
    requires Reaches(p, q) && Reaches(q, r)
    ensures Reaches(p, r)
  {
    var es :| Leads(p, es, q);
    var fs :| Leads(q, fs, r);
    LeadsOn(p, es, q, fs, r);
  }

  lemma {:induction false} LeadsOn(p: Process, es: seq<Event>, q: Process, fs: seq<Event>, r: Process)
    requires Leads(p, es, q) && Leads(q, fs, r)
    ensures Leads(p, es + fs, r)
    decreases |es|
  {
    if es == [] {
      assert es + fs == fs;
    } else {
      assert (es + fs)[0] == es[0] && (es + fs)[1..] == es[1..] + fs;
      LeadsOn(Apply(p, es[0]), es[1..], q, fs, r);
    }
  }

  // A process that recovered nothing.
  lemma Boots(p: Process)
    requires p.boot.NotBooted?
    ensures Reaches(p, p.(boot := Serving([], [])))
  {
    var p1 := Apply(p, BootList([]));
    var p2 := Apply(p1, BootParsed);
    ReachesSelf(p);
    Step(p, p, BootList([]));
    Step(p, p1, BootParsed);
    Step(p, p2, BootEnds);
  }

  // The process after `_start` returned x.
  function Queue(p: Process, x: Id, ticket: RunTicket): Process
    requires ticket.cycle !in p.registry.active
  {
    p.(tasks := p.tasks[x := NewTask(ticket, 0, Waiting)], fifo := p.fifo + [x],
       registry := Register(p.registry, x, ticket.cycle))
  }

  // The process after x was registered and its row added.
  function Stores(p: Process, x: Id, ticket: RunTicket): Process
    requires ticket.cycle !in p.registry.active
  {
    p.(tasks := p.tasks[x := NewTask(ticket, 0, Stored)], registry := Register(p.registry, x, ticket.cycle))
  }

  lemma StartStores(p: Process, x: Id, ticket: RunTicket)
    requires p.boot.Serving? && x !in p.tasks && ticket.cycle !in p.registry.active
    ensures Reaches(p, Stores(p, x, ticket))
  {
    var p1 := Apply(p, Start(x, ticket, 0));
    ReachesSelf(p);
    Step(p, p, Start(x, ticket, 0));
    Step(p, p1, Add(x));
    assert p.tasks[x := NewTask(ticket, 0, Registered)][x := NewTask(ticket, 0, Stored)] == Stores(p, x, ticket).tasks;
    assert Apply(p1, Add(x)) == Stores(p, x, ticket);
  }

  lemma StartReturns(p: Process, x: Id, ticket: RunTicket)
    requires p.boot.Serving? && x !in p.tasks && ticket.cycle !in p.registry.active
    ensures Reaches(p, Queue(p, x, ticket))
  {
    var q := Stores(p, x, ticket);
    StartStores(p, x, ticket);
    Step(p, q, Enqueue(x));
    assert q.tasks[x := NewTask(ticket, 0, Waiting)] == Queue(p, x, ticket).tasks;
    assert Apply(q, Enqueue(x)) == Queue(p, x, ticket);
  }

  // ---- an execution that is gone before it is done ----

  // An execution of cycle c that was cancelled while queued, before its release.
  predicate AwaitsRelease(p: Process, x: Id, c: Cycle) {
    && x in p.tasks && p.tasks[x].pc == Ended(Canceler, Cancelled) && !p.tasks[x].x.done
    && p.tasks[x].x.cycle == c && x in p.registry.states
  }

  // The cancel that wins a queued execution, up to the release.
  lemma CancelWinsQueued(p: Process, x: Id) returns (q: Process)
    requires p.boot.Serving? && x in p.tasks && p.tasks[x].pc.Waiting? && x in p.registry.states
    requires CancelWins(p.tasks[x].x) && !p.tasks[x].x.hasEvents
    ensures Reaches(p, q) && AwaitsRelease(q, x, p.tasks[x].x.cycle)
    ensures q.boot == p.boot && q.registry == p.registry && q.log == p.log && q.maxFinished == p.maxFinished
    ensures q.tasks.Keys == p.tasks.Keys && forall y <- p.tasks :: y != x ==> q.tasks[y] == p.tasks[y]
  {
    var p1 := Apply(p, Cancel(x));
    var p2 := Apply(p1, CancelClaim(x));
    q := Apply(p2, EventsEnd(x, true));
    ReachesSelf(p);
    Step(p, p, Cancel(x));
    Step(p, p1, CancelClaim(x));
    Step(p, p2, EventsEnd(x, true));
  }

  lemma QueueAndCancel(p: Process, x: Id, ticket: RunTicket) returns (q: Process)
    requires p.boot.Serving? && x !in p.tasks && ticket.cycle !in p.registry.active
    ensures Reaches(p, q) && AwaitsRelease(q, x, ticket.cycle) && q.boot == p.boot
    ensures q.registry == Register(p.registry, x, ticket.cycle)
    ensures q.log == p.log && q.maxFinished == p.maxFinished
    ensures q.tasks.Keys == p.tasks.Keys + {x} && forall y <- p.tasks :: q.tasks[y] == p.tasks[y]
  {
    StartReturns(p, x, ticket);
    q := CancelWinsQueued(Queue(p, x, ticket), x);
    Further(p, Queue(p, x, ticket), q);
  }

  lemma TwoReleases(p: Process, x: Id, y: Id) returns (q: Process)
    requires x != y && p.maxFinished == 1 && p.registry.finished == []
    requires x in p.tasks && AwaitsRelease(p, x, p.tasks[x].x.cycle)
    requires y in p.tasks && AwaitsRelease(p, y, p.tasks[y].x.cycle)
    ensures Reaches(p, q)
    ensures x in q.tasks && q.tasks[x].pc.Released? && !q.tasks[x].x.done && x !in q.registry.states
  {
    var p1 := Apply(p, ReleaseCycle(x));
    q := Apply(p1, ReleaseCycle(y));
    assert p1.registry.finished == [x] && ([x] + [y])[0] == x;
    ReachesSelf(p);
    Step(p, p, ReleaseCycle(x));
    Step(p, p1, ReleaseCycle(y));
  }

  /**
   The final status cannot always be read: a server that keeps one finished execution, and two
   of them stopped while queued. The first is released but not done yet when the second is
   released, and is gone from the registry before it reports its status.
   */
  lemma GoneBeforeDone(x: Id, y: Id, a: RunTicket, b: RunTicket) returns (q: Process)
    requires x != y && a.cycle != b.cycle
    ensures Reaches(FreshProcess(map[], 1, 1), q)
    ensures x in q.tasks && q.tasks[x].pc.Released? && !q.tasks[x].x.done && x !in q.registry.states
  {
    var p := FreshProcess(map[], 1, 1);
    Boots(p);
    var p1 := p.(boot := Serving([], []));
    var p2 := QueueAndCancel(p1, x, a);
    var p3 := QueueAndCancel(p2, y, b);
    q := TwoReleases(p3, x, y);
    Further(p, p1, p2);
    Further(p, p2, p3);
    Further(p, p3, q);
  }
}
