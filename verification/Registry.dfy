/**
 The lock regions of `CycleExecutionManager` and `CycleExecutionState`: each is a function
 on values, and a method of the class that performs exactly that function in place.
 */
module Registry {
  import opened Wrappers
  import opened RunQueue

  datatype Status = Queued | Running | Completed | Failed | Cancelled

  predicate Terminal(s: Status) {
    s.Completed? || s.Failed? || s.Cancelled?
  }

  datatype Execution = Execution(
    cycle: Cycle,
    status: Status,
    hasEvents: bool,          // events_path is not None
    startOffset: nat,
    endOffset: Option<nat>,
    done: bool,
    stopped: bool)            // stop.signum is not None

  // ---- regions under one execution's lock ----

  function NewExecution(cycle: Cycle): Execution {
    Execution(cycle, Queued, false, 0, None, false, false)
  }

  predicate CancelWins(x: Execution) {
    !x.done && x.status.Queued?
  }

  function MarkCancelled(x: Execution): Execution {
    if CancelWins(x) then x.(status := Cancelled) else x
  }

  function Begin(x: Execution): Execution {
    if x.status.Queued? then x.(status := Running) else x
  }

  // `size` is the events file's size, None when reading it failed.
  function RecordStart(x: Execution, size: Option<nat>): Execution {
    x.(hasEvents := true, startOffset := if size.Some? then size.value else 0)
  }

  function RecordEnd(x: Execution, size: Option<nat>): Execution {
    if x.hasEvents
    then x.(endOffset := Some(if size.Some? then size.value else x.startOffset))
    else x
  }

  function MarkDone(x: Execution, status: Status): Execution {
    x.(status := status, done := true)
  }

  class CycleExecutionState {
    const cycle: Cycle
    var status: Status
    var hasEvents: bool
    var eventsStartOffset: nat
    var eventsEndOffset: Option<nat>
    var done: bool
    var stopped: bool
    var error: Option<Token<string>>

    function View(): Execution
      reads this
    {
      Execution(cycle, status, hasEvents, eventsStartOffset, eventsEndOffset, done, stopped)
    }

    constructor (cycle: Cycle)
      ensures View() == NewExecution(cycle) && error == None
    {
      this.cycle := cycle;
      status, hasEvents, eventsStartOffset, eventsEndOffset, done, stopped := Queued, false, 0, None, false, false;
      error := None;
    }

    // The first region of `cancel`.
    method Cancel() returns (wasQueued: bool)
      modifies this`status
      ensures wasQueued == CancelWins(old(View())) && View() == MarkCancelled(old(View()))
    {
      if done {
        return false;
      }
      wasQueued := status == Queued;
      if wasQueued {
        status := Cancelled;
      }
    }

    method StopRequested()
      modifies this`stopped
      ensures View() == old(View()).(stopped := true)
    {
      stopped := true;
    }

    // The first region of `_claim_and_run`; false means it was stopped while it waited.
    method BeginRun() returns (go: bool)
      modifies this`status
      ensures go == old(View()).status.Queued? && View() == Begin(old(View()))
    {
      if status != Queued {
        return false;
      }
      status := Running;
      go := true;
    }

    method SetEventsStart(size: Option<nat>)
      modifies this`hasEvents, this`eventsStartOffset
      ensures View() == RecordStart(old(View()), size)
    {
      var start := 0;
      if size.Some? {
        start := size.value;
      }
      hasEvents, eventsStartOffset := true, start;
    }

    method SetEventsEnd(size: Option<nat>)
      modifies this`eventsEndOffset
      ensures View() == RecordEnd(old(View()), size)
    {
      if hasEvents {
        var end := eventsStartOffset;
        if size.Some? {
          end := size.value;
        }
        eventsEndOffset := Some(end);
      }
    }

    method SetDone(status: Status, error: Option<Token<string>>)
      modifies this`status, this`done, this`error
      ensures View() == MarkDone(old(View()), status) && this.error == error
    {
      this.status, this.error, done := status, error, true;
    }
  }

  // ---- regions under the manager's registry lock ----

  datatype Registry = Registry(states: set<Id>, active: map<Cycle, Id>, finished: seq<Id>)

  function Register(r: Registry, id: Id, cycle: Cycle): Registry
    requires cycle !in r.active
  {
    r.(states := r.states + {id}, active := r.active[cycle := id])
  }

  // After a failed `add`: the cycle is freed whoever holds it.
  function Rollback(r: Registry, id: Id, cycle: Cycle): Registry {
    r.(states := r.states - {id}, active := r.active - {cycle})
  }

  function FreeCycle(active: map<Cycle, Id>, id: Id, cycle: Cycle): map<Cycle, Id> {
    if cycle in active && active[cycle] == id then active - {cycle} else active
  }

  function DropLost(r: Registry, id: Id, cycle: Cycle): Registry {
    r.(states := r.states - {id}, active := FreeCycle(r.active, id, cycle))
  }

  // How many of `n` finished executions are too many.
  function Excess(n: nat, maxFinished: nat): (k: nat)
    ensures k <= n
  {
    if n > maxFinished then n - maxFinished else 0
  }

  function Release(r: Registry, id: Id, cycle: Cycle, maxFinished: nat): Registry {
    var queue := r.finished + [id];
    var k := Excess(|queue|, maxFinished);
    Registry(r.states - (set i | 0 <= i < k :: queue[i]), FreeCycle(r.active, id, cycle), queue[k..])
  }

  class CycleExecutionManager {
    var states: map<Id, CycleExecutionState>
    var activeByCycle: map<Cycle, Id>
    var finished: seq<Id>
    const maxFinished: nat

    function View(): Registry
      reads this
    {
      Registry(states.Keys, activeByCycle, finished)
    }

    constructor (maxFinished: int)
      ensures View() == Registry({}, map[], [])
      ensures this.maxFinished == if maxFinished < 1 then 1 else maxFinished
    {
      states, activeByCycle, finished := map[], map[], [];
      this.maxFinished := if maxFinished < 1 then 1 else maxFinished;
    }

    // The region of `_start`; false stands for the RuntimeError "already running".
    method StartRegion(id: Id, state: CycleExecutionState) returns (ok: bool)
      modifies this
      ensures ok == (state.cycle !in old(View()).active)
      ensures View() == if ok then Register(old(View()), id, state.cycle) else old(View())
      ensures states == if ok then old(states)[id := state] else old(states)
    {
      if state.cycle in activeByCycle {
        return false;
      }
      states := states[id := state];
      activeByCycle := activeByCycle[state.cycle := id];
      ok := true;
    }

    method RollbackRegion(id: Id, cycle: Cycle)
      modifies this
      ensures View() == Rollback(old(View()), id, cycle)
    {
      states := states - {id};
      activeByCycle := activeByCycle - {cycle};
    }

    // A run that another server process claimed first.
    method DropLostRegion(id: Id, cycle: Cycle)
      modifies this
      ensures View() == DropLost(old(View()), id, cycle)
    {
      states := states - {id};
      if cycle in activeByCycle && activeByCycle[cycle] == id {
        activeByCycle := activeByCycle - {cycle};
      }
    }

    // The region of `_finish`, with its eviction loop.
    method ReleaseRegion(id: Id, cycle: Cycle)
      modifies this
      ensures View() == Release(old(View()), id, cycle, maxFinished)
      ensures forall x <- states :: x in old(states) && states[x] == old(states)[x]
    {
      if cycle in activeByCycle && activeByCycle[cycle] == id {
        activeByCycle := activeByCycle - {cycle};
      }
      finished := finished + [id];
      Evict();
    }

    // The eviction loop.
    method Evict()
      modifies this`states, this`finished
      ensures var k := Excess(|old(finished)|, maxFinished);
              && finished == old(finished)[k..]
              && states == old(states) - (set i | 0 <= i < k :: old(finished)[i])
    {
      ghost var queue := finished;
      ghost var k := 0;
      while |finished| > maxFinished
        invariant 0 <= k <= Excess(|queue|, maxFinished)
        invariant finished == queue[k..]
        invariant states == old(states) - set i | 0 <= i < k :: queue[i]
      {
        assert (set i | 0 <= i < k + 1 :: queue[i]) == (set i | 0 <= i < k :: queue[i]) + {queue[k]};
        states := states - {finished[0]};
        finished := finished[1..];
        k := k + 1;
      }
    }
  }
}
