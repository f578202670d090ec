/**
 A viewer that is overtaken by a later run of the cycle, in the processes themselves: the
 events that lead there, for any bytes the two runs append.
 */
module RunOvertaken {
  import opened Wrappers
  import opened RunQueue
  import opened Registry
  import opened RunProcess
  import opened RunProgress
  import opened EventStream
  import opened RunStream

  // x waits alone in the FIFO and a worker is free.
  predicate IsNext(p: Process, x: Id) {
    && At(p, x, Waiting) && p.tasks[x].x.status.Queued? && !p.tasks[x].x.hasEvents && !p.tasks[x].x.done
    && p.fifo == [x] && p.taken == {} && |p.running| < p.maxConcurrent
  }

  // Only x moved.
  ghost predicate OnlyMoved(p: Process, q: Process, x: Id) {
    && x in p.tasks && x in q.tasks && q.tasks.Keys == p.tasks.Keys
    && q.tasks[x].x.cycle == p.tasks[x].x.cycle && q.tasks[x].x.stopped == p.tasks[x].x.stopped
    && !q.tasks[x].x.done
    && q.boot == p.boot && q.fifo == [] && q.taken == {}
    && q.maxFinished == p.maxFinished && q.maxConcurrent == p.maxConcurrent
  }

  lemma IsTaken(p: Process, x: Id) returns (q: Process)
    requires IsNext(p, x)
    ensures Reaches(p, q) && OnlyMoved(p, q, x) && At(q, x, Executing) && !q.tasks[x].x.hasEvents
    ensures q.running == p.running + {x} && q.files == p.files && q.registry == p.registry
    ensures forall y <- p.tasks :: y != x ==> q.tasks[y] == p.tasks[y]
  {
    var p1 := IsBegun(p, x);
    q := Apply(p1, Claim(x, true));
    Step(p, p1, Claim(x, true));
  }

  lemma IsBegun(p: Process, x: Id) returns (q: Process)
    requires IsNext(p, x)
    ensures Reaches(p, q) && OnlyMoved(p, q, x) && At(q, x, Claiming) && !q.tasks[x].x.hasEvents
    ensures q.running == p.running + {x} && q.files == p.files && q.registry == p.registry
    ensures forall y <- p.tasks :: y != x ==> q.tasks[y] == p.tasks[y]
  {
    var p1 := p.(fifo := [], taken := {x});
    TakesNext(p, x);
    q := Apply(p1, BeginJob(x));
    Step(p, p1, BeginJob(x));
  }

  lemma TakesNext(p: Process, x: Id)
    requires IsNext(p, x)
    ensures Reaches(p, p.(fifo := [], taken := {x}))
  {
    assert p.taken + p.running == p.running;
    ReachesSelf(p);
    Step(p, p, Take(x));
    assert Apply(p, Take(x)) == p.(fifo := [], taken := {x});
  }

  lemma Appends(p: Process, x: Id, bytes: Bytes) returns (q: Process)
    requires At(p, x, Executing) && !p.tasks[x].x.hasEvents && !p.tasks[x].x.done && p.fifo == [] && p.taken == {}
    ensures Reaches(p, q) && OnlyMoved(p, q, x) && At(q, x, Executing) && q.tasks[x].x.hasEvents
    ensures q.tasks[x].x.startOffset == |File(p, p.tasks[x].x.cycle)|
    ensures File(q, p.tasks[x].x.cycle) == File(p, p.tasks[x].x.cycle) + Cells(x, bytes)
    ensures q.running == p.running && q.registry == p.registry
    ensures forall y <- p.tasks :: y != x ==> q.tasks[y] == p.tasks[y]
  {
    var p1 := Apply(p, EventsStart(x, true));
    q := Apply(p1, Append(x, bytes));
    ReachesSelf(p);
    Step(p, p, EventsStart(x, true));
    Step(p, p1, Append(x, bytes));
  }

  // Up to the release of the cycle; `done` comes later.
  lemma IsReleased(p: Process, x: Id, outcome: Status) returns (q: Process)
    requires outcome.Completed? || outcome.Failed?
    requires At(p, x, Executing) && p.tasks[x].x.hasEvents && !p.tasks[x].x.done && !p.tasks[x].x.stopped
    requires p.registry == Registry({x}, map[p.tasks[x].x.cycle := x], []) && p.maxFinished >= 1
    requires p.fifo == [] && p.taken == {}
    ensures Reaches(p, q) && OnlyMoved(p, q, x) && q.tasks[x].pc == Released(Worker, outcome)
    ensures q.tasks[x].x.endOffset == Some(|File(p, p.tasks[x].x.cycle)|)
    ensures q.registry == Registry({x}, map[], [x]) && q.running == p.running && q.files == p.files
  {
    var p1 := HasEnded(p, x, outcome);
    q := Apply(p1, ReleaseCycle(x));
    Step(p, p1, ReleaseCycle(x));
    assert q.registry.active == map[];
    assert q.registry.states == {x};
  }

  lemma HasEnded(p: Process, x: Id, outcome: Status) returns (q: Process)
    requires outcome.Completed? || outcome.Failed?
    requires At(p, x, Executing) && p.tasks[x].x.hasEvents && !p.tasks[x].x.done && !p.tasks[x].x.stopped
    requires p.fifo == [] && p.taken == {}
    ensures Reaches(p, q) && OnlyMoved(p, q, x) && q.tasks[x].pc == Ended(Worker, outcome)
    ensures q.tasks[x].x.endOffset == Some(|File(p, p.tasks[x].x.cycle)|)
    ensures q.registry == p.registry && q.running == p.running && q.files == p.files
  {
    var p1 := Apply(p, RunEnds(x, outcome));
    q := Apply(p1, EventsEnd(x, true));
    ReachesSelf(p);
    Step(p, p, RunEnds(x, outcome));
    Step(p, p1, EventsEnd(x, true));
  }

  // A first run x of a cycle that appended `first`, seen live in `s` and done in `r2`, and a
  // later run y that appended `second` in between.
  ghost predicate IsOvertaken(s: Process, r1: Process, r2: Process, x: Id, c: Cycle, first: Bytes, second: Bytes) {
    && Reaches(FreshProcess(map[], 1, 2), s) && Reaches(s, r1) && Reaches(r1, r2)
    && x in s.tasks && s.tasks[x].x.hasEvents && s.tasks[x].x.startOffset == 0 && SampleEnd(s, x) == None
    && BytesOf(File(r1, c)) == first + second
    && x in r2.tasks && SampleEnd(r2, x) == Some(|first|) && BytesOf(File(r2, c)) == first + second
  }

  lemma FirstRuns(x: Id, a: RunTicket, first: Bytes, outcome: Status) returns (s: Process, q: Process)
    requires outcome.Completed? || outcome.Failed?
    ensures Reaches(FreshProcess(map[], 1, 2), s) && Reaches(s, q)
    ensures x in s.tasks && s.tasks[x].x.hasEvents && s.tasks[x].x.startOffset == 0 && SampleEnd(s, x) == None
    ensures x in q.tasks && q.tasks[x].pc == Released(Worker, outcome) && !q.tasks[x].x.done
    ensures q.tasks[x].x.endOffset == Some(|first|)
    ensures q.registry == Registry({x}, map[], [x]) && q.tasks.Keys == {x} && q.boot.Serving?
    ensures q.fifo == [] && q.taken == {} && q.running == {x} && q.maxConcurrent == 2 && q.maxFinished == 1
    ensures File(q, a.cycle) == Cells(x, first)
  {
    var p := FirstIsQueued(x, a);
    var p1 := IsTaken(p, x);
    s := Appends(p1, x, first);
    q := IsReleased(s, x, outcome);
    Further(FreshProcess(map[], 1, 2), p, p1);
    Further(FreshProcess(map[], 1, 2), p1, s);
    assert [] + Cells(x, first) == Cells(x, first);
  }

  lemma FirstIsQueued(x: Id, a: RunTicket) returns (q: Process)
    ensures Reaches(FreshProcess(map[], 1, 2), q) && IsNext(q, x) && q.tasks.Keys == {x} && q.running == {}
    ensures q.tasks[x].x == NewExecution(a.cycle) && q.registry == Registry({x}, map[a.cycle := x], [])
    ensures q.boot.Serving? && q.files == map[] && q.maxConcurrent == 2 && q.maxFinished == 1
  {
    var p := FreshProcess(map[], 1, 2);
    var p1 := p.(boot := Serving([], []));
    Boots(p);
    StartReturns(p1, x, a);
    q := Queue(p1, x, a);
    Further(p, p1, q);
  }

  lemma SecondRuns(q: Process, x: Id, y: Id, b: RunTicket, second: Bytes, outcome: Status) returns (r1: Process, r2: Process)
    requires x != y && x in q.tasks && q.tasks[x].pc == Released(Worker, outcome) && !q.tasks[x].x.done
    requires q.registry == Registry({x}, map[], [x]) && q.tasks.Keys == {x} && q.boot.Serving?
    requires q.fifo == [] && q.taken == {} && q.running == {x} && q.maxConcurrent == 2
    requires q.tasks[x].x.endOffset.Some?
    ensures Reaches(q, r1) && Reaches(r1, r2)
    ensures x in r2.tasks && SampleEnd(r2, x) == q.tasks[x].x.endOffset && r2.tasks[x].x.status == outcome
    ensures File(r1, b.cycle) == File(q, b.cycle) + Cells(y, second) && r2.files == r1.files
  {
    StartReturns(q, y, b);
    var q1 := Queue(q, y, b);
    var q2 := IsTaken(q1, y);
    r1 := Appends(q2, y, second);
    r2 := Apply(r1, Done(x));
    Further(q, q1, q2);
    Further(q, q2, r1);
    ReachesSelf(r1);
    Step(r1, r1, Done(x));
  }

  lemma Overtaken(x: Id, y: Id, a: RunTicket, b: RunTicket, first: Bytes, second: Bytes, outcome: Status)
    returns (s: Process, r1: Process, r2: Process)
    requires x != y && a.cycle == b.cycle && (outcome.Completed? || outcome.Failed?)
    ensures IsOvertaken(s, r1, r2, x, a.cycle, first, second) && r2.tasks[x].x.status == outcome
  {
    var q;
    s, q := FirstRuns(x, a, first, outcome);
    r1, r2 := SecondRuns(q, x, y, b, second, outcome);
    Further(s, q, r1);
    BytesOfCells(x, first, y, second);
  }

  lemma BytesOfCells(x: Id, first: Bytes, y: Id, second: Bytes)
    ensures BytesOf(Cells(x, first) + Cells(y, second)) == first + second
  {
  }

  // What a viewer of x sends who looked at the end in `s` and at the file in `r1`, and at both in `r2`.
  ghost function SentIn<E>(parse: LineParser<E>, s: Process, r1: Process, r2: Process, x: Id, c: Cycle): seq<E>
    requires x in s.tasks && x in r2.tasks
  {
    Delivered(parse, s.tasks[x].x.startOffset,
              [Poll(SampleEnd(s, x), Some(BytesOf(File(r1, c)))), Poll(SampleEnd(r2, x), Some(BytesOf(File(r2, c))))])
  }

  /** The viewer of a run that appended one event is sent the event of the next run too. */
  lemma ViewerSeesNextRun(x: Id, y: Id, a: RunTicket, b: RunTicket) returns (s: Process, r1: Process, r2: Process)
    requires x != y && a.cycle == b.cycle
    ensures IsOvertaken(s, r1, r2, x, a.cycle, [97, NEWLINE], [98, NEWLINE])
    ensures SentIn(Echo, s, r1, r2, x, a.cycle) == [[97], [98]] && Parse(Echo, [97, NEWLINE]) == [[97]]
  {
    s, r1, r2 := Overtaken(x, y, a, b, [97, NEWLINE], [98, NEWLINE], Completed);
    LateReadShowsNextRun();
    OneLine(97);
    assert [97, NEWLINE] + [98, NEWLINE] == [97, NEWLINE, 98, NEWLINE];
  }

  /** The viewer of a run that failed while its last line was being written can miss that line's event. */
  lemma ViewerMissesTornLine(x: Id, y: Id, a: RunTicket, b: RunTicket) returns (s: Process, r1: Process, r2: Process)
    requires x != y && a.cycle == b.cycle
    ensures IsOvertaken(s, r1, r2, x, a.cycle, [97], [98, NEWLINE]) && r2.tasks[x].x.status.Failed?
    ensures SentIn(Echo, s, r1, r2, x, a.cycle) == [[97, 98]] && Parse(Echo, [97]) == [[97]]
  {
    s, r1, r2 := Overtaken(x, y, a, b, [97], [98, NEWLINE], Failed);
    TornLineIsLost();
    var file: Bytes := [97, 98, NEWLINE];
    assert file[0..1] == [97] && [97] + [98, NEWLINE] == file;
  }
}
