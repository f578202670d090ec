/**
 A viewer of one execution in a running system: it learns the start offset, then polls the
 execution's end and the cycle's events file while every process goes on.
 */
module RunStream {
  import opened Wrappers
  import opened RunQueue
  import opened Registry
  import opened RunProcess
  import opened RunSystem
  import opened EventStream

  function BytesOf(f: seq<Cell>): Bytes {
    seq(|f|, i requires 0 <= i < |f| => f[i].byte)
  }

  // The bytes execution x appended, in file order.
  function OwnBytes(f: seq<Cell>, x: Id): Bytes {
    if f == [] then []
    else OwnBytes(f[..|f| - 1], x) + (if f[|f| - 1].owner == Some(x) then [f[|f| - 1].byte] else [])
  }

  lemma {:induction false} OwnBytesOfRange(f: seq<Cell>, x: Id, a: nat, b: nat)
    requires a <= b <= |f|
    requires forall k: nat :: Owns(f, x, k) <==> a <= k < b
    ensures OwnBytes(f, x) == BytesOf(f)[a..b]
  {
    if f != [] {
      var n := |f| - 1;
      var g := f[..n];
      var b' := if b > n then n else b;
      var a' := if a > n then n else a;
      forall k: nat ensures Owns(g, x, k) <==> a' <= k < b' {
        assert Owns(g, x, k) <==> k < n && Owns(f, x, k);
      }
      OwnBytesOfRange(g, x, a', b');
      assert Owns(f, x, n) <==> a <= n < b;
      assert BytesOf(g) == BytesOf(f)[..n];
    }
  }

  // `end_offset()`: 0 once the execution was evicted.
  function SampleEnd(p: Process, x: Id): Option<nat>
    requires x in p.tasks
  {
    var t := p.tasks[x].x;
    if x !in p.registry.states then Some(0)
    else if t.done then Some(if t.endOffset.Some? then t.endOffset.value else 0)
    else None
  }

  // The two moments of one turn of the polling loop, as positions in the run.
  datatype Turn = Turn(sample: nat, read: nat)

  ghost predicate Alive(ss: seq<System>, i: nat, pid: Pid, x: Id) {
    i < |ss| && pid in ss[i].procs && x in ss[i].procs[pid].tasks
  }

  // What the viewer's turn sees.
  ghost function Seen(ss: seq<System>, t: Turn, pid: Pid, x: Id): Poll
    requires Alive(ss, t.sample, pid, x) && Alive(ss, t.read, pid, x)
  {
    var p := ss[t.read].procs[pid];
    Poll(SampleEnd(ss[t.sample].procs[pid], x), Some(BytesOf(File(p, p.tasks[x].x.cycle))))
  }

  // A viewer that knew the events path at `born`, took `turns` in order, saw the run done in
  // the last one and not before, while the execution stayed in the registry.
  ghost predicate Follows(ss: seq<System>, born: nat, turns: seq<Turn>, pid: Pid, x: Id) {
    && |turns| > 0 && Alive(ss, born, pid, x) && ss[born].procs[pid].tasks[x].x.hasEvents
    && (forall k :: 0 <= k < |turns| ==>
          && born <= turns[k].sample <= turns[k].read <= turns[|turns| - 1].read
          && Alive(ss, turns[k].sample, pid, x) && Alive(ss, turns[k].read, pid, x)
          && x in ss[turns[k].sample].procs[pid].registry.states
          && (ss[turns[k].sample].procs[pid].tasks[x].x.done <==> k == |turns| - 1))
  }

  ghost function Polls(ss: seq<System>, born: nat, turns: seq<Turn>, pid: Pid, x: Id, n: nat): seq<Poll>
    requires Follows(ss, born, turns, pid, x) && n <= |turns|
  {
    seq(n, k requires 0 <= k < n => Seen(ss, turns[k], pid, x))
  }

  // ---- what stays while the viewer follows ----

  lemma FileGrows(p: Process, e: Event, c: Cycle)
    requires Enabled(p, e)
    ensures File(p, c) <= File(Apply(p, e), c)
  {
    if !e.Append? {
      OnlyAppendWrites(p, e);
    }
  }

  lemma EventKeepsOffsets(p: Process, e: Event, x: Id)
    requires Inv(p) && Fair(p, e) && x in p.tasks
    ensures x in Apply(p, e).tasks
    ensures var t, u := p.tasks[x], Apply(p, e).tasks[x];
            && u.x.cycle == t.x.cycle
            && (t.x.hasEvents ==> u.x.hasEvents && u.x.startOffset == t.x.startOffset && u.startRead == t.startRead)
            && (t.x.done ==> u.x.endOffset == t.x.endOffset && u.endRead == t.endRead && u.x.done)
  {
    if e.BootStart? {
      NextIsNew(p.boot, p.tasks);
    }
    TaskStep(p, e, x);
    assert Placed(p, x);
    if (e.EventsStart? || e.EventsEnd?) && e.id == x {
      assert !p.tasks[x].x.done;
    } else if Subject(p, e) == Some(x) {
      StatusOnlyAdvances(p, e, x);
    }
  }

  lemma {:induction false} FollowingKeeps(ss: seq<System>, acts: seq<Action>, i: nat, j: nat, pid: Pid, x: Id)
    requires IsRun(ss, acts) && i <= j && Alive(ss, i, pid, x) && Alive(ss, j, pid, x)
    ensures var p, q := ss[i].procs[pid], ss[j].procs[pid];
            var t, u := p.tasks[x], q.tasks[x];
            && u.x.cycle == t.x.cycle
            && File(p, t.x.cycle) <= File(q, u.x.cycle)
            && (t.x.hasEvents ==> u.x.hasEvents && u.x.startOffset == t.x.startOffset && u.startRead == t.startRead)
            && (t.x.done ==> u.x.endOffset == t.x.endOffset && u.endRead == t.endRead && u.x.done)
    decreases j - i
  {
    if i < j {
      AliveBetween(ss, acts, i, j, i + 1, pid);
      ProcessStep(ss, acts, i, pid);
      var p := ss[i].procs[pid];
      if ss[i + 1].procs[pid] != p {
        EventKeepsOffsets(p, acts[i].e, x);
        FileGrows(p, acts[i].e, p.tasks[x].x.cycle);
      }
      FollowingKeeps(ss, acts, i + 1, j, pid, x);
    }
  }

  lemma PrefixBytes(f: seq<Cell>, g: seq<Cell>)
    requires f <= g
    ensures BytesOf(f) <= BytesOf(g)
  {
  }

  lemma TurnSees(ss: seq<System>, acts: seq<Action>, born: nat, turns: seq<Turn>, pid: Pid, x: Id, k: nat)
    requires IsRun(ss, acts) && Follows(ss, born, turns, pid, x) && k < |turns|
    ensures var last := ss[turns[|turns| - 1].read].procs[pid];
            var poll := Seen(ss, turns[k], pid, x);
            && poll.file.Some? && poll.file.value <= BytesOf(File(last, last.tasks[x].x.cycle))
            && (poll.end.None? <==> k < |turns| - 1)
  {
    FollowingKeeps(ss, acts, turns[k].read, turns[|turns| - 1].read, pid, x);
    var p := ss[turns[k].read].procs[pid];
    var last := ss[turns[|turns| - 1].read].procs[pid];
    PrefixBytes(File(p, p.tasks[x].x.cycle), File(last, last.tasks[x].x.cycle));
  }

  /**
   End to end, for every run of the system and every polling schedule: a viewer is sent the
   events of the bytes its execution appended, with no loss and no duplicate, in file order
   and before anything else, exactly when its live reads stayed within the execution's end, or
   the last line the execution appended keeps its event in front of what was appended to it;
   a complete last line always does. And it is sent nothing else exactly when, moreover, no
   later event was read before the end was sampled.
   */
  lemma ViewerSeesItsRun<E>(parse: LineParser<E>, ss: seq<System>, acts: seq<Action>, born: nat, turns: seq<Turn>,
                            pid: Pid, x: Id)
    requires IsRun(ss, acts) && Follows(ss, born, turns, pid, x)
    requires var last := ss[turns[|turns| - 1].read].procs[pid]; Recorded(last, x)
    ensures var last := ss[turns[|turns| - 1].read].procs[pid];
            var t := last.tasks[x].x;
            var own := OwnBytes(File(last, t.cycle), x);
            var start := ss[born].procs[pid].tasks[x].x.startOffset;
            var live := Polls(ss, born, turns, pid, x, |turns| - 1);
            var d := Delivered(parse, start, Polls(ss, born, turns, pid, x, |turns|));
            && SentForRange(parse, BytesOf(File(last, t.cycle)), own, start, t.endOffset.value,
                            Reached(parse, start, live), d)
            && (SawAtMost(live, t.endOffset.value) ==> d == Parse(parse, own))
  {
    var n := |turns| - 1;
    var last := ss[turns[n].read].procs[pid];
    var t := last.tasks[x].x;
    FollowingKeeps(ss, acts, born, turns[n].read, pid, x);
    FollowingKeeps(ss, acts, turns[n].sample, turns[n].read, pid, x);
    RunHolds(ss, acts, turns[n].read);
    RangesAreOwnBytes(last, x);
    OwnBytesOfRange(File(last, t.cycle), x, t.startOffset, t.endOffset.value);
    PollsSee(ss, acts, born, turns, pid, x);
    var live, poll := Polls(ss, born, turns, pid, x, n), Seen(ss, turns[n], pid, x);
    OwnRangeIsSent(parse, BytesOf(File(last, t.cycle)), OwnBytes(File(last, t.cycle), x), t.startOffset,
                   t.endOffset.value, live, poll);
  }

  // What a reader that got to `r` sent, against the events of the bytes `own` from `start` to `end`.
  predicate SentForRange<E(==)>(parse: LineParser<E>, final: Bytes, own: Bytes, start: nat, end: nat, r: nat,
                                sent: seq<E>)
  {
    && start <= end <= |final| && r <= |final| && own == final[start..end]
    && var w := TornAt(final, start, end);
       && (Parse(parse, own) <= sent <==> r <= end || Parse(parse, final[w..end]) <= Parse(parse, final[w..r]))
       && (sent == Parse(parse, own) <==> r <= end || Parse(parse, final[w..end]) == Parse(parse, final[w..r]))
       && (WholeLines(own) ==>
             Parse(parse, own) <= sent
             && (sent == Parse(parse, own) <==> r <= end || Parse(parse, final[end..r]) == []))
  }

  lemma OwnRangeIsSent<E>(parse: LineParser<E>, final: Bytes, own: Bytes, start: nat, end: nat,
                          live: seq<Poll>, last: Poll)
    requires start <= end <= |final| && own == final[start..end]
    requires AllLive(live) && Grows(live, final) && last == Poll(Some(end), Some(final))
    ensures var d := Delivered(parse, start, live + [last]);
            && SentForRange(parse, final, own, start, end, Reached(parse, start, live), d)
            && (SawAtMost(live, end) ==> d == Parse(parse, own))
  {
    StreamStartsWithRange(parse, final, start, end, live, last);
    StreamDeliversRange(parse, final, start, end, live, last);
    assert final[end..end] == [] && Parse(parse, final[end..end]) == [];
  }

  lemma PollsSee(ss: seq<System>, acts: seq<Action>, born: nat, turns: seq<Turn>, pid: Pid, x: Id)
    requires IsRun(ss, acts) && Follows(ss, born, turns, pid, x)
    ensures var n := |turns| - 1;
            var last := ss[turns[n].read].procs[pid];
            var live := Polls(ss, born, turns, pid, x, n);
            && Polls(ss, born, turns, pid, x, n + 1) == live + [Seen(ss, turns[n], pid, x)]
            && AllLive(live) && Grows(live, BytesOf(File(last, last.tasks[x].x.cycle)))
  {
    var n := |turns| - 1;
    var last := ss[turns[n].read].procs[pid];
    var final := BytesOf(File(last, last.tasks[x].x.cycle));
    var polls, live := Polls(ss, born, turns, pid, x, n + 1), Polls(ss, born, turns, pid, x, n);
    forall k | 0 <= k < |turns|
      ensures polls[k].file.Some? && polls[k].file.value <= final && (polls[k].end.None? <==> k < n)
    {
      TurnSees(ss, acts, born, turns, pid, x, k);
    }
    assert forall k :: 0 <= k < n ==> live[k] == polls[k];
  }

  /**
   A viewer of an execution that is evicted while it is followed is sent nothing more, whatever
   its run has appended; nor is one whose execution is done and never had an events file.
   */
  lemma EvictedStreamStops<E>(parse: LineParser<E>, p: Process, x: Id, offset: nat, file: Option<Bytes>, rest: seq<Poll>)
    requires Inv(p) && x in p.tasks
    requires x !in p.registry.states || (p.tasks[x].x.done && !p.tasks[x].x.hasEvents)
    ensures Delivered(parse, offset, [Poll(SampleEnd(p, x), file)] + rest) == []
  {
    assert Placed(p, x);
    var polls := [Poll(SampleEnd(p, x), file)] + rest;
    assert polls[0] == Poll(Some(0), file);
    if file.Some? {
      var from := Clamp(offset, |file.value|);
      assert file.value[from..from] == [] && Parse(parse, file.value[from..from]) == [];
      assert ReadAt(parse, file, offset, Some(0)).0 == [];
    }
  }
}
