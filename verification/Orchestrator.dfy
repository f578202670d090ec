/**
 The stage scheduler: `_run_parallel` with its thread pool, and `_run_sequential`. Stages are
 numbered from 1, as in the events they report. What the scheduler does not decide is in an
 environment: each stage's result, which stages a wake-up finds done, and what each look at
 the interrupt flag sees.
 */
module Orchestrator {
  import Wrappers

  datatype StageResult = StageResult(name: string, returncode: int)

  datatype Env = Env(
    stages: nat,
    maxParallel: nat,
    failFast: bool,
    execute: nat -> StageResult,
    requested: nat -> bool,          // the answer to the k-th look at the flag
    completed: nat -> set<nat>)      // the stages that have ended by the k-th wake-up

  datatype Call =
    | Look(stop: bool)               // interrupt.requested()
    | Start(idx: nat)
    | Submit(idx: nat)               // execute(stage) begins
    | Wait
    | Finish(idx: nat, result: StageResult)
    | Abort(done: nat)

  function Ascending(s: set<nat>, lo: nat, hi: nat): (r: seq<nat>)
    decreases hi - lo
  {
    if lo >= hi then [] else (if lo in s then [lo] else []) + Ascending(s, lo + 1, hi)
  }

  // What `wait(..., FIRST_COMPLETED)` returns: at least one of the running stages.
  function Woken(env: Env, wake: nat, running: set<nat>): (done: set<nat>)
    ensures done <= running && (running != {} ==> done != {})
  {
    var done := env.completed(wake) * running;
    if done != {} then done else running
  }

  // ---- the parallel loop, as a function of its local variables ----

  datatype Sched = Sched(
    next: nat,                       // the first pending stage
    running: set<nat>,
    results: map<nat, StageResult>,
    aborted: bool,
    looks: nat,
    wakes: nat,
    trace: seq<Call>)

  const INITIAL := Sched(1, {}, map[], false, 0, 0, [])

  function LookAt(env: Env, s: Sched): Sched {
    var stop := env.requested(s.looks);
    s.(aborted := s.aborted || stop, looks := s.looks + 1, trace := s.trace + [Look(stop)])
  }

  predicate CanStart(env: Env, s: Sched) {
    s.next <= env.stages && !s.aborted && |s.running| < env.maxParallel
  }

  function StartNext(s: Sched): Sched {
    s.(next := s.next + 1, running := s.running + {s.next}, trace := s.trace + [Start(s.next), Submit(s.next)])
  }

  function Fill(env: Env, s: Sched): Sched
    decreases env.stages + 1 - s.next
  {
    if CanStart(env, s) then Fill(env, StartNext(s)) else s
  }

  function FinishOne(env: Env, s: Sched, idx: nat): Sched {
    var result := env.execute(idx);
    s.(running := s.running - {idx}, results := s.results[idx := result],
       trace := s.trace + [Finish(idx, result)],
       aborted := s.aborted || (env.failFast && result.returncode != 0))
  }

  function FinishAll(env: Env, s: Sched, idxs: seq<nat>): Sched
    decreases |idxs|
  {
    if idxs == [] then s else FinishAll(env, FinishOne(env, s, idxs[0]), idxs[1..])
  }

  function WaitAny(env: Env, s: Sched): Sched {
    s.(wakes := s.wakes + 1, trace := s.trace + [Wait])
  }

  // One turn of the outer loop; the second part tells whether it goes on.
  function Turn(env: Env, s: Sched): (Sched, bool) {
    var filled := Fill(env, LookAt(env, s));
    if filled.running == {} then (filled, false)
    else
      var done := Ascending(Woken(env, filled.wakes, filled.running), 1, filled.next);
      (FinishAll(env, WaitAny(env, filled), done), true)
  }

  predicate Busy(env: Env, s: Sched) {
    s.next <= env.stages || s.running != {}
  }

  // The local variables always describe some part 1 .. next - 1 of the plan.
  ghost predicate Sane(env: Env, s: Sched) {
    && 1 <= s.next <= env.stages + 1
    && (forall i :: i in s.running || i in s.results <==> 1 <= i < s.next)
    && s.running !! s.results.Keys
    && |s.running| <= env.maxParallel
    && (forall i <- s.results :: s.results[i] == env.execute(i))
  }

  function Left(env: Env, s: Sched): int {
    env.stages + 1 - s.next + |s.running|
  }

  lemma {:induction false} FillSane(env: Env, s: Sched)
    requires Sane(env, s)
    ensures Sane(env, Fill(env, s)) && Left(env, Fill(env, s)) == Left(env, s)
    ensures Fill(env, s).results == s.results && Fill(env, s).aborted == s.aborted
    ensures Fill(env, s).wakes == s.wakes && Fill(env, s).looks == s.looks
    ensures !CanStart(env, Fill(env, s))
    decreases env.stages + 1 - s.next
  {
    if CanStart(env, s) {
      FillSane(env, StartNext(s));
    }
  }

  ghost predicate Increasing(s: seq<nat>) {
    forall i, j :: 0 <= i < j < |s| ==> s[i] < s[j]
  }

  lemma {:induction false} AscendingIs(s: set<nat>, lo: nat, hi: nat)
    ensures forall i :: i in Ascending(s, lo, hi) <==> i in s && lo <= i < hi
    ensures Increasing(Ascending(s, lo, hi))
    decreases hi - lo
  {
    if lo < hi {
      AscendingIs(s, lo + 1, hi);
      LeastInFront(lo, Ascending(s, lo + 1, hi));
    }
  }

  lemma LeastInFront(lo: nat, rest: seq<nat>)
    requires Increasing(rest) && forall i <- rest :: lo < i
    ensures Increasing([lo] + rest)
  {
    var all := [lo] + rest;
    forall i, j | 0 <= i < j < |all| ensures all[i] < all[j] {
      assert all[j] == rest[j - 1] && (i > 0 ==> all[i] == rest[i - 1]);
      assert rest[j - 1] in rest;
    }
  }

  lemma {:induction false} FinishAllSane(env: Env, s: Sched, idxs: seq<nat>)
    requires Sane(env, s) && Increasing(idxs) && forall i <- idxs :: i in s.running
    ensures Sane(env, FinishAll(env, s, idxs))
    ensures Left(env, FinishAll(env, s, idxs)) == Left(env, s) - |idxs|
    ensures FinishAll(env, s, idxs).wakes == s.wakes && FinishAll(env, s, idxs).looks == s.looks
    ensures FinishAll(env, s, idxs).next == s.next
    decreases |idxs|
  {
    if idxs != [] {
      var t := FinishOne(env, s, idxs[0]);
      assert idxs == [idxs[0]] + idxs[1..];
      assert forall i <- idxs[1..] :: i in idxs && i != idxs[0];
      FinishAllSane(env, t, idxs[1..]);
    }
  }

  lemma TurnSane(env: Env, s: Sched)
    requires Sane(env, s)
    ensures var (t, more) := Turn(env, s);
            Sane(env, t) && (more ==> Left(env, t) < Left(env, s))
    ensures Left(env, s) >= 0
  {
    var l := LookAt(env, s);
    FillSane(env, l);
    var f := Fill(env, l);
    if f.running != {} {
      var done := Woken(env, f.wakes, f.running);
      AscendingIs(done, 1, f.next);
      var idxs := Ascending(done, 1, f.next);
      var i :| i in done;
      assert i in idxs;
      FinishAllSane(env, WaitAny(env, f), idxs);
    }
  }

  ghost function Loop(env: Env, s: Sched): Sched
    requires Sane(env, s)
    decreases Left(env, s)
  {
    if !Busy(env, s) then s
    else
      TurnSane(env, s);
      var (t, more) := Turn(env, s);
      if more then Loop(env, t) else t
  }

  // The whole call: what it did, in order, and the results it returns.
  ghost function ParallelTrace(env: Env): seq<Call> {
    var s := Loop(env, INITIAL);
    s.trace + if s.aborted then [Abort(|s.results|)] else []
  }

  function Collect(results: map<nat, StageResult>, idxs: seq<nat>): seq<StageResult>
    requires forall i <- idxs :: i in results
  {
    seq(|idxs|, k requires 0 <= k < |idxs| => results[idxs[k]])
  }

  // ---- what a schedule may look like, whoever computed it ----

  function Started(t: seq<Call>): nat {
    if t == [] then 0 else Started(t[..|t| - 1]) + if t[|t| - 1].Start? then 1 else 0
  }

  function Ended(t: seq<Call>): nat {
    if t == [] then 0 else Ended(t[..|t| - 1]) + if t[|t| - 1].Finish? then 1 else 0
  }

  predicate HasFinished(t: seq<Call>, i: nat) {
    exists k :: 0 <= k < |t| && t[k].Finish? && t[k].idx == i
  }

  // A stop request that was seen, or a failure reported under fail-fast.
  predicate Cause(env: Env, c: Call) {
    (c.Look? && c.stop) || (c.Finish? && env.failFast && c.result.returncode != 0)
  }

  predicate Stopped(env: Env, t: seq<Call>) {
    exists k :: 0 <= k < |t| && Cause(env, t[k])
  }

  // Only starts since the last look at the flag.
  predicate JustLooked(t: seq<Call>) {
    t != [] && (t[|t| - 1].Look? || ((t[|t| - 1].Start? || t[|t| - 1].Submit?) && JustLooked(t[..|t| - 1])))
  }

  predicate Permitted(env: Env, t: seq<Call>, c: Call) {
    match c
    case Look(_) => true
    case Start(i) =>
      i == Started(t) + 1 <= env.stages && Started(t) - Ended(t) < env.maxParallel
      && !Stopped(env, t) && JustLooked(t)
    case Submit(i) => t != [] && t[|t| - 1] == Start(i)
    case Wait =>
      Ended(t) < Started(t)
      && (Started(t) - Ended(t) == env.maxParallel || Stopped(env, t) || Started(t) == env.stages)
    case Finish(i, r) =>
      1 <= i <= Started(t) && !HasFinished(t, i) && Ended(t) < Started(t) && r == env.execute(i)
    case Abort(n) => Stopped(env, t) && n == Ended(t) == Started(t)
  }

  /**
   A legal schedule: stages start in plan order, each right after a look at the flag, at most
   `maxParallel` unfinished at once and none after a stop or a fail-fast failure; each started
   stage finishes at most once, with its own result; the loop only waits while something runs,
   and with a free slot only when stopped or nothing is pending; an abort reports how many
   stages ran, all of them finished.
   */
  predicate Legal(env: Env, t: seq<Call>) {
    t == [] || (Legal(env, t[..|t| - 1]) && Permitted(env, t[..|t| - 1], t[|t| - 1]))
  }

  // What appending one call does to each of these.
  lemma Appended(env: Env, t: seq<Call>, c: Call)
    ensures Legal(env, t + [c]) <==> Legal(env, t) && Permitted(env, t, c)
    ensures Started(t + [c]) == Started(t) + (if c.Start? then 1 else 0)
    ensures Ended(t + [c]) == Ended(t) + (if c.Finish? then 1 else 0)
    ensures forall i :: HasFinished(t + [c], i) <==> HasFinished(t, i) || (c.Finish? && c.idx == i)
    ensures Stopped(env, t + [c]) <==> Stopped(env, t) || Cause(env, c)
    ensures JustLooked(t + [c]) <==> c.Look? || ((c.Start? || c.Submit?) && JustLooked(t))
  {
    var u := t + [c];
    assert u[..|u| - 1] == t && u[|u| - 1] == c;
    forall i ensures HasFinished(u, i) <==> HasFinished(t, i) || (c.Finish? && c.idx == i) {
      if HasFinished(t, i) {
        var k :| 0 <= k < |t| && t[k].Finish? && t[k].idx == i;
        assert u[k] == t[k];
      }
    }
    if Stopped(env, t) {
      var k :| 0 <= k < |t| && Cause(env, t[k]);
      assert u[k] == t[k];
    }
  }

  // The local variables say what the trace says.
  ghost predicate Matches(env: Env, s: Sched) {
    && Sane(env, s)
    && Legal(env, s.trace)
    && Started(s.trace) == s.next - 1
    && Ended(s.trace) == |s.results|
    && |s.running| + |s.results| == s.next - 1
    && (forall i :: HasFinished(s.trace, i) <==> i in s.results)
    && (s.aborted <==> Stopped(env, s.trace))
    && (s.trace == [] || !s.trace[|s.trace| - 1].Abort?)
  }

  lemma StartAppended(env: Env, t: seq<Call>, i: nat)
    requires Legal(env, t) && Permitted(env, t, Start(i))
    ensures var u := t + [Start(i), Submit(i)];
            && Legal(env, u) && Started(u) == Started(t) + 1 && Ended(u) == Ended(t)
            && (forall x :: HasFinished(u, x) <==> HasFinished(t, x))
            && (Stopped(env, u) <==> Stopped(env, t)) && JustLooked(u)
  {
    Appended(env, t, Start(i));
    Appended(env, t + [Start(i)], Submit(i));
    assert t + [Start(i)] + [Submit(i)] == t + [Start(i), Submit(i)];
  }

  lemma StartSane(env: Env, s: Sched)
    requires Sane(env, s) && CanStart(env, s)
    ensures Sane(env, StartNext(s)) && |StartNext(s).running| == |s.running| + 1
  {
  }

  lemma StartMatches(env: Env, s: Sched)
    requires Matches(env, s) && JustLooked(s.trace) && CanStart(env, s)
    ensures Matches(env, StartNext(s)) && JustLooked(StartNext(s).trace)
  {
    StartSane(env, s);
    assert Permitted(env, s.trace, Start(s.next));
    StartAppended(env, s.trace, s.next);
  }

  lemma {:induction false} FillMatches(env: Env, s: Sched)
    requires Matches(env, s) && JustLooked(s.trace)
    ensures Matches(env, Fill(env, s))
    decreases env.stages + 1 - s.next
  {
    if CanStart(env, s) {
      StartMatches(env, s);
      FillMatches(env, StartNext(s));
    }
  }

  lemma FinishMatches(env: Env, s: Sched, idx: nat)
    requires Matches(env, s) && idx in s.running
    ensures Matches(env, FinishOne(env, s, idx))
  {
    Appended(env, s.trace, Finish(idx, env.execute(idx)));
  }

  lemma {:induction false} FinishAllMatches(env: Env, s: Sched, idxs: seq<nat>)
    requires Matches(env, s) && Increasing(idxs) && forall i <- idxs :: i in s.running
    ensures Matches(env, FinishAll(env, s, idxs))
    decreases |idxs|
  {
    if idxs != [] {
      FinishMatches(env, s, idxs[0]);
      assert forall i <- idxs[1..] :: i in idxs && i != idxs[0];
      FinishAllMatches(env, FinishOne(env, s, idxs[0]), idxs[1..]);
    }
  }

  lemma LookMatches(env: Env, s: Sched)
    requires Matches(env, s)
    ensures Matches(env, LookAt(env, s)) && JustLooked(LookAt(env, s).trace)
  {
    Appended(env, s.trace, Look(env.requested(s.looks)));
  }

  lemma WaitMatches(env: Env, s: Sched)
    requires Matches(env, s) && s.running != {} && !CanStart(env, s)
    ensures Matches(env, WaitAny(env, s))
  {
    Appended(env, s.trace, Wait);
  }

  lemma TurnMatches(env: Env, s: Sched)
    requires Matches(env, s) && env.maxParallel >= 1
    ensures var (t, more) := Turn(env, s);
            Matches(env, t) && (!more ==> t.running == {} && (t.aborted || t.next > env.stages))
  {
    var l := LookAt(env, s);
    LookMatches(env, s);
    FillMatches(env, l);
    FillSane(env, l);
    var f := Fill(env, l);
    if f.running != {} {
      WaitMatches(env, f);
      var done := Woken(env, f.wakes, f.running);
      AscendingIs(done, 1, f.next);
      FinishAllMatches(env, WaitAny(env, f), Ascending(done, 1, f.next));
    }
  }

  lemma {:induction false} LoopMatches(env: Env, s: Sched)
    requires Matches(env, s) && env.maxParallel >= 1
    ensures Matches(env, Loop(env, s)) && Loop(env, s).running == {}
    ensures Loop(env, s).aborted || Loop(env, s).next == env.stages + 1
    decreases Left(env, s)
  {
    TurnSane(env, s);
    if Busy(env, s) {
      TurnMatches(env, s);
      var (t, more) := Turn(env, s);
      if more {
        LoopMatches(env, t);
      }
    }
  }

  /**
   For every plan, result, completion order and interrupt time: the call ends, its schedule
   is legal, the stages that started are a prefix 1..k of the plan and all of them finished,
   k is the whole plan unless it was stopped, and it reports an abort exactly when it was.
   */
  lemma ParallelIsLegal(env: Env)
    requires env.maxParallel >= 1
    ensures var t := ParallelTrace(env);
            && Legal(env, t)
            && Started(t) == Ended(t) <= env.stages
            && (Started(t) < env.stages ==> Stopped(env, t))
            && (t != [] && t[|t| - 1].Abort? <==> Stopped(env, t))
    ensures var s := Loop(env, INITIAL);
            && Started(ParallelTrace(env)) == s.next - 1
            && (forall i :: i in s.results <==> 1 <= i < s.next)
            && (forall i <- s.results :: s.results[i] == env.execute(i))
  {
    assert Matches(env, INITIAL);
    LoopMatches(env, INITIAL);
    LoopEnds(env, Loop(env, INITIAL));
  }

  lemma LoopEnds(env: Env, s: Sched)
    requires Matches(env, s) && s.running == {} && (s.aborted || s.next == env.stages + 1)
    ensures var t := s.trace + if s.aborted then [Abort(|s.results|)] else [];
            && Legal(env, t) && Started(t) == Ended(t) == s.next - 1 <= env.stages
            && (Stopped(env, t) <==> s.aborted)
            && (t != [] && t[|t| - 1].Abort? <==> s.aborted)
    ensures forall i :: i in s.results <==> 1 <= i < s.next
    ensures forall i <- s.results :: s.results[i] == env.execute(i)
  {
    if s.aborted {
      Appended(env, s.trace, Abort(|s.results|));
    } else {
      assert s.trace + [] == s.trace;
    }
  }

  // ---- what each look and each wake-up does, by the trace alone ----

  function Looks(t: seq<Call>): nat {
    if t == [] then 0 else Looks(t[..|t| - 1]) + if t[|t| - 1].Look? then 1 else 0
  }

  function Waits(t: seq<Call>): nat {
    if t == [] then 0 else Waits(t[..|t| - 1]) + if t[|t| - 1].Wait? then 1 else 0
  }

  // The stages that have started and not finished.
  function Unfinished(t: seq<Call>): set<nat> {
    set i: nat | 1 <= i <= Started(t) && !HasFinished(t, i)
  }

  // The calls between m and n are what the wait at m - 1 led to: finished stages and no more.
  predicate IsWakeUp(t: seq<Call>, m: nat, n: nat) {
    && 0 < m <= n <= |t| && t[m - 1].Wait?
    && (forall j :: m <= j < n ==> t[j].Finish?)
    && (n < |t| ==> !t[n].Finish?)
  }

  function FinishedIn(t: seq<Call>, m: nat, n: nat): set<nat>
    requires m <= n <= |t|
  {
    set j | m <= j < n && t[j].Finish? :: t[j].idx
  }

  // The k-th look sees what the environment answers to the k-th look; the k-th wake-up reports
  // the running stages that have ended by then, in plan order, and otherwise some running ones.
  ghost predicate LookIsExact(env: Env, t: seq<Call>, n: nat)
    requires n < |t|
  {
    t[n].Look? ==> t[n].stop == env.requested(Looks(t[..n]))
  }

  ghost predicate WakeUpIsExact(env: Env, t: seq<Call>, m: nat, n: nat)
    requires IsWakeUp(t, m, n)
  {
    var running := Unfinished(t[..m - 1]);
    var ended := env.completed(Waits(t[..m - 1])) * running;
    && (ended != {} ==> FinishedIn(t, m, n) == ended)
    && (ended == {} ==> FinishedIn(t, m, n) != {} && FinishedIn(t, m, n) <= running)
    && (forall j, k :: m <= j < k < n ==> t[j].idx < t[k].idx)
  }

  ghost predicate Exact(env: Env, t: seq<Call>) {
    && (forall n :: 0 <= n < |t| ==> LookIsExact(env, t, n))
    && (forall m: nat, n: nat :: IsWakeUp(t, m, n) ==> WakeUpIsExact(env, t, m, n))
  }

  lemma ExactMore(env: Env, t: seq<Call>, c: Call)
    requires Exact(env, t) && !c.Finish? && !c.Wait?
    requires c.Look? ==> c.stop == env.requested(Looks(t))
    ensures Exact(env, t + [c])
  {
    var u := t + [c];
    forall n | 0 <= n < |u| ensures LookIsExact(env, u, n) {
      assert u[..n] == if n < |t| then t[..n] else t;
      assert n < |t| ==> LookIsExact(env, t, n);
    }
    forall m: nat, n: nat | IsWakeUp(u, m, n) ensures WakeUpIsExact(env, u, m, n) {
      assert n == |u| ==> u[|t|] == c && (m == |u| || m <= |t|);
      SameWakeUp(env, t, u, m, n);
    }
  }

  // A wake-up that was over in t is the same one in what t goes on to.
  lemma SameWakeUp(env: Env, t: seq<Call>, u: seq<Call>, m: nat, n: nat)
    requires t <= u && n <= |t| && IsWakeUp(u, m, n) && Exact(env, t)
    ensures WakeUpIsExact(env, u, m, n)
  {
    assert IsWakeUp(t, m, n) && WakeUpIsExact(env, t, m, n);
    assert u[..m - 1] == t[..m - 1];
    assert FinishedIn(u, m, n) == FinishedIn(t, m, n);
  }

  // The calls of one wake-up.
  function Finishes(env: Env, idxs: seq<nat>): seq<Call> {
    seq(|idxs|, k requires 0 <= k < |idxs| => Finish(idxs[k], env.execute(idxs[k])))
  }

  // What a wake-up with these stages may report.
  ghost predicate AreEnded(env: Env, t: seq<Call>, idxs: seq<nat>) {
    var ended := env.completed(Waits(t)) * Unfinished(t);
    && Increasing(idxs)
    && (ended != {} ==> forall i :: i in idxs <==> i in ended)
    && (ended == {} ==> idxs != [] && forall i <- idxs :: i in Unfinished(t))
  }

  lemma ExactWake(env: Env, t: seq<Call>, idxs: seq<nat>)
    requires Exact(env, t) && AreEnded(env, t, idxs)
    ensures Exact(env, t + [Wait] + Finishes(env, idxs))
  {
    var u := t + [Wait] + Finishes(env, idxs);
    forall n | 0 <= n < |u| ensures LookIsExact(env, u, n) {
      assert n < |t| ==> LookIsExact(env, t, n) && u[..n] == t[..n];
    }
    forall m: nat, n: nat | IsWakeUp(u, m, n) ensures WakeUpIsExact(env, u, m, n) {
      if m <= |t| {
        assert !u[|t|].Finish?;
        SameWakeUp(env, t, u, m, n);
      } else {
        assert m == |t| + 1 && n == |u|;
        NewWakeUp(env, t, u, idxs);
      }
    }
  }

  lemma NewWakeUp(env: Env, t: seq<Call>, u: seq<Call>, idxs: seq<nat>)
    requires u == t + [Wait] + Finishes(env, idxs) && IsWakeUp(u, |t| + 1, |u|) && AreEnded(env, t, idxs)
    ensures WakeUpIsExact(env, u, |t| + 1, |u|)
  {
    var m := |t| + 1;
    assert u[..|t|] == t && u[m..] == Finishes(env, idxs);
    FinishedAre(env, u, m, idxs);
    FinishedInOrder(env, u, m, idxs);
    EndedAre(env, t, idxs, FinishedIn(u, m, |u|));
  }

  lemma EndedAre(env: Env, t: seq<Call>, idxs: seq<nat>, finished: set<nat>)
    requires AreEnded(env, t, idxs) && forall i :: i in finished <==> i in idxs
    ensures var ended := env.completed(Waits(t)) * Unfinished(t);
            if ended != {} then finished == ended else {} < finished <= Unfinished(t)
  {
    assert idxs != [] ==> idxs[0] in finished;
  }

  lemma FinishedInOrder(env: Env, u: seq<Call>, m: nat, idxs: seq<nat>)
    requires m <= |u| && u[m..] == Finishes(env, idxs) && Increasing(idxs)
    ensures forall j, k :: m <= j < k < |u| ==> u[j].Finish? && u[k].Finish? && u[j].idx < u[k].idx
  {
    forall j | m <= j < |u| ensures u[j] == Finish(idxs[j - m], env.execute(idxs[j - m])) {
      assert u[j] == u[m..][j - m];
    }
  }

  lemma FinishedAre(env: Env, u: seq<Call>, m: nat, idxs: seq<nat>)
    requires m <= |u| && u[m..] == Finishes(env, idxs)
    ensures forall i :: i in FinishedIn(u, m, |u|) <==> i in idxs
  {
    forall j | m <= j < |u| ensures u[j] == Finish(idxs[j - m], env.execute(idxs[j - m])) {
      assert u[j] == u[m..][j - m];
    }
    forall i | i in idxs ensures i in FinishedIn(u, m, |u|) {
      var k :| 0 <= k < |idxs| && idxs[k] == i;
      assert u[m + k].idx == i;
    }
  }

  lemma {:induction false} FinishAllTrace(env: Env, s: Sched, idxs: seq<nat>)
    ensures FinishAll(env, s, idxs).trace == s.trace + Finishes(env, idxs)
    decreases |idxs|
  {
    if idxs != [] {
      FinishAllTrace(env, FinishOne(env, s, idxs[0]), idxs[1..]);
      assert Finishes(env, idxs) == [Finish(idxs[0], env.execute(idxs[0]))] + Finishes(env, idxs[1..]);
    }
  }

  // The counters say how often the loop looked and waited.
  ghost predicate Counts(env: Env, s: Sched) {
    Exact(env, s.trace) && Looks(s.trace) == s.looks && Waits(s.trace) == s.wakes
  }

  lemma {:induction false} FillCounts(env: Env, s: Sched)
    requires Counts(env, s)
    ensures Counts(env, Fill(env, s))
    decreases env.stages + 1 - s.next
  {
    if CanStart(env, s) {
      var t := s.trace;
      ExactMore(env, t, Start(s.next));
      ExactMore(env, t + [Start(s.next)], Submit(s.next));
      assert t + [Start(s.next)] + [Submit(s.next)] == t + [Start(s.next), Submit(s.next)];
      CountsMore(t, Start(s.next));
      CountsMore(t + [Start(s.next)], Submit(s.next));
      FillCounts(env, StartNext(s));
    }
  }

  lemma CountsMore(t: seq<Call>, c: Call)
    ensures Looks(t + [c]) == Looks(t) + if c.Look? then 1 else 0
    ensures Waits(t + [c]) == Waits(t) + if c.Wait? then 1 else 0
  {
    assert (t + [c])[..|t|] == t;
  }

  lemma UnfinishedAre(env: Env, s: Sched)
    requires Matches(env, s)
    ensures Unfinished(s.trace) == s.running
  {
  }

  lemma WokenAreEnded(env: Env, s: Sched, idxs: seq<nat>)
    requires Matches(env, s) && Waits(s.trace) == s.wakes && s.running != {}
    requires idxs == Ascending(Woken(env, s.wakes, s.running), 1, s.next)
    ensures AreEnded(env, s.trace, idxs)
  {
    var done := Woken(env, s.wakes, s.running);
    AscendingIs(done, 1, s.next);
    UnfinishedAre(env, s);
    var i :| i in done;
    assert i in idxs;
  }

  lemma FinishAllCounts(env: Env, s: Sched, idxs: seq<nat>)
    requires Looks(s.trace) == s.looks && Waits(s.trace) == s.wakes
    ensures var t := FinishAll(env, s, idxs);
            Looks(t.trace) == t.looks && Waits(t.trace) == t.wakes
    decreases |idxs|
  {
    if idxs != [] {
      CountsMore(s.trace, Finish(idxs[0], env.execute(idxs[0])));
      FinishAllCounts(env, FinishOne(env, s, idxs[0]), idxs[1..]);
    }
  }

  lemma WakeCounts(env: Env, s: Sched, idxs: seq<nat>)
    requires Counts(env, s) && AreEnded(env, s.trace, idxs)
    ensures Counts(env, FinishAll(env, WaitAny(env, s), idxs))
  {
    ExactWake(env, s.trace, idxs);
    FinishAllTrace(env, WaitAny(env, s), idxs);
    CountsMore(s.trace, Wait);
    FinishAllCounts(env, WaitAny(env, s), idxs);
  }

  lemma TurnCounts(env: Env, s: Sched)
    requires Matches(env, s) && Counts(env, s)
    ensures Counts(env, Turn(env, s).0)
  {
    var l := LookAt(env, s);
    LookMatches(env, s);
    ExactMore(env, s.trace, Look(env.requested(s.looks)));
    CountsMore(s.trace, Look(env.requested(s.looks)));
    FillMatches(env, l);
    FillCounts(env, l);
    var f := Fill(env, l);
    if f.running != {} {
      var idxs := Ascending(Woken(env, f.wakes, f.running), 1, f.next);
      WokenAreEnded(env, f, idxs);
      WakeCounts(env, f, idxs);
    }
  }

  lemma {:induction false} LoopCounts(env: Env, s: Sched)
    requires Matches(env, s) && Counts(env, s) && env.maxParallel >= 1
    ensures Counts(env, Loop(env, s))
    decreases Left(env, s)
  {
    TurnSane(env, s);
    if Busy(env, s) {
      TurnMatches(env, s);
      TurnCounts(env, s);
      var (t, more) := Turn(env, s);
      if more {
        LoopCounts(env, t);
      }
    }
  }

  lemma TraceIsExact(env: Env)
    requires env.maxParallel >= 1
    ensures Exact(env, ParallelTrace(env))
  {
    var s := Loop(env, INITIAL);
    assert Matches(env, INITIAL);
    LoopCounts(env, INITIAL);
    if s.aborted {
      ExactMore(env, s.trace, Abort(|s.results|));
    } else {
      assert ParallelTrace(env) == s.trace;
    }
  }

  /** Every look at the flag sees what is requested at that moment. */
  lemma LooksAreExact(env: Env, n: nat)
    requires env.maxParallel >= 1 && n < |ParallelTrace(env)| && ParallelTrace(env)[n].Look?
    ensures ParallelTrace(env)[n].stop == env.requested(Looks(ParallelTrace(env)[..n]))
  {
    TraceIsExact(env);
    assert LookIsExact(env, ParallelTrace(env), n);
  }

  /**
   The pool wakes up on the first stage that ends. A wait that finds running stages ended
   finishes exactly these, in plan order, before anything else is called: no stage is reported
   that has not ended, and none that has is kept for the next wake-up. When the environment
   names none, at least one of the running ones has ended.
   */
  lemma WakesAreExact(env: Env, n: nat) returns (m: nat)
    requires env.maxParallel >= 1 && n < |ParallelTrace(env)| && ParallelTrace(env)[n].Wait?
    ensures var t := ParallelTrace(env);
            n < m <= |t| && (forall j :: n < j < m ==> t[j].Finish?) && (m < |t| ==> !t[m].Finish?)
    ensures var t := ParallelTrace(env);
            forall j, k :: n < j < k < m ==> t[j].idx < t[k].idx
    ensures var t := ParallelTrace(env);
            var running, finished := Unfinished(t[..n]), FinishedIn(t, n + 1, m);
            var ended := env.completed(Waits(t[..n])) * running;
            if ended != {} then finished == ended else {} < finished <= running
  {
    TraceIsExact(env);
    m := EndOfWakeUp(ParallelTrace(env), n + 1);
    assert IsWakeUp(ParallelTrace(env), n + 1, m) && WakeUpIsExact(env, ParallelTrace(env), n + 1, m);
  }

  lemma {:induction false} EndOfWakeUp(t: seq<Call>, m: nat) returns (n: nat)
    requires m <= |t|
    ensures m <= n <= |t| && (forall j :: m <= j < n ==> t[j].Finish?) && (n < |t| ==> !t[n].Finish?)
    decreases |t| - m
  {
    n := m;
    if m < |t| && t[m].Finish? {
      n := EndOfWakeUp(t, m + 1);
    }
  }

  // ---- how many stages can start after a stop request ----

  // From position m on, every look at the flag sees the request.
  predicate RequestedSince(t: seq<Call>, m: nat) {
    forall j :: m <= j < |t| ==> t[j] != Look(false)
  }

  predicate LooksIn(t: seq<Call>, m: nat) {
    exists j :: m <= j < |t| && t[j].Look?
  }

  lemma {:induction false} RunningIsBounded(env: Env, t: seq<Call>)
    requires Legal(env, t)
    ensures Ended(t) <= Started(t) <= Ended(t) + env.maxParallel
  {
    if t != [] {
      RunningIsBounded(env, t[..|t| - 1]);
    }
  }

  lemma {:induction false} SeenRequestStops(env: Env, t: seq<Call>, m: nat)
    requires m <= |t| && RequestedSince(t, m) && LooksIn(t, m)
    ensures Stopped(env, t)
  {
    var j :| m <= j < |t| && t[j].Look?;
    assert Cause(env, t[j]);
  }

  // Starts since m: none after a look; before one, no more than what is running.
  lemma {:induction false} StartsSince(env: Env, t: seq<Call>, m: nat)
    requires Legal(env, t) && m <= |t| && RequestedSince(t, m)
    ensures Started(t[..m]) <= Started(t) <= Started(t[..m]) + env.maxParallel
    ensures JustLooked(t) && !LooksIn(t, m) ==> Started(t) - Started(t[..m]) <= Started(t) - Ended(t)
  {
    RunningIsBounded(env, t);
    if |t| == m {
      assert t[..m] == t;
    } else {
      var f := t[..|t| - 1];
      assert f[..m] == t[..m];
      assert forall j :: 0 <= j < |f| ==> f[j] == t[j];
      StartsSince(env, f, m);
      if LooksIn(f, m) {
        SeenRequestStops(env, f, m);
      }
    }
  }

  /** After a stop request the pool starts at most as many stages as may run at once. */
  lemma FewStartsAfterRequest(env: Env, m: nat)
    requires env.maxParallel >= 1 && m <= |ParallelTrace(env)| && RequestedSince(ParallelTrace(env), m)
    ensures Started(ParallelTrace(env)) - Started(ParallelTrace(env)[..m]) <= env.maxParallel
  {
    ParallelIsLegal(env);
    StartsSince(env, ParallelTrace(env), m);
  }

  // ---- the result list ----

  ghost function ParallelResults(env: Env): (r: seq<StageResult>)
    requires env.maxParallel >= 1
  {
    ParallelIsLegal(env);
    var s := Loop(env, INITIAL);
    AscendingIs(s.results.Keys, 1, s.next);
    Collect(s.results, Ascending(s.results.Keys, 1, s.next))
  }

  lemma {:induction false} AscendingAll(s: set<nat>, lo: nat, hi: nat)
    requires lo <= hi && forall i :: lo <= i < hi ==> i in s
    ensures |Ascending(s, lo, hi)| == hi - lo
    ensures forall k :: 0 <= k < hi - lo ==> Ascending(s, lo, hi)[k] == lo + k
    decreases hi - lo
  {
    if lo < hi {
      AscendingAll(s, lo + 1, hi);
    }
  }

  /** The results come back in plan order, one for each stage that started. */
  lemma ResultsInOrder(env: Env)
    requires env.maxParallel >= 1
    ensures |ParallelResults(env)| == Started(ParallelTrace(env))
    ensures forall k :: 0 <= k < |ParallelResults(env)| ==> ParallelResults(env)[k] == env.execute(k + 1)
  {
    ParallelIsLegal(env);
    var s := Loop(env, INITIAL);
    AscendingAll(s.results.Keys, 1, s.next);
  }

  // ---- the sequential loop ----

  // The calls and the results from stage `idx` on.
  ghost function SequentialFrom(env: Env, idx: nat, looks: nat): (seq<Call>, seq<StageResult>)
    decreases env.stages + 1 - idx
  {
    if idx > env.stages then ([], [])
    else if env.requested(looks) then ([Look(true), Abort(if idx > 0 then idx - 1 else 0)], [])
    else
      var result := env.execute(idx);
      var here := [Look(false), Start(idx), Submit(idx), Finish(idx, result)];
      if env.failFast && result.returncode != 0 then (here + [Abort(idx)], [result])
      else
        var (calls, results) := SequentialFrom(env, idx + 1, looks + 1);
        (here + calls, [result] + results)
  }

  // The calls that reach the renderer, the recorder and the stages.
  function Visible(t: seq<Call>): seq<Call> {
    if t == [] then []
    else (if t[0].Look? || t[0].Wait? then [] else [t[0]]) + Visible(t[1..])
  }

  lemma {:induction false} VisibleAdditive(a: seq<Call>, b: seq<Call>)
    ensures Visible(a + b) == Visible(a) + Visible(b)
  {
    if a == [] {
      assert a + b == b;
    } else {
      var rest := a[1..];
      assert (a + b)[0] == a[0] && (a + b)[1..] == rest + b;
      VisibleAdditive(rest, b);
      var first := if a[0].Look? || a[0].Wait? then [] else [a[0]];
      Wrappers.InFront(first, Visible(rest), Visible(b), Visible(a), Visible(rest + b));
    }
  }

  // What the parallel loop still does from s on.
  ghost function ParallelFrom(env: Env, s: Sched): seq<Call>
    requires Sane(env, s)
  {
    var t := Loop(env, s);
    t.trace + if t.aborted then [Abort(|t.results|)] else []
  }

  // Between two stages of a one-slot run.
  ghost predicate Between(env: Env, s: Sched) {
    env.maxParallel == 1 && Sane(env, s) && s.running == {} && |s.results| == s.next - 1
  }

  // One turn of the parallel loop with one slot runs exactly the next stage.
  lemma OneSlotTurn(env: Env, s: Sched)
    requires Between(env, s) && !s.aborted && s.next <= env.stages
    ensures env.requested(s.looks) ==> Turn(env, s) == (LookAt(env, s), false)
    ensures !env.requested(s.looks) ==>
              var r := env.execute(s.next);
              var (t, more) := Turn(env, s);
              && more && Between(env, t) && t.next == s.next + 1 && t.looks == s.looks + 1
              && t.results == s.results[s.next := r]
              && t.trace == s.trace + [Look(false), Start(s.next), Submit(s.next), Wait, Finish(s.next, r)]
              && t.aborted == (env.failFast && r.returncode != 0)
  {
    if !env.requested(s.looks) {
      OneSlotFill(env, s);
      var f := StartNext(LookAt(env, s));
      OneSlotWakes(env, s.next, f);
      OneSlotTrace(env, s, FinishOne(env, WaitAny(env, f), s.next));
    }
  }

  lemma OneSlotFill(env: Env, s: Sched)
    requires Between(env, s) && !s.aborted && s.next <= env.stages && !env.requested(s.looks)
    ensures var f := StartNext(LookAt(env, s)); f.running == {s.next} && Fill(env, LookAt(env, s)) == f
  {
    var l := LookAt(env, s);
    var f := StartNext(l);
    assert f.running == {s.next};
    assert Fill(env, l) == Fill(env, f) == f;
  }

  lemma OneSlotTrace(env: Env, s: Sched, t: Sched)
    requires !s.aborted && !env.requested(s.looks)
    requires t == FinishOne(env, WaitAny(env, StartNext(LookAt(env, s))), s.next)
    ensures t.trace == s.trace + [Look(false), Start(s.next), Submit(s.next), Wait, Finish(s.next, env.execute(s.next))]
    ensures t.aborted == (env.failFast && env.execute(s.next).returncode != 0)
  {
  }

  lemma OneSlotWakes(env: Env, n: nat, f: Sched)
    requires f.running == {n} && f.next == n + 1 && n >= 1
    ensures FinishAll(env, WaitAny(env, f), Ascending(Woken(env, f.wakes, f.running), 1, f.next))
         == FinishOne(env, WaitAny(env, f), n)
    ensures FinishOne(env, WaitAny(env, f), n).running == {}
  {
    var done := Woken(env, f.wakes, f.running);
    assert done == {n};
    OneAscending(done, n, 1);
    var w := WaitAny(env, f);
    assert FinishAll(env, w, [n]) == FinishOne(env, w, n);
    assert FinishOne(env, w, n).running == {};
  }

  lemma {:induction false} OneAscending(s: set<nat>, i: nat, lo: nat)
    requires s == {i} && lo <= i
    ensures Ascending(s, lo, i + 1) == [i]
    decreases i - lo
  {
    if lo < i {
      OneAscending(s, i, lo + 1);
    }
  }

  // Once aborted with nothing running, the loop only looks at the flag once more, if at all.
  lemma AbortedEnds(env: Env, s: Sched)
    requires Between(env, s) && s.aborted
    ensures Loop(env, s) == s || Loop(env, s) == LookAt(env, s)
  {
  }


  // The visible calls of one stage, and of the sequential loop from a stage on.
  function Ran(env: Env, n: nat): seq<Call> {
    [Start(n), Submit(n), Finish(n, env.execute(n))]
  }

  ghost function SequentialVisible(env: Env, idx: nat, looks: nat): seq<Call>
    decreases env.stages + 1 - idx
  {
    if idx > env.stages then []
    else if env.requested(looks) then [Abort(if idx > 0 then idx - 1 else 0)]
    else if env.failFast && env.execute(idx).returncode != 0 then Ran(env, idx) + [Abort(idx)]
    else Ran(env, idx) + SequentialVisible(env, idx + 1, looks + 1)
  }

  lemma VisibleStage(n: nat, r: StageResult)
    ensures Visible([Look(false), Start(n), Submit(n), Wait, Finish(n, r)]) == [Start(n), Submit(n), Finish(n, r)]
    ensures Visible([Look(false), Start(n), Submit(n), Finish(n, r)]) == [Start(n), Submit(n), Finish(n, r)]
  {
    var finish := [Finish(n, r)];
    var submit, submitWait := [Submit(n)] + finish, [Submit(n), Wait] + finish;
    assert Visible(finish) == finish by {
      assert finish[1..] == [];
    }
    assert submitWait[1..] == [Wait] + finish && ([Wait] + finish)[1..] == finish && submit[1..] == finish;
    assert Visible(submitWait) == Visible(submit) == [Submit(n)] + finish;
    var a, b := [Look(false), Start(n), Submit(n), Wait, Finish(n, r)], [Look(false), Start(n), Submit(n), Finish(n, r)];
    assert a[1..][1..] == submitWait && b[1..][1..] == submit;
  }

  lemma VisibleAbort(n: nat, stop: bool)
    ensures Visible([Abort(n)]) == [Abort(n)] && Visible([Look(stop), Abort(n)]) == [Abort(n)]
  {
    assert [Abort(n)][1..] == [] && [Look(stop), Abort(n)][1..] == [Abort(n)];
  }

  lemma {:induction false} SequentialVisibleIs(env: Env, idx: nat, looks: nat)
    ensures Visible(SequentialFrom(env, idx, looks).0) == SequentialVisible(env, idx, looks)
    decreases env.stages + 1 - idx
  {
    if idx <= env.stages {
      VisibleAbort(idx, true);
      VisibleAbort(if idx > 0 then idx - 1 else 0, true);
      if !env.requested(looks) {
        var here := [Look(false), Start(idx), Submit(idx), Finish(idx, env.execute(idx))];
        VisibleStage(idx, env.execute(idx));
        SequentialVisibleIs(env, idx + 1, looks + 1);
        VisibleAdditive(here, [Abort(idx)]);
        VisibleAdditive(here, SequentialFrom(env, idx + 1, looks + 1).0);
      }
    }
  }

  // A stage of a one-slot run took the loop from s to t.
  ghost predicate RanStage(env: Env, s: Sched, t: Sched) {
    Between(env, s) && Between(env, t) && OneStageLater(env, s, t)
  }

  predicate OneStageLater(env: Env, s: Sched, t: Sched) {
    && s.next <= env.stages && !env.requested(s.looks)
    && t.next == s.next + 1 && t.looks == s.looks + 1
    && Visible(t.trace) == Visible(s.trace) + Ran(env, s.next)
    && t.aborted == (env.failFast && env.execute(s.next).returncode != 0)
  }

  lemma OneSlotNext(env: Env, s: Sched) returns (t: Sched)
    requires Between(env, s) && !s.aborted && s.next <= env.stages && !env.requested(s.looks)
    ensures RanStage(env, s, t) && Loop(env, s) == Loop(env, t)
  {
    OneSlotTurn(env, s);
    t := Turn(env, s).0;
    var n, r := s.next, env.execute(s.next);
    VisibleAdditive(s.trace, [Look(false), Start(n), Submit(n), Wait, Finish(n, r)]);
    VisibleStage(n, r);
  }

  // A one-slot run that a stage's failure stopped: at most one more look at the flag.
  lemma FailedEnds(env: Env, t: Sched)
    requires Between(env, t) && t.aborted && t.next > 0
    ensures Loop(env, t).next == t.next
    ensures Visible(ParallelFrom(env, t)) == Visible(t.trace) + [Abort(t.next - 1)]
  {
    AbortedEnds(env, t);
    var looked := Loop(env, t) != t;
    FailedTrace(t.trace, t.next - 1, env.requested(t.looks), looked);
  }

  lemma FailedTrace(t: seq<Call>, n: nat, stop: bool, looked: bool)
    ensures Visible((if looked then t + [Look(stop)] else t) + [Abort(n)]) == Visible(t) + [Abort(n)]
  {
    VisibleAbort(n, stop);
    var rest := if looked then [Look(stop), Abort(n)] else [Abort(n)];
    assert (if looked then t + [Look(stop)] else t) + [Abort(n)] == t + rest;
    VisibleAdditive(t, rest);
  }

  lemma StoppedEnds(env: Env, s: Sched)
    requires Between(env, s) && !s.aborted && s.next <= env.stages && env.requested(s.looks)
    ensures Loop(env, s).next == s.next
    ensures Visible(ParallelFrom(env, s)) == Visible(s.trace) + [Abort(s.next - 1)]
  {
    OneSlotTurn(env, s);
    var rest := [Look(true), Abort(s.next - 1)];
    assert ParallelFrom(env, s) == s.trace + rest;
    VisibleAdditive(s.trace, rest);
    VisibleAbort(s.next - 1, true);
  }

  // What is still visible from s on, and how many stages still run.
  ghost predicate Agrees(env: Env, s: Sched, visible: seq<Call>, next: nat) {
    && visible == Visible(s.trace) + SequentialVisible(env, s.next, s.looks)
    && next == s.next + |SequentialFrom(env, s.next, s.looks).1|
  }

  lemma StageAgrees(env: Env, s: Sched, t: Sched, visible: seq<Call>, next: nat)
    requires OneStageLater(env, s, t)
    requires if t.aborted then visible == Visible(t.trace) + [Abort(s.next)] && next == t.next
             else Agrees(env, t, visible, next)
    ensures Agrees(env, s, visible, next)
  {
    var a, h := Visible(s.trace), Ran(env, s.next);
    var rest := if t.aborted then [Abort(s.next)] else SequentialVisible(env, t.next, t.looks);
    SequentialStep(env, s.next, s.looks, t.aborted);
    Wrappers.InFront(a, h, rest, Visible(t.trace), SequentialVisible(env, s.next, s.looks));
  }

  lemma SequentialStep(env: Env, idx: nat, looks: nat, aborted: bool)
    requires idx <= env.stages && !env.requested(looks)
    requires aborted == (env.failFast && env.execute(idx).returncode != 0)
    ensures SequentialVisible(env, idx, looks)
         == Ran(env, idx) + if aborted then [Abort(idx)] else SequentialVisible(env, idx + 1, looks + 1)
    ensures |SequentialFrom(env, idx, looks).1|
         == if aborted then 1 else 1 + |SequentialFrom(env, idx + 1, looks + 1).1|
  {
  }

  // What the loop still does from s on is what the sequential loop does.
  ghost predicate Continues(env: Env, s: Sched)
    requires Sane(env, s)
  {
    Agrees(env, s, Visible(ParallelFrom(env, s)), Loop(env, s).next)
  }

  lemma {:induction false} OneSlotFrom(env: Env, s: Sched)
    requires Between(env, s) && !s.aborted
    ensures Continues(env, s)
    decreases env.stages + 1 - s.next
  {
    if s.next > env.stages {
      assert ParallelFrom(env, s) == s.trace;
    } else if env.requested(s.looks) {
      StoppedEnds(env, s);
    } else {
      var t := OneSlotNext(env, s);
      if !t.aborted {
        OneSlotFrom(env, t);
      }
      StageContinues(env, s, t);
    }
  }

  lemma StageContinues(env: Env, s: Sched, t: Sched)
    requires RanStage(env, s, t) && Loop(env, s) == Loop(env, t)
    requires t.aborted || Continues(env, t)
    ensures Continues(env, s)
  {
    assert ParallelFrom(env, s) == ParallelFrom(env, t);
    if t.aborted {
      FailedEnds(env, t);
    }
    StageAgrees(env, s, t, Visible(ParallelFrom(env, t)), Loop(env, t).next);
  }

  lemma {:induction false} SequentialResults(env: Env, idx: nat, looks: nat)
    ensures forall k :: 0 <= k < |SequentialFrom(env, idx, looks).1| ==>
              SequentialFrom(env, idx, looks).1[k] == env.execute(idx + k)
    decreases env.stages + 1 - idx
  {
    if idx <= env.stages && !env.requested(looks) {
      SequentialResults(env, idx + 1, looks + 1);
      var r, rest := SequentialFrom(env, idx, looks).1, SequentialFrom(env, idx + 1, looks + 1).1;
      if !(env.failFast && env.execute(idx).returncode != 0) {
        assert r == [env.execute(idx)] + rest;
        forall k | 1 <= k < |r| ensures r[k] == env.execute(idx + k) {
          assert r[k] == rest[k - 1];
          assert rest[k - 1] == env.execute((idx + 1) + (k - 1));
        }
      }
    }
  }

  /**
   With one slot the pool refines the sequential loop: the same start, execute, finish and
   abort calls with the same arguments, and the same returned list.
   */
  lemma OneSlotIsSequential(env: Env)
    requires env.maxParallel == 1
    ensures Visible(ParallelTrace(env)) == Visible(SequentialFrom(env, 1, 0).0)
    ensures ParallelResults(env) == SequentialFrom(env, 1, 0).1
  {
    OneSlotFrom(env, INITIAL);
    SequentialVisibleIs(env, 1, 0);
    SameResults(env);
  }

  lemma SameResults(env: Env)
    requires env.maxParallel == 1 && Loop(env, INITIAL).next == 1 + |SequentialFrom(env, 1, 0).1|
    ensures ParallelResults(env) == SequentialFrom(env, 1, 0).1
  {
    ResultsInOrder(env);
    ParallelIsLegal(env);
    SequentialResults(env, 1, 0);
  }

  // ---- a stop request in the sequential loop ----

  lemma {:induction false} StartedAdditive(a: seq<Call>, b: seq<Call>)
    ensures Started(a + b) == Started(a) + Started(b)
  {
    if b == [] {
      assert a + b == a;
    } else {
      assert (a + b)[..|a + b| - 1] == a + b[..|b| - 1];
      StartedAdditive(a, b[..|b| - 1]);
    }
  }

  // A stage that a request precedes is not started.
  lemma RequestedFromHere(env: Env, idx: nat, looks: nat)
    requires RequestedSince(SequentialFrom(env, idx, looks).0, 0)
    ensures Started(SequentialFrom(env, idx, looks).0) == 0
  {
    var t := SequentialFrom(env, idx, looks).0;
    if t != [] {
      assert t[0] != Look(false);
      assert |t| == 2 && t[0] == Look(true) && t[1].Abort?;
      NoStarts(t);
    }
  }

  // One stage of the sequential loop and what comes after it.
  lemma StageThen(env: Env, idx: nat, looks: nat) returns (later: seq<Call>)
    requires idx <= env.stages && !env.requested(looks)
    ensures var t := SequentialFrom(env, idx, looks).0;
            && |t| >= 4 && t[0] == Look(false) && t[1].Start? && t[2].Submit? && t[3].Finish? && later == t[4..]
    ensures later == if env.failFast && env.execute(idx).returncode != 0 then [Abort(idx)]
                     else SequentialFrom(env, idx + 1, looks + 1).0
  {
    later := if env.failFast && env.execute(idx).returncode != 0 then [Abort(idx)]
             else SequentialFrom(env, idx + 1, looks + 1).0;
    var here := [Look(false), Start(idx), Submit(idx), Finish(idx, env.execute(idx))];
    assert SequentialFrom(env, idx, looks).0 == here + later;
  }

  lemma SameEnd(t: seq<Call>, later: seq<Call>, n: nat, m: nat)
    requires n <= m <= |t| && later == t[n..]
    ensures later[m - n..] == t[m..]
  {
  }

  lemma RequestedLater(t: seq<Call>, m: nat, n: nat)
    requires n <= |t| && RequestedSince(t, m)
    ensures RequestedSince(t[n..], if m > n then m - n else 0)
  {
    assert forall j :: 0 <= j < |t[n..]| ==> t[n..][j] == t[j + n];
  }

  lemma {:induction false} SequentialStartsSince(env: Env, idx: nat, looks: nat, m: nat)
    requires m <= |SequentialFrom(env, idx, looks).0| && RequestedSince(SequentialFrom(env, idx, looks).0, m)
    ensures Started(SequentialFrom(env, idx, looks).0[m..]) <= 1
    decreases env.stages + 1 - idx, 1
  {
    var t := SequentialFrom(env, idx, looks).0;
    if m == 0 {
      assert t[0..] == t;
      RequestedFromHere(env, idx, looks);
    } else if idx <= env.stages && !env.requested(looks) {
      var later := StageThen(env, idx, looks);
      RequestedLater(t, m, 4);
      LaterStarts(env, idx, looks, m, later);
      StartsFrom(t, later, m);
    } else {
      NothingStarts(env, idx, looks, m);
    }
  }

  // What follows the first stage: nothing starts when the request was there before it ended.
  lemma LaterStarts(env: Env, idx: nat, looks: nat, m: nat, later: seq<Call>)
    requires idx <= env.stages && m <= |later| + 4 && RequestedSince(later, if m > 4 then m - 4 else 0)
    requires later == if env.failFast && env.execute(idx).returncode != 0 then [Abort(idx)]
                      else SequentialFrom(env, idx + 1, looks + 1).0
    ensures if m <= 4 then Started(later) == 0 else Started(later[m - 4..]) <= 1
    decreases env.stages + 1 - idx, 0
  {
    if env.failFast && env.execute(idx).returncode != 0 {
      NoStarts(later);
      NoStarts(if m > 4 then later[m - 4..] else []);
    } else if m <= 4 {
      RequestedFromHere(env, idx + 1, looks + 1);
    } else {
      SequentialStartsSince(env, idx + 1, looks + 1, m - 4);
    }
  }

  lemma StartsFrom(t: seq<Call>, later: seq<Call>, m: nat)
    requires |t| >= 4 && t[2].Submit? && t[3].Finish? && later == t[4..] && 1 <= m <= |t|
    requires if m <= 4 then Started(later) == 0 else Started(later[m - 4..]) <= 1
    ensures Started(t[m..]) <= 1
  {
    if m <= 4 {
      StageStarts(t, m, later);
    } else {
      SameEnd(t, later, 4, m);
    }
  }

  lemma NothingStarts(env: Env, idx: nat, looks: nat, m: nat)
    requires idx > env.stages || env.requested(looks)
    requires m <= |SequentialFrom(env, idx, looks).0|
    ensures Started(SequentialFrom(env, idx, looks).0[m..]) == 0
  {
    NoStarts(SequentialFrom(env, idx, looks).0[m..]);
  }

  // One stage and what comes after it, of which nothing starts.
  lemma StageStarts(t: seq<Call>, m: nat, later: seq<Call>)
    requires |t| >= 4 && t[2].Submit? && t[3].Finish? && later == t[4..] && 1 <= m <= |t| && Started(later) == 0
    ensures Started(t[m..]) <= 1
  {
    StartedOnce(t, m);
    if m <= 4 {
      assert t[m..] == t[m..4] + later;
      StartedAdditive(t[m..4], later);
    } else {
      assert later == later[..m - 4] + t[m..];
      StartedAdditive(later[..m - 4], t[m..]);
    }
  }

  lemma StartedOnce(t: seq<Call>, m: nat)
    requires |t| >= 4 && t[2].Submit? && t[3].Finish? && 1 <= m
    ensures m <= 4 ==> Started(t[m..4]) <= 1
  {
    var one := [t[1]];
    assert one[..0] == [] && Started(one) <= 1;
    if m == 1 {
      assert t[1..4] == one + t[2..4];
      NoStarts(t[2..4]);
      StartedAdditive(one, t[2..4]);
    } else if m <= 4 {
      NoStarts(t[m..4]);
    }
  }

  lemma {:induction false} NoStarts(t: seq<Call>)
    requires forall c <- t :: !c.Start?
    ensures Started(t) == 0
  {
    if t != [] {
      NoStarts(t[..|t| - 1]);
    }
  }

  /** After a stop request the sequential loop starts at most one more stage. */
  lemma OneStartAfterRequest(env: Env, m: nat)
    requires m <= |SequentialFrom(env, 1, 0).0| && RequestedSince(SequentialFrom(env, 1, 0).0, m)
    ensures Started(SequentialFrom(env, 1, 0).0) - Started(SequentialFrom(env, 1, 0).0[..m]) <= 1
  {
    var t := SequentialFrom(env, 1, 0).0;
    SequentialStartsSince(env, 1, 0, m);
    assert t == t[..m] + t[m..];
    StartedAdditive(t[..m], t[m..]);
  }

  // ---- the loops themselves ----

  // What the sequential loop did so far, and will do from here.
  ghost predicate Goes(env: Env, trace: seq<Call>, results: seq<StageResult>, idx: nat, looks: nat) {
    && SequentialFrom(env, 1, 0).0 == trace + SequentialFrom(env, idx, looks).0
    && SequentialFrom(env, 1, 0).1 == results + SequentialFrom(env, idx, looks).1
  }

  lemma GoesOn(env: Env, trace: seq<Call>, results: seq<StageResult>, idx: nat, looks: nat)
    requires Goes(env, trace, results, idx, looks) && idx <= env.stages && !env.requested(looks)
    ensures var r := env.execute(idx);
            var here := [Look(false), Start(idx), Submit(idx), Finish(idx, r)];
            if env.failFast && r.returncode != 0
            then SequentialFrom(env, 1, 0) == (trace + here + [Abort(idx)], results + [r])
            else Goes(env, trace + here, results + [r], idx + 1, looks + 1)
  {
    var r := env.execute(idx);
    var here := [Look(false), Start(idx), Submit(idx), Finish(idx, r)];
    var (later, rest) := SequentialFrom(env, idx + 1, looks + 1);
    Wrappers.InFront(trace, here, later, trace + here, here + later);
    Wrappers.InFront(trace, here, [Abort(idx)], trace + here, here + [Abort(idx)]);
    Wrappers.InFront(results, [r], rest, results + [r], [r] + rest);
  }

  lemma GoesNoFurther(env: Env, trace: seq<Call>, results: seq<StageResult>, idx: nat, looks: nat)
    requires Goes(env, trace, results, idx, looks) && idx > 0
    ensures idx > env.stages ==> SequentialFrom(env, 1, 0) == (trace, results)
    ensures idx <= env.stages && env.requested(looks) ==>
              SequentialFrom(env, 1, 0) == (trace + [Look(true), Abort(idx - 1)], results)
  {
    assert trace + [] == trace && results + [] == results;
  }

  method RunSequential(env: Env) returns (results: seq<StageResult>, trace: seq<Call>)
    ensures trace == SequentialFrom(env, 1, 0).0 && results == SequentialFrom(env, 1, 0).1
  {
    results, trace := [], [];
    var looks := 0;
    var idx := 1;
    while idx <= env.stages
      invariant 1 <= idx <= env.stages + 1 && Goes(env, trace, results, idx, looks)
    {
      var stop := env.requested(looks);
      if stop {
        GoesNoFurther(env, trace, results, idx, looks);
        trace := trace + [Look(true), Abort(idx - 1)];
        return;
      }
      GoesOn(env, trace, results, idx, looks);
      looks := looks + 1;
      var result := env.execute(idx);
      trace := trace + [Look(false), Start(idx), Submit(idx), Finish(idx, result)];
      results := results + [result];
      if env.failFast && result.returncode != 0 {
        trace := trace + [Abort(idx)];
        return;
      }
      idx := idx + 1;
    }
    GoesNoFurther(env, trace, results, idx, looks);
  }

  method RunParallel(env: Env) returns (returned: seq<StageResult>, trace: seq<Call>)
    requires env.maxParallel >= 1
    ensures trace == ParallelTrace(env) && returned == ParallelResults(env)
  {
    var s := INITIAL;
    while Busy(env, s)
      invariant Sane(env, s) && Loop(env, s) == Loop(env, INITIAL)
      decreases Left(env, s)
    {
      TurnSane(env, s);
      s := LookAt(env, s);
      s := StartAll(env, s);
      if s.running == {} {
        break;
      }
      var done := Ascending(Woken(env, s.wakes, s.running), 1, s.next);
      s := WaitAny(env, s);
      s := ReportAll(env, s, done);
    }
    trace := s.trace;
    if s.aborted {
      trace := trace + [Abort(|s.results|)];
    }
    ParallelIsLegal(env);
    AscendingIs(s.results.Keys, 1, s.next);
    returned := Collect(s.results, Ascending(s.results.Keys, 1, s.next));
  }

  // The inner loop: every free slot gets the next pending stage.
  method StartAll(env: Env, before: Sched) returns (s: Sched)
    ensures s == Fill(env, before)
  {
    s := before;
    while CanStart(env, s)
      invariant Fill(env, s) == Fill(env, before)
      decreases env.stages + 1 - s.next
    {
      s := StartNext(s);
    }
  }

  method ReportAll(env: Env, before: Sched, done: seq<nat>) returns (s: Sched)
    ensures s == FinishAll(env, before, done)
  {
    s := before;
    var i := 0;
    while i < |done|
      invariant 0 <= i <= |done|
      invariant FinishAll(env, s, done[i..]) == FinishAll(env, before, done)
    {
      assert done[i..][0] == done[i] && done[i..][1..] == done[i + 1..];
      s := FinishOne(env, s, done[i]);
      i := i + 1;
    }
  }
}
