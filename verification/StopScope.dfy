/**
 Stopping a run: the handshake between a stage thread, which registers its process and then
 looks at the flag, and a stop request, which sets the flag and then signals a snapshot of
 the registered processes.
 */
module StopScope {
  import opened Wrappers

  type Proc = nat       // a stage process
  type Asker = nat      // one call of `request`

  // ---- the scope's lock regions ----

  type Reason = Option<Token<string>>      // who asked, when it was not a signal

  datatype Scope = Scope(running: set<Proc>, signum: Option<int>, reason: Reason, count: nat)

  function Enter(s: Scope, p: Proc): Scope {
    s.(running := s.running + {p})
  }

  function Leave(s: Scope, p: Proc): Scope {
    s.(running := s.running - {p})
  }

  // The first request's signal and reason stay.
  function Ask(s: Scope, signum: int, reason: Reason): Scope {
    var t := s.(count := s.count + 1);
    if s.signum.None? then t.(signum := Some(signum), reason := reason) else t
  }

  class StopSwitch {
    var running: set<Proc>
    var signum: Option<int>
    var reason: Reason
    var count: nat

    function View(): Scope
      reads this
    {
      Scope(running, signum, reason, count)
    }

    constructor ()
      ensures View() == Scope({}, None, None, 0)
    {
      running, signum, reason, count := {}, None, None, 0;
    }

    method Add(proc: Proc)
      modifies this
      ensures View() == Enter(old(View()), proc)
    {
      running := running + {proc};
    }

    method Discard(proc: Proc)
      modifies this
      ensures View() == Leave(old(View()), proc)
    {
      running := running - {proc};
    }

    // The first region of `request`; it returns how many times the run was asked to stop.
    method Request(sig: int, why: Reason) returns (asked: nat)
      modifies this
      ensures View() == Ask(old(View()), sig, why) && asked == View().count
    {
      count := count + 1;
      if signum == None {
        signum, reason := Some(sig), why;
      }
      asked := count;
    }
  }

  // ---- the threads ----

  // A stage thread in `_run_process_stage`.
  datatype StagePc =
    | Launched            // started, not in the scope yet
    | Added               // in the scope, not in the process-wide set yet
    | Registered          // looks at the flag next
    | MustStop            // saw the flag; terminates the process next
    | Waiting             // waits for the process
    | Discarded           // out of the scope
    | Unregistered

  datatype AskPc =
    | Asked(count: nat)                                  // the flag is set; the snapshot comes next
    | Signalling(seen: set<Proc>, todo: set<Proc>, force: bool)

  datatype State = State(
    scope: Scope,
    all: set<Proc>,                  // every stage process of every scope
    stages: map<Proc, StagePc>,
    askers: map<Asker, AskPc>,
    terminated: set<Proc>,           // history: who was sent terminate, and who kill
    killed: set<Proc>)

  datatype Event =
    | Launch(p: Proc)
    | AddToScope(p: Proc)
    | AddToAll(p: Proc)
    | LookAtFlag(p: Proc)
    | StopIt(p: Proc)
    | DiscardFromScope(p: Proc)
    | DiscardFromAll(p: Proc)
    | BeginRequest(a: Asker, signum: int, reason: Reason)
    | Snapshot(a: Asker)
    | Signal(a: Asker, p: Proc)

  predicate StageAt(s: State, p: Proc, pc: StagePc) {
    p in s.stages && s.stages[p] == pc
  }

  predicate Enabled(s: State, e: Event) {
    match e
    case Launch(p) => p !in s.stages
    case AddToScope(p) => StageAt(s, p, Launched)
    case AddToAll(p) => StageAt(s, p, Added)
    case LookAtFlag(p) => StageAt(s, p, Registered)
    case StopIt(p) => StageAt(s, p, MustStop)
    // also when terminate() raised
    case DiscardFromScope(p) => StageAt(s, p, Waiting) || StageAt(s, p, MustStop)
    case DiscardFromAll(p) => StageAt(s, p, Discarded)
    case BeginRequest(a, _, _) => a !in s.askers
    case Snapshot(a) => a in s.askers && s.askers[a].Asked?
    case Signal(a, p) => a in s.askers && s.askers[a].Signalling? && p in s.askers[a].todo
  }

  function Apply(s: State, e: Event): State
    requires Enabled(s, e)
  {
    match e
    case Launch(p) => s.(stages := s.stages[p := Launched])
    case AddToScope(p) =>
      s.(stages := s.stages[p := Added], scope := Enter(s.scope, p))
    case AddToAll(p) => s.(stages := s.stages[p := Registered], all := s.all + {p})
    case LookAtFlag(p) => s.(stages := s.stages[p := if s.scope.signum.Some? then MustStop else Waiting])
    case StopIt(p) => s.(stages := s.stages[p := Waiting], terminated := s.terminated + {p})
    case DiscardFromScope(p) =>
      s.(stages := s.stages[p := Discarded], scope := Leave(s.scope, p))
    case DiscardFromAll(p) => s.(stages := s.stages[p := Unregistered], all := s.all - {p})
    case BeginRequest(a, signum, reason) =>
      var scope := Ask(s.scope, signum, reason);
      s.(scope := scope, askers := s.askers[a := Asked(scope.count)])
    case Snapshot(a) =>
      var seen := s.scope.running;
      s.(askers := s.askers[a := Signalling(seen, seen, s.askers[a].count >= 2)])
    case Signal(a, p) =>
      var pc := s.askers[a];
      var t := s.(askers := s.askers[a := pc.(todo := pc.todo - {p})]);
      if pc.force then t.(killed := s.killed + {p}) else t.(terminated := s.terminated + {p})
  }

  const INITIAL := State(Scope({}, None, None, 0), {}, map[], map[], {}, {})

  // ---- the invariant ----

  predicate InScope(pc: StagePc) {
    pc.Added? || pc.Registered? || pc.MustStop? || pc.Waiting?
  }

  predicate Signalled(s: State, p: Proc) {
    p in s.terminated || p in s.killed
  }

  // A process in the scope that a started snapshot does not cover was registered after it, so
  // its own thread has yet to look at the flag, or has seen it.
  predicate Covered(s: State, a: Asker, p: Proc) {
    a in s.askers && s.askers[a].Signalling? && p in s.scope.running ==>
      p in s.askers[a].todo || Signalled(s, p) || (p in s.stages && !s.stages[p].Waiting?)
  }

  // Whatever a snapshot saw gets that request's signal.
  predicate Served(s: State, a: Asker, p: Proc) {
    a in s.askers && s.askers[a].Signalling? && p in s.askers[a].seen ==>
      p in s.askers[a].todo || (if s.askers[a].force then p in s.killed else p in s.terminated)
  }

  ghost predicate Inv(s: State) {
    && (s.askers != map[] <==> s.scope.signum.Some?)
    && (forall p :: p in s.scope.running <==> p in s.stages && InScope(s.stages[p]))
    && (forall p :: p in s.all <==>
          p in s.stages && (s.stages[p].Discarded? || (InScope(s.stages[p]) && !s.stages[p].Added?)))
    && (forall a, p {:trigger Covered(s, a, p)} :: Covered(s, a, p))
    && (forall a, p {:trigger Served(s, a, p)} :: Served(s, a, p))
  }

  lemma StepKeeps(s: State, e: Event)
    requires Inv(s) && Enabled(s, e)
    ensures Inv(Apply(s, e))
  {
    var t := Apply(s, e);
    forall a, p ensures Covered(t, a, p) {
      assert Covered(s, a, p);
    }
    forall a, p ensures Served(t, a, p) {
      assert Served(s, a, p);
    }
  }

  ghost predicate IsRun(ss: seq<State>, es: seq<Event>) {
    && |ss| == |es| + 1 && ss[0] == INITIAL
    && forall i :: 0 <= i < |es| ==> Enabled(ss[i], es[i]) && ss[i + 1] == Apply(ss[i], es[i])
  }

  lemma {:induction false} RunHolds(ss: seq<State>, es: seq<Event>, i: nat)
    requires IsRun(ss, es) && i < |ss|
    ensures Inv(ss[i])
  {
    if i > 0 {
      RunHolds(ss, es, i - 1);
      assert Enabled(ss[i - 1], es[i - 1]) && ss[i] == Apply(ss[i - 1], es[i - 1]);
      StepKeeps(ss[i - 1], es[i - 1]);
    }
  }

  // Request a has signalled everything it saw.
  predicate Completed(s: State, a: Asker) {
    a in s.askers && s.askers[a].Signalling? && s.askers[a].todo == {}
  }

  /**
   No stage process escapes a stop request: in every interleaving, once the request is
   through and the stage's thread has looked at the flag, the process was sent terminate or
   kill, unless it is unregistered already. A repeated request kills all it saw.
   */
  lemma NoProcessEscapes(ss: seq<State>, es: seq<Event>, i: nat, a: Asker, p: Proc)
    requires IsRun(ss, es) && i < |ss| && Completed(ss[i], a)
    ensures StageAt(ss[i], p, Waiting) ==> Signalled(ss[i], p)
    ensures p in ss[i].askers[a].seen ==>
              if ss[i].askers[a].force then p in ss[i].killed else p in ss[i].terminated
  {
    RunHolds(ss, es, i);
    assert Covered(ss[i], a, p) && Served(ss[i], a, p);
  }

  /** A stage that is still in the scope when the process exits can be killed by the exit handler. */
  lemma ExitSeesWaitingStages(ss: seq<State>, es: seq<Event>, i: nat, p: Proc)
    requires IsRun(ss, es) && i < |ss| && p in ss[i].stages
    requires ss[i].stages[p].Registered? || ss[i].stages[p].MustStop? || ss[i].stages[p].Waiting?
    ensures p in ss[i].all
  {
    RunHolds(ss, es, i);
  }

  lemma {:induction false} FlagStays(ss: seq<State>, es: seq<Event>, i: nat, j: nat)
    requires IsRun(ss, es) && i <= j < |ss| && ss[i].scope.signum.Some?
    ensures ss[j].scope.signum == ss[i].scope.signum && ss[j].scope.reason == ss[i].scope.reason
  {
    if i < j {
      FlagStays(ss, es, i, j - 1);
      assert Enabled(ss[j - 1], es[j - 1]) && ss[j] == Apply(ss[j - 1], es[j - 1]);
    }
  }

  /**
   Whatever happens in between, a stage that looks at the flag after a request was made goes on
   to terminate its process, and the first request's signal and reason are the ones that are shown.
   */
  lemma RequestIsSeen(ss: seq<State>, es: seq<Event>, i: nat, j: nat, p: Proc)
    requires IsRun(ss, es) && i < j < |es| && es[i].BeginRequest? && es[j] == LookAtFlag(p)
    ensures StageAt(ss[j + 1], p, MustStop)
    ensures ss[i].askers == map[] ==>
              ss[j + 1].scope.signum == Some(es[i].signum) && ss[j + 1].scope.reason == es[i].reason
  {
    RunHolds(ss, es, i);
    assert Enabled(ss[i], es[i]) && ss[i + 1] == Apply(ss[i], es[i]);
    FlagStays(ss, es, i + 1, j);
    assert Enabled(ss[j], es[j]) && ss[j + 1] == Apply(ss[j], es[j]);
  }

  // ---- what each request does, by the events alone ----

  // How many requests were made before step n.
  function Requests(es: seq<Event>, n: nat): nat
    requires n <= |es|
  {
    if n == 0 then 0 else Requests(es, n - 1) + if es[n - 1].BeginRequest? then 1 else 0
  }

  predicate Happened(es: seq<Event>, from: nat, to: nat, e: Event) {
    exists l :: from <= l < to <= |es| && es[l] == e
  }

  lemma {:induction false} CountIsRequests(ss: seq<State>, es: seq<Event>, i: nat)
    requires IsRun(ss, es) && i < |ss|
    ensures ss[i].scope.count == Requests(es, i)
  {
    if i > 0 {
      CountIsRequests(ss, es, i - 1);
      assert Enabled(ss[i - 1], es[i - 1]) && ss[i] == Apply(ss[i - 1], es[i - 1]);
    }
  }

  // Whether an asker is to kill: its number says so from the start.
  predicate IsToKill(s: State, a: Asker, kill: bool) {
    a in s.askers && (if s.askers[a].Asked? then s.askers[a].count >= 2 else s.askers[a].force) == kill
  }

  lemma {:induction false} NumberStays(ss: seq<State>, es: seq<Event>, k: nat, i: nat, a: Asker)
    requires IsRun(ss, es) && k < i < |ss| && es[k].BeginRequest? && es[k].a == a
    ensures IsToKill(ss[i], a, Requests(es, k) >= 1)
    decreases i
  {
    assert Enabled(ss[i - 1], es[i - 1]) && ss[i] == Apply(ss[i - 1], es[i - 1]);
    if i == k + 1 {
      CountIsRequests(ss, es, k);
    } else {
      NumberStays(ss, es, k, i - 1, a);
    }
  }

  // After its snapshot a request has left to signal whom it saw and has not signalled yet.
  lemma {:induction false} LeftToSignal(ss: seq<State>, es: seq<Event>, m: nat, i: nat, a: Asker, p: Proc)
    requires IsRun(ss, es) && m < i < |ss| && es[m] == Snapshot(a)
    ensures a in ss[i].askers && ss[i].askers[a].Signalling? && ss[i].askers[a].seen == ss[m].scope.running
    ensures p in ss[i].askers[a].todo <==> p in ss[m].scope.running && !Happened(es, m, i, Signal(a, p))
    decreases i
  {
    assert Enabled(ss[i - 1], es[i - 1]) && ss[i] == Apply(ss[i - 1], es[i - 1]);
    if i > m + 1 {
      LeftToSignal(ss, es, m, i - 1, a, p);
      assert Happened(es, m, i, Signal(a, p)) <==> Happened(es, m, i - 1, Signal(a, p)) || es[i - 1] == Signal(a, p);
    }
  }

  lemma {:induction false} RequestsGrow(es: seq<Event>, k: nat, n: nat)
    requires k <= n <= |es|
    ensures Requests(es, k) <= Requests(es, n)
    ensures Requests(es, k) < Requests(es, n) <==> exists l :: k <= l < n && es[l].BeginRequest?
  {
    if k < n {
      RequestsGrow(es, k, n - 1);
    }
  }

  // While there was one request at most, nobody is killed.
  lemma {:induction false} OneRequestKillsNobody(ss: seq<State>, es: seq<Event>, i: nat, a: Asker)
    requires IsRun(ss, es) && i < |ss| && Requests(es, i) <= 1
    ensures ss[i].killed == {} && (a in ss[i].askers ==> IsToKill(ss[i], a, false))
  {
    if i > 0 {
      assert Enabled(ss[i - 1], es[i - 1]) && ss[i] == Apply(ss[i - 1], es[i - 1]);
      OneRequestKillsNobody(ss, es, i - 1, a);
      CountIsRequests(ss, es, i);
      if es[i - 1].Signal? {
        OneRequestKillsNobody(ss, es, i - 1, es[i - 1].a);
      }
    }
  }

  /**
   The first request terminates the stages and every later one kills them: a request that has
   signalled each process that was in the scope at its snapshot has killed them all exactly
   when it was not the first of the run; the first one terminated them all, and nobody is
   killed before there is a second.
   */
  lemma LaterRequestsKill(ss: seq<State>, es: seq<Event>, k: nat, m: nat, i: nat, a: Asker)
    requires IsRun(ss, es) && k < m < i < |ss|
    requires es[k].BeginRequest? && es[k].a == a && es[m] == Snapshot(a)
    requires forall p <- ss[m].scope.running :: Happened(es, m, i, Signal(a, p))
    ensures (exists l :: 0 <= l < k && es[l].BeginRequest?) ==> ss[m].scope.running <= ss[i].killed
    ensures (forall l :: 0 <= l < k ==> !es[l].BeginRequest?) ==> ss[m].scope.running <= ss[i].terminated
    ensures (forall l :: 0 <= l < i && l != k ==> !es[l].BeginRequest?) ==> ss[i].killed == {}
  {
    RequestsGrow(es, 0, k);
    forall p | p in ss[m].scope.running
      ensures if Requests(es, k) >= 1 then p in ss[i].killed else p in ss[i].terminated
    {
      LeftToSignal(ss, es, m, i, a, p);
      NumberStays(ss, es, k, i, a);
      RunHolds(ss, es, i);
      assert Served(ss[i], a, p);
    }
    if forall l :: 0 <= l < i && l != k ==> !es[l].BeginRequest? {
      RequestsGrow(es, k + 1, i);
      OneRequestKillsNobody(ss, es, i, a);
    }
  }

  /** A process is in the scope from when its thread adds it until the thread takes it out. */
  lemma {:induction false} InScopeExactly(ss: seq<State>, es: seq<Event>, i: nat, p: Proc)
    requires IsRun(ss, es) && i < |ss|
    ensures p in ss[i].scope.running
            <==> Happened(es, 0, i, AddToScope(p)) && !Happened(es, 0, i, DiscardFromScope(p))
    ensures p in ss[i].all <==> Happened(es, 0, i, AddToAll(p)) && !Happened(es, 0, i, DiscardFromAll(p))
  {
    RunHolds(ss, es, i);
    AsFarAsItsEvents(ss, es, i, p);
  }

  // How far a stage thread is, by what it did.
  predicate GotTo(s: State, p: Proc, added: bool, registered: bool, discarded: bool, gone: bool) {
    && (added <==> p in s.stages && !s.stages[p].Launched?)
    && (registered <==> p in s.stages && !s.stages[p].Launched? && !s.stages[p].Added?)
    && (discarded <==> p in s.stages && (s.stages[p].Discarded? || s.stages[p].Unregistered?))
    && (gone <==> p in s.stages && s.stages[p].Unregistered?)
  }

  lemma {:induction false} AsFarAsItsEvents(ss: seq<State>, es: seq<Event>, i: nat, p: Proc)
    requires IsRun(ss, es) && i < |ss|
    ensures GotTo(ss[i], p, Happened(es, 0, i, AddToScope(p)), Happened(es, 0, i, AddToAll(p)),
                  Happened(es, 0, i, DiscardFromScope(p)), Happened(es, 0, i, DiscardFromAll(p)))
  {
    if i > 0 {
      AsFarAsItsEvents(ss, es, i - 1, p);
      assert Enabled(ss[i - 1], es[i - 1]) && ss[i] == Apply(ss[i - 1], es[i - 1]);
      StageMoves(ss[i - 1], es[i - 1], p);
      OneMoreStep(es, i, AddToScope(p));
      OneMoreStep(es, i, AddToAll(p));
      OneMoreStep(es, i, DiscardFromScope(p));
      OneMoreStep(es, i, DiscardFromAll(p));
    }
  }

  lemma OneMoreStep(es: seq<Event>, i: nat, e: Event)
    requires 0 < i <= |es|
    ensures Happened(es, 0, i, e) <==> Happened(es, 0, i - 1, e) || es[i - 1] == e
  {
  }

  lemma StageMoves(s: State, e: Event, p: Proc)
    requires Enabled(s, e)
    ensures forall a, r, d, g :: GotTo(s, p, a, r, d, g) ==>
              GotTo(Apply(s, e), p, a || e == AddToScope(p), r || e == AddToAll(p),
                    d || e == DiscardFromScope(p), g || e == DiscardFromAll(p))
  {
  }

  // ---- nobody is stuck ----

  // How many steps of its own a stage thread has left once it is launched.
  function StageSteps(pc: StagePc): nat {
    match pc
    case Launched => 6
    case Added => 5
    case Registered => 4
    case MustStop => 3
    case Waiting => 2
    case Discarded => 1
    case Unregistered => 0
  }

  // And a request: its two regions, then one signal for each process of the snapshot.
  function AskSteps(s: State, a: Asker): nat {
    if a !in s.askers then |s.scope.running| + 2
    else if s.askers[a].Asked? then |s.scope.running| + 1
    else |s.askers[a].todo|
  }

  /**
   In every state each stage thread has a step that brings it nearer to the end of its own
   clean-up, also when `terminate` raised; and each request, a new one too, has a step that
   brings it nearer to having signalled its whole snapshot.
   */
  lemma EveryoneGoesOn(s: State, p: Proc, a: Asker)
    ensures p !in s.stages ==> Enabled(s, Launch(p)) && StageAt(Apply(s, Launch(p)), p, Launched)
    ensures p in s.stages && StageSteps(s.stages[p]) > 0 ==>
              exists e :: Enabled(s, e) && p in Apply(s, e).stages
                          && StageSteps(Apply(s, e).stages[p]) < StageSteps(s.stages[p])
                          && Apply(s, e).scope.signum == s.scope.signum
    ensures StageAt(s, p, MustStop) ==>
              && Enabled(s, StopIt(p)) && p in Apply(s, StopIt(p)).terminated && StageAt(Apply(s, StopIt(p)), p, Waiting)
              && Enabled(s, DiscardFromScope(p)) && p !in Apply(s, DiscardFromScope(p)).scope.running
    ensures AskSteps(s, a) > 0 ==>
              exists e :: Enabled(s, e) && AskSteps(Apply(s, e), a) < AskSteps(s, a)
                          && Apply(s, e).scope.running == s.scope.running
  {
    if p in s.stages && StageSteps(s.stages[p]) > 0 {
      var e := StageGoesOn(s, p);
    }
    if AskSteps(s, a) > 0 {
      var e := RequestGoesOn(s, a);
    }
  }

  lemma StageGoesOn(s: State, p: Proc) returns (e: Event)
    requires p in s.stages && StageSteps(s.stages[p]) > 0
    ensures Enabled(s, e) && Apply(s, e).scope.signum == s.scope.signum
    ensures p in Apply(s, e).stages && StageSteps(Apply(s, e).stages[p]) < StageSteps(s.stages[p])
  {
    match s.stages[p]
    case Launched => e := AddToScope(p);
    case Added => e := AddToAll(p);
    case Registered => e := LookAtFlag(p);
    case MustStop => e := StopIt(p);
    case Waiting => e := DiscardFromScope(p);
    case Discarded => e := DiscardFromAll(p);
  }

  lemma RequestGoesOn(s: State, a: Asker) returns (e: Event)
    requires AskSteps(s, a) > 0
    ensures Enabled(s, e) && AskSteps(Apply(s, e), a) < AskSteps(s, a) && Apply(s, e).scope.running == s.scope.running
  {
    if a !in s.askers {
      e := BeginRequest(a, 15, None);
    } else if s.askers[a].Asked? {
      e := Snapshot(a);
    } else {
      var p :| p in s.askers[a].todo;
      e := Signal(a, p);
    }
  }
}
