/**
 The cycle's file lock as a crash journal. Runs take the lock, read the marker an earlier run
 left behind, write their own and empty the file when they end; any of them can die between
 any two steps, which frees the lock and leaves the file as it is.
 */
module CycleLock {
  import opened Wrappers

  // One run of the cycle, or one call of `take_unfinished`. Its marker names it.
  type RunId = nat

  // What the lock file says. A write cut short is not a marker.
  datatype Content = Empty | Partial | Marker(run: RunId)

  // `_left_behind`: the marker in the file, if it is one.
  function LeftBehind(c: Content): Option<RunId> {
    if c.Marker? then Some(c.run) else None
  }

  datatype Pc =
    | Trying                          // tries the lock next
    | Refused                         // found it held; polls again or gives up
    | Locked                          // has the lock; reads the file next
    | Reporting(left: Option<RunId>)  // read it; `on_unfinished` comes next
    | Truncating(left: Option<RunId>) // reported what it found, if it reports; empties the file next
    | Writing                         // writes its marker next
    | Body                            // inside the `with` block
    | Clearing                        // left the block; empties the file next
    | Unlocking(left: Option<RunId>)  // releases the lock next; a taker cleared `left`
    | Taking(left: Option<RunId>)     // `take_unfinished` read the file
    | Recording(left: Option<RunId>)  // its caller records the run next
    | Ended
    | Crashed

  // `reports`: the run was given an `on_unfinished`.
  datatype Kind = CycleRun(reports: bool) | Taker

  datatype State = State(
    content: Content,
    lock: Option<RunId>,
    pcs: map<RunId, Pc>,
    kinds: map<RunId, Kind>,
    died: set<RunId>,                 // history: who crashed holding the lock
    unseen: Option<RunId>,            // history: who died in its body and was not read since
    journal: set<RunId>,              // history: who died in its body
    reported: set<RunId>,             // history: who was reported or recorded as unfinished
    takenBy: map<RunId, RunId>,       // history: whose marker a taker cleared
    lost: set<RunId>)                 // history: whose marker was cleared and then not reported

  datatype Event =
    | Open(r: RunId, kind: Kind)
    | TryLock(r: RunId)
    | Refuse(r: RunId)                // the lock is held
    | Retry(r: RunId)
    | GiveUp(r: RunId)                // timeout, or a `take_unfinished`
    | ReadMarker(r: RunId)
    | Report(r: RunId, raises: bool)
    | Truncate(r: RunId)
    | Flush(r: RunId)
    | CutShort(r: RunId)              // dies while its marker is being written
    | LeaveBody(r: RunId)
    | Clear(r: RunId)
    | ClearTaken(r: RunId)
    | Unlock(r: RunId)
    | Record(r: RunId)
    | Crash(r: RunId)

  predicate At(s: State, r: RunId, pc: Pc) {
    r in s.pcs && s.pcs[r] == pc
  }

  predicate Holds(pc: Pc) {
    !pc.Trying? && !pc.Refused? && !pc.Recording? && !pc.Ended? && !pc.Crashed?
  }

  predicate Reports(s: State, r: RunId) {
    r in s.kinds && s.kinds[r].CycleRun? && s.kinds[r].reports
  }

  predicate Running(s: State, r: RunId) {
    r in s.pcs && !s.pcs[r].Ended? && !s.pcs[r].Crashed?
  }

  predicate Enabled(s: State, e: Event) {
    match e
    case Open(r, _) => r !in s.pcs
    case TryLock(r) => At(s, r, Trying) && s.lock.None?
    case Refuse(r) => At(s, r, Trying) && s.lock.Some?
    case Retry(r) => At(s, r, Refused) && !(r in s.kinds && s.kinds[r].Taker?)
    case GiveUp(r) => At(s, r, Refused)
    case ReadMarker(r) => At(s, r, Locked)
    case Report(r, raises) => r in s.pcs && s.pcs[r].Reporting? && (raises ==> Reports(s, r))
    case Truncate(r) => r in s.pcs && s.pcs[r].Truncating?
    case Flush(r) => At(s, r, Writing)
    case CutShort(r) => At(s, r, Writing)
    case LeaveBody(r) => At(s, r, Body)
    case Clear(r) => At(s, r, Clearing)
    case ClearTaken(r) => r in s.pcs && s.pcs[r].Taking?
    case Unlock(r) => r in s.pcs && s.pcs[r].Unlocking?
    case Record(r) => r in s.pcs && s.pcs[r].Recording?
    case Crash(r) => Running(s, r)
  }

  function Goto(s: State, r: RunId, pc: Pc): State {
    s.(pcs := s.pcs[r := pc])
  }

  function Die(s: State, r: RunId): State
    requires r in s.pcs
  {
    var pc := s.pcs[r];
    var t := Goto(s, r, Crashed)
               .(lost := if pc.Unlocking? || pc.Recording? then s.lost + These(pc.left) else s.lost);
    if s.lock == Some(r)
    then t.(lock := None, died := s.died + {r}, unseen := if pc.Body? then Some(r) else s.unseen,
            journal := if pc.Body? then s.journal + {r} else s.journal)
    else t
  }

  function These(left: Option<RunId>): set<RunId> {
    if left.Some? then {left.value} else {}
  }

  function Apply(s: State, e: Event): State
    requires Enabled(s, e)
  {
    match e
    case Open(r, kind) => Goto(s, r, Trying).(kinds := s.kinds[r := kind])
    case TryLock(r) => Goto(s, r, Locked).(lock := Some(r))
    case Refuse(r) => Goto(s, r, Refused)
    case Retry(r) => Goto(s, r, Trying)
    case GiveUp(r) => Goto(s, r, Ended)
    case ReadMarker(r) =>
      var left := LeftBehind(s.content);
      Goto(s, r, if r in s.kinds && s.kinds[r].Taker? then Taking(left) else Reporting(left)).(unseen := None)
    // `on_unfinished` may raise: then the file stays as it was found.
    case Report(r, raises) =>
      var left := s.pcs[r].left;
      if raises && left.Some? then Goto(s, r, Unlocking(None))
      else if Reports(s, r) then Goto(s, r, Truncating(left)).(reported := s.reported + These(left))
      else Goto(s, r, Truncating(left))
    case Truncate(r) =>
      var t := Goto(s, r, Writing).(content := Empty);
      if Reports(s, r) then t else t.(lost := s.lost + These(s.pcs[r].left))
    case Flush(r) => Goto(s, r, Body).(content := Marker(r))
    case CutShort(r) => Die(s.(content := Partial), r)
    case LeaveBody(r) => Goto(s, r, Clearing)
    case Clear(r) => Goto(s, r, Unlocking(None)).(content := Empty)
    case ClearTaken(r) =>
      var left := s.pcs[r].left;
      if left.None? then Goto(s, r, Unlocking(None))
      else Goto(s, r, Unlocking(left)).(content := Empty, takenBy := s.takenBy[left.value := r])
    case Unlock(r) =>
      Goto(s, r, if r in s.kinds && s.kinds[r].Taker? then Recording(s.pcs[r].left) else Ended).(lock := None)
    case Record(r) => Goto(s, r, Ended).(reported := s.reported + These(s.pcs[r].left))
    case Crash(r) => Die(s, r)
  }

  const INITIAL := State(Empty, None, map[], map[], {}, None, {}, {}, map[], {})

  // ---- the invariant ----

  // What holds of one run.
  predicate Placed(s: State, r: RunId) {
    // holders exclude each other
    && (r in s.pcs && Holds(s.pcs[r]) <==> s.lock == Some(r))
    && (r in s.died ==> At(s, r, Crashed))
    // while a run is in its body the file names it
    && (At(s, r, Body) || At(s, r, Clearing) ==> s.content == Marker(r))
    // what a holder read is what the file still says
    && (r in s.pcs && (s.pcs[r].Reporting? || s.pcs[r].Taking? || s.pcs[r].Truncating?) ==>
          s.pcs[r].left == LeftBehind(s.content))
    && (r in s.pcs && s.pcs[r].Truncating? && Reports(s, r) ==> These(s.pcs[r].left) <= s.reported)
    && (At(s, r, Writing) ==> s.content == Empty)
    // only a taker has cleared a marker that is not recorded
    && (r in s.pcs && s.pcs[r].Taking? ==> r in s.kinds && s.kinds[r].Taker?)
    && (r in s.pcs && (s.pcs[r].Unlocking? || s.pcs[r].Recording?) && s.pcs[r].left.Some? ==>
          r in s.kinds && s.kinds[r].Taker? && s.pcs[r].left.value in s.takenBy)
  }

  // What became of a run that died in its body.
  predicate Accounted(s: State, r: RunId) {
    && (r in s.journal ==> At(s, r, Crashed)
                           && (s.content == Marker(r) || r in s.reported || r in s.takenBy || r in s.lost))
    && (r in s.takenBy ==> At(s, r, Crashed) && s.content != Marker(r)
                           && (r in s.reported || r in s.lost || IsInHand(s, r)))
  }

  // A taker that has cleared its marker is about to have it recorded.
  predicate IsInHand(s: State, r: RunId) {
    r in s.takenBy && (At(s, s.takenBy[r], Unlocking(Some(r))) || At(s, s.takenBy[r], Recording(Some(r))))
  }

  // The marker in the file and the run that died last.
  ghost predicate Named(s: State) {
    // the file names a dead holder, or the run that is in its body right now
    && (s.content.Marker? ==> s.content.run in s.died || At(s, s.content.run, Body) || At(s, s.content.run, Clearing))
    // a run that died in its body is named until the next holder has read the file
    && (s.unseen.Some? ==>
          s.content == Marker(s.unseen.value) && s.unseen.value in s.died
          && (s.lock.Some? ==> At(s, s.lock.value, Locked)))
  }

  ghost predicate Inv(s: State) {
    && (forall r {:trigger Placed(s, r)} :: Placed(s, r))
    && (forall r {:trigger Accounted(s, r)} :: Accounted(s, r))
    && Named(s)
  }

  predicate Dies(e: Event) { e.Crash? || e.CutShort? }

  // Up to reading the file, and giving a taken marker away: nothing is written.
  predicate OnlyLooks(e: Event) {
    e.Open? || e.TryLock? || e.Refuse? || e.Retry? || e.GiveUp? || e.ReadMarker? || e.Report? || e.LeaveBody?
  }

  predicate Hands(e: Event) { e.ClearTaken? || e.Unlock? || e.Record? }

  lemma PlacedInLife(s: State, e: Event, r: RunId)
    requires Enabled(s, e) && !Dies(e) && Placed(s, r) && Placed(s, e.r)
    ensures Placed(Apply(s, e), r)
  {
    if OnlyLooks(e) {
      PlacedLooking(s, e, r);
    } else {
      PlacedWriting(s, e, r);
    }
  }

  lemma PlacedLooking(s: State, e: Event, r: RunId)
    requires Enabled(s, e) && OnlyLooks(e) && Placed(s, r) && Placed(s, e.r)
    ensures Placed(Apply(s, e), r)
  {
    if e.ReadMarker? || e.Report? || e.LeaveBody? {
      PlacedHolding(s, e, r);
    } else {
      PlacedTrying(s, e, r);
    }
  }

  lemma PlacedHolding(s: State, e: Event, r: RunId)
    requires Enabled(s, e) && (e.ReadMarker? || e.Report? || e.LeaveBody?) && Placed(s, r) && Placed(s, e.r)
    ensures Placed(Apply(s, e), r)
  {
    if e.Report? {
      PlacedReporting(s, e, r);
    } else {
      PlacedReading(s, e, r);
    }
  }

  lemma PlacedReporting(s: State, e: Event, r: RunId)
    requires Enabled(s, e) && e.Report? && Placed(s, r) && Placed(s, e.r)
    ensures Placed(Apply(s, e), r)
  {
  }

  lemma PlacedReading(s: State, e: Event, r: RunId)
    requires Enabled(s, e) && (e.ReadMarker? || e.LeaveBody?) && Placed(s, r) && Placed(s, e.r)
    ensures Placed(Apply(s, e), r)
  {
  }

  lemma PlacedTrying(s: State, e: Event, r: RunId)
    requires Enabled(s, e) && (e.Open? || e.TryLock? || e.Refuse? || e.Retry? || e.GiveUp?) && Placed(s, r)
    requires Placed(s, e.r)
    ensures Placed(Apply(s, e), r)
  {
  }

  lemma PlacedWriting(s: State, e: Event, r: RunId)
    requires Enabled(s, e) && !Dies(e) && !OnlyLooks(e) && Placed(s, r) && Placed(s, e.r)
    ensures Placed(Apply(s, e), r)
  {
    if Hands(e) {
      PlacedInHand(s, e, r);
    } else {
      PlacedInFile(s, e, r);
    }
  }

  lemma PlacedInHand(s: State, e: Event, r: RunId)
    requires Enabled(s, e) && Hands(e) && Placed(s, r) && Placed(s, e.r)
    ensures Placed(Apply(s, e), r)
  {
  }

  lemma PlacedInFile(s: State, e: Event, r: RunId)
    requires Enabled(s, e) && (e.Truncate? || e.Flush? || e.Clear?) && Placed(s, r) && Placed(s, e.r)
    ensures Placed(Apply(s, e), r)
  {
  }

  lemma PlacedInDeath(s: State, e: Event, r: RunId)
    requires Enabled(s, e) && Dies(e) && Placed(s, r) && Placed(s, e.r)
    ensures Placed(Apply(s, e), r)
  {
    if e.Crash? {
      PlacedInCrash(s, e, r);
    } else {
      PlacedCutShort(s, e, r);
    }
  }

  lemma PlacedInCrash(s: State, e: Event, r: RunId)
    requires Enabled(s, e) && e.Crash? && Placed(s, r) && Placed(s, e.r)
    ensures Placed(Apply(s, e), r)
  {
  }

  lemma PlacedCutShort(s: State, e: Event, r: RunId)
    requires Enabled(s, e) && e.CutShort? && Placed(s, r) && Placed(s, e.r)
    ensures Placed(Apply(s, e), r)
  {
  }

  lemma AccountedInLife(s: State, e: Event, r: RunId)
    requires Enabled(s, e) && !Dies(e) && Accounted(s, r) && Placed(s, r) && Placed(s, e.r) && Named(s)
    ensures Accounted(Apply(s, e), r)
  {
    if OnlyLooks(e) {
      AccountedLooking(s, e, r);
    } else if Hands(e) {
      AccountedInHand(s, e, r);
    } else {
      AccountedWriting(s, e, r);
    }
  }

  lemma AccountedLooking(s: State, e: Event, r: RunId)
    requires Enabled(s, e) && OnlyLooks(e) && Accounted(s, r)
    ensures Accounted(Apply(s, e), r)
  {
  }

  lemma AccountedInHand(s: State, e: Event, r: RunId)
    requires Enabled(s, e) && Hands(e) && Accounted(s, r) && Placed(s, r) && Placed(s, e.r) && Named(s)
    ensures Accounted(Apply(s, e), r)
  {
  }

  lemma AccountedWriting(s: State, e: Event, r: RunId)
    requires Enabled(s, e) && !Dies(e) && !OnlyLooks(e) && !Hands(e)
    requires Accounted(s, r) && Placed(s, r) && Placed(s, e.r)
    ensures Accounted(Apply(s, e), r)
  {
  }

  lemma AccountedInDeath(s: State, e: Event, r: RunId)
    requires Enabled(s, e) && Dies(e) && Accounted(s, r) && Placed(s, e.r) && Accounted(s, e.r)
    ensures Accounted(Apply(s, e), r)
  {
  }

  lemma NamedKeeps(s: State, e: Event)
    requires Enabled(s, e) && Named(s) && Placed(s, e.r) && (s.content.Marker? ==> Placed(s, s.content.run))
    ensures Named(Apply(s, e))
  {
  }

  lemma StepKeeps(s: State, e: Event)
    requires Inv(s) && Enabled(s, e)
    ensures Inv(Apply(s, e))
  {
    assert Placed(s, e.r) && Accounted(s, e.r);
    if s.content.Marker? {
      assert Placed(s, s.content.run);
    }
    NamedKeeps(s, e);
    forall r ensures Placed(Apply(s, e), r) && Accounted(Apply(s, e), r) {
      assert Placed(s, r) && Accounted(s, r);
      if Dies(e) {
        PlacedInDeath(s, e, r);
        AccountedInDeath(s, e, r);
      } else {
        PlacedInLife(s, e, r);
        AccountedInLife(s, e, r);
      }
    }
  }

  ghost predicate IsRun(ss: seq<State>, es: seq<Event>) {
    && |ss| == |es| + 1 && ss[0] == INITIAL
    && forall i :: 0 <= i < |es| ==> Enabled(ss[i], es[i]) && ss[i + 1] == Apply(ss[i], es[i])
  }

  lemma {:induction false} RunHolds(ss: seq<State>, es: seq<Event>, i: nat)
    requires IsRun(ss, es) && i < |ss|
    ensures Inv(ss[i])
  {
    if i > 0 {
      RunHolds(ss, es, i - 1);
      assert Enabled(ss[i - 1], es[i - 1]) && ss[i] == Apply(ss[i - 1], es[i - 1]);
      StepKeeps(ss[i - 1], es[i - 1]);
    }
  }

  /** Two runs of a cycle are never inside the lock at once. */
  lemma HoldersExclude(ss: seq<State>, es: seq<Event>, i: nat, q: RunId, r: RunId)
    requires IsRun(ss, es) && i < |ss|
    requires q in ss[i].pcs && Holds(ss[i].pcs[q]) && r in ss[i].pcs && Holds(ss[i].pcs[r])
    ensures q == r
  {
    RunHolds(ss, es, i);
    assert Placed(ss[i], q) && Placed(ss[i], r);
  }

  /**
   Sound: whatever marker a holder finds is that of a run that died holding the lock, never
   of a live run or of one that ended.
   */
  lemma FoundMarkerIsOfADeadRun(ss: seq<State>, es: seq<Event>, i: nat, r: RunId)
    requires IsRun(ss, es) && i < |es| && es[i] == ReadMarker(r)
    ensures var left := LeftBehind(ss[i].content);
            left.Some? ==> left.value != r && left.value in ss[i].died && At(ss[i], left.value, Crashed)
  {
    RunHolds(ss, es, i);
    assert Enabled(ss[i], es[i]);
    assert Placed(ss[i], r);
    if ss[i].content.Marker? {
      assert Placed(ss[i], ss[i].content.run);
    }
  }

  predicate IsRead(e: Event) {
    e.ReadMarker?
  }

  lemma {:induction false} UnseenStays(ss: seq<State>, es: seq<Event>, i: nat, j: nat, r: RunId)
    requires IsRun(ss, es) && i <= j < |ss| && ss[i].unseen == Some(r)
    requires forall k :: i <= k < j ==> !IsRead(es[k])
    ensures ss[j].unseen == Some(r)
  {
    if i < j {
      UnseenStays(ss, es, i, j - 1, r);
      RunHolds(ss, es, j - 1);
      assert Enabled(ss[j - 1], es[j - 1]) && ss[j] == Apply(ss[j - 1], es[j - 1]);
      assert !IsRead(es[j - 1]);
      OnlyReadsSee(ss[j - 1], es[j - 1]);
    }
  }

  lemma OnlyReadsSee(s: State, e: Event)
    requires Inv(s) && Enabled(s, e) && s.unseen.Some? && !IsRead(e)
    ensures Apply(s, e).unseen == s.unseen
  {
    assert Placed(s, e.r);
  }

  /**
   Complete: a run that dies inside its `with` body is what the next taker of the lock reads,
   whether that is another run or `take_unfinished`.
   */
  lemma DeadRunIsSeenNext(ss: seq<State>, es: seq<Event>, i: nat, j: nat, r: RunId)
    requires IsRun(ss, es) && i < j < |es|
    requires es[i] == Crash(r) && At(ss[i], r, Body)
    requires IsRead(es[j]) && forall k :: i < k < j ==> !IsRead(es[k])
    ensures LeftBehind(ss[j].content) == Some(r)
  {
    RunHolds(ss, es, i);
    assert Enabled(ss[i], es[i]) && ss[i + 1] == Apply(ss[i], es[i]);
    assert Placed(ss[i], r);
    UnseenStays(ss, es, i + 1, j, r);
    RunHolds(ss, es, j);
  }

  /** A marker that could not be reported is found again by the next taker. */
  lemma UnreportedMarkerStays(s: State, r: RunId)
    requires Inv(s) && Enabled(s, Report(r, true)) && s.pcs[r].left.Some?
    ensures var t := Apply(s, Report(r, true));
            Enabled(t, Unlock(r)) && LeftBehind(Apply(t, Unlock(r)).content) == s.pcs[r].left
  {
    assert Placed(s, r);
  }

  // ---- what becomes of a run that died in its body ----

  lemma {:induction false} JournalStays(ss: seq<State>, es: seq<Event>, i: nat, j: nat, r: RunId)
    requires IsRun(ss, es) && i <= j < |ss| && r in ss[i].journal
    ensures r in ss[j].journal
  {
    if i < j {
      JournalStays(ss, es, i, j - 1, r);
      assert Enabled(ss[j - 1], es[j - 1]) && ss[j] == Apply(ss[j - 1], es[j - 1]);
    }
  }

  /**
   At every moment after a run died in its body its marker is in the file, or it was reported
   at least once, or a taker that cleared the marker is about to have it recorded, or the
   marker was cleared and then not reported.
   */
  lemma DeadRunIsAccountedFor(ss: seq<State>, es: seq<Event>, i: nat, j: nat, r: RunId)
    requires IsRun(ss, es) && i < j < |ss| && es[i] == Crash(r) && At(ss[i], r, Body)
    ensures || ss[j].content == Marker(r) || r in ss[j].reported || IsInHand(ss[j], r) || r in ss[j].lost
  {
    RunHolds(ss, es, i);
    assert Enabled(ss[i], es[i]) && ss[i + 1] == Apply(ss[i], es[i]) && Placed(ss[i], r);
    JournalStays(ss, es, i + 1, j, r);
    RunHolds(ss, es, j);
    assert Accounted(ss[j], r);
  }

  // A taker that cleared r's marker dies before r is recorded.
  predicate TakerDies(s: State, e: Event, r: RunId) {
    && e.Crash? && e.r in s.kinds && s.kinds[e.r].Taker? && s.content != Marker(r)
    && (At(s, e.r, Unlocking(Some(r))) || At(s, e.r, Recording(Some(r))))
  }

  // A run that reports nothing clears r's marker to write its own.
  predicate Overwrites(s: State, e: Event, r: RunId) {
    e.Truncate? && !Reports(s, e.r) && s.content == Marker(r) && s.lock == Some(e.r)
  }

  /** There are exactly two ways to lose a run. */
  lemma LostExactly(ss: seq<State>, es: seq<Event>, j: nat, r: RunId)
    requires IsRun(ss, es) && j < |es| && r !in ss[j].lost
    ensures r in ss[j + 1].lost <==> TakerDies(ss[j], es[j], r) || Overwrites(ss[j], es[j], r)
  {
    RunHolds(ss, es, j);
    assert Enabled(ss[j], es[j]) && ss[j + 1] == Apply(ss[j], es[j]);
    LosingStep(ss[j], es[j], r);
  }

  lemma LosingStep(s: State, e: Event, r: RunId)
    requires Inv(s) && Enabled(s, e) && r !in s.lost
    ensures r in Apply(s, e).lost <==> TakerDies(s, e, r) || Overwrites(s, e, r)
  {
    assert Placed(s, e.r) && Accounted(s, r);
  }

  // ---- a schedule that loses one ----

  // From s the events lead to t.
  ghost predicate Leads(s: State, es: seq<Event>, t: State)
    decreases |es|
  {
    if es == [] then s == t else Enabled(s, es[0]) && Leads(Apply(s, es[0]), es[1..], t)
  }

  ghost predicate Reaches(s: State, t: State) {
    exists es :: Leads(s, es, t)
  }

  lemma Self(s: State)
    ensures Reaches(s, s)
  {
    assert Leads(s, [], s);
  }

  lemma Step(s: State, t: State, e: Event)
    requires Reaches(s, t) && Enabled(t, e)
    ensures Reaches(s, Apply(t, e))
  {
    var es :| Leads(s, es, t);
    LeadsOn(s, es, t, [e], Apply(t, e));
  }

  lemma Further(s: State, t: State, u: State)
    requires Reaches(s, t) && Reaches(t, u)
    ensures Reaches(s, u)
  {
    var es :| Leads(s, es, t);
    var fs :| Leads(t, fs, u);
    LeadsOn(s, es, t, fs, u);
  }

  lemma {:induction false} LeadsOn(s: State, es: seq<Event>, t: State, fs: seq<Event>, u: State)
    requires Leads(s, es, t) && Leads(t, fs, u)
    ensures Leads(s, es + fs, u)
    decreases |es|
  {
    if es == [] {
      assert es + fs == fs;
    } else {
      assert (es + fs)[0] == es[0] && (es + fs)[1..] == es[1..] + fs;
      LeadsOn(Apply(s, es[0]), es[1..], t, fs, u);
    }
  }

  // A run or taker r that has the lock and read the file.
  function HasRead(s: State, r: RunId, kind: Kind): State {
    var left := LeftBehind(s.content);
    s.(pcs := s.pcs[r := if kind.Taker? then Taking(left) else Reporting(left)], kinds := s.kinds[r := kind],
       lock := Some(r), unseen := None)
  }

  lemma Reads(s: State, r: RunId, kind: Kind)
    requires r !in s.pcs && s.lock.None?
    ensures Reaches(s, HasRead(s, r, kind))
  {
    var s1 := s.(pcs := s.pcs[r := Trying], kinds := s.kinds[r := kind]);
    var s2 := s1.(pcs := s1.pcs[r := Locked], lock := Some(r));
    Self(s);
    Step(s, s, Open(r, kind));
    Step(s, s1, TryLock(r));
    Step(s, s2, ReadMarker(r));
    assert s2.pcs[r := Trying] == s1.pcs && Apply(s2, ReadMarker(r)).pcs == HasRead(s, r, kind).pcs;
  }

  // From there to the body, and the crash in it.
  lemma WritesAndDies(s: State, r: RunId) returns (t: State)
    requires At(s, r, Reporting(None)) && s.lock == Some(r)
    ensures Reaches(s, t) && t.content == Marker(r) && t.lock == None && t.journal == s.journal + {r}
    ensures t.reported == s.reported && t.lost == s.lost && t.pcs.Keys == s.pcs.Keys
  {
    var s1 := Goto(s, r, Truncating(None));
    var s2 := Goto(s, r, Writing).(content := Empty);
    var s3 := Goto(s, r, Body).(content := Marker(r));
    Self(s);
    assert s.reported + {} == s.reported && s.lost + {} == s.lost;
    Step(s, s, Report(r, false));
    assert s1.pcs[r := Writing] == s2.pcs && s2.pcs[r := Body] == s3.pcs;
    Step(s, s1, Truncate(r));
    Step(s, s2, Flush(r));
    t := Apply(s3, Crash(r));
    Step(s, s3, Crash(r));
  }

  lemma ClearsAndDies(s: State, t: RunId, r: RunId) returns (u: State)
    requires At(s, t, Taking(Some(r))) && s.lock == Some(t) && t in s.kinds && s.kinds[t].Taker?
    ensures Reaches(s, u) && u.content == Empty && r in u.lost && u.journal == s.journal && u.reported == s.reported
  {
    var s1 := Goto(s, t, Unlocking(Some(r))).(content := Empty, takenBy := s.takenBy[r := t]);
    var s2 := Goto(s, t, Recording(Some(r))).(content := Empty, takenBy := s.takenBy[r := t], lock := None);
    Self(s);
    Step(s, s, ClearTaken(t));
    assert s1.pcs[t := Recording(Some(r))] == s2.pcs;
    Step(s, s1, Unlock(t));
    u := Apply(s2, Crash(t));
    Step(s, s2, Crash(t));
  }

  /** The taker clears the marker before the run is recorded; a crash in between, and nobody hears of the run. */
  lemma TakerLosesRun(r: RunId, t: RunId) returns (u: State)
    requires r != t
    ensures Reaches(INITIAL, u)
    ensures r in u.journal && r in u.lost && r !in u.reported && u.content == Empty
  {
    var s1 := HasRead(INITIAL, r, CycleRun(true));
    Reads(INITIAL, r, CycleRun(true));
    var s2 := WritesAndDies(s1, r);
    Reads(s2, t, Taker);
    var s3 := HasRead(s2, t, Taker);
    u := ClearsAndDies(s3, t, r);
    Further(INITIAL, s1, s2);
    Further(INITIAL, s2, s3);
    Further(INITIAL, s3, u);
  }

  // A run that reports nothing writes its own marker and ends.
  lemma OverwritesSilently(s: State, t: RunId, r: RunId) returns (u: State)
    requires At(s, t, Reporting(Some(r))) && s.lock == Some(t) && t in s.kinds && s.kinds[t] == CycleRun(false)
    ensures Reaches(s, u) && u.content == Marker(t) && r in u.lost && u.journal == s.journal && u.reported == s.reported
  {
    var s1 := Goto(s, t, Truncating(Some(r)));
    var s2 := Goto(s, t, Writing).(content := Empty, lost := s.lost + {r});
    Self(s);
    Step(s, s, Report(t, false));
    assert s1.pcs[t := Writing] == s2.pcs;
    Step(s, s1, Truncate(t));
    u := Apply(s2, Flush(t));
    Step(s, s2, Flush(t));
  }

  /** A run without an `on_unfinished` overwrites the marker of a dead run, and nobody hears of it. */
  lemma SilentRunLosesRun(r: RunId, t: RunId) returns (u: State)
    requires r != t
    ensures Reaches(INITIAL, u)
    ensures r in u.journal && r in u.lost && r !in u.reported && u.content == Marker(t)
  {
    var s1 := HasRead(INITIAL, r, CycleRun(true));
    Reads(INITIAL, r, CycleRun(true));
    var s2 := WritesAndDies(s1, r);
    Reads(s2, t, CycleRun(false));
    var s3 := HasRead(s2, t, CycleRun(false));
    u := OverwritesSilently(s3, t, r);
    Further(INITIAL, s1, s2);
    Further(INITIAL, s2, s3);
    Further(INITIAL, s3, u);
  }

  // ---- nobody waits for ever ----

  // How many steps of its own the holder of the lock has left, at most.
  function HolderSteps(pc: Pc): nat {
    match pc
    case Locked => 7
    case Reporting(_) => 6
    case Truncating(_) => 5
    case Writing => 4
    case Body => 3
    case Clearing | Taking(_) => 2
    case Unlocking(_) => 1
    case _ => 0
  }

  // One step of r, and of nobody else.
  predicate Moves(s: State, t: State, r: RunId) {
    r in s.pcs && t.pcs.Keys == s.pcs.Keys && (forall q <- s.pcs :: q != r ==> t.pcs[q] == s.pcs[q]) && t.kinds == s.kinds
  }

  /** Whoever holds the lock has a step that brings it nearer to its release, and the last one releases it. */
  lemma HolderGoesOn(s: State, h: RunId) returns (e: Event)
    requires Placed(s, h) && s.lock == Some(h)
    ensures Enabled(s, e) && e.r == h && !Dies(e) && Moves(s, Apply(s, e), h)
    ensures if HolderSteps(s.pcs[h]) > 1
            then Apply(s, e).lock == Some(h) && HolderSteps(Apply(s, e).pcs[h]) < HolderSteps(s.pcs[h])
            else Apply(s, e).lock == None
  {
    match s.pcs[h]
    case Locked => e := ReadMarker(h);
    case Reporting(_) => e := Report(h, false);
    case Truncating(_) => e := Truncate(h);
    case Writing => e := Flush(h);
    case Body => e := LeaveBody(h);
    case Clearing => e := Clear(h);
    case Taking(_) => e := ClearTaken(h);
    case Unlocking(_) => e := Unlock(h);
  }

  lemma {:induction false} HolderReleases(s: State) returns (t: State)
    requires Inv(s) && s.lock.Some?
    ensures Reaches(s, t) && Inv(t) && t.lock == None && Moves(s, t, s.lock.value)
    decreases var h := s.lock.value; if h in s.pcs then HolderSteps(s.pcs[h]) else 0
  {
    var h := s.lock.value;
    assert Placed(s, h);
    var e := HolderGoesOn(s, h);
    t := Apply(s, e);
    StepKeeps(s, e);
    Self(s);
    Step(s, s, e);
    if t.lock.Some? {
      var u := t;
      t := HolderReleases(u);
      Further(s, u, t);
    }
  }

  /**
   A run that found the lock held can always still get it: the holder releases it in its own
   steps, and the run polls again. A `take_unfinished` that found it held gives up instead, and
   so can a run whose time is over.
   */
  lemma WaiterGetsIn(s: State, r: RunId) returns (t: State)
    requires Inv(s) && At(s, r, Refused)
    ensures Enabled(s, GiveUp(r)) && At(Apply(s, GiveUp(r)), r, Ended)
    ensures Enabled(s, Retry(r)) <==> !(r in s.kinds && s.kinds[r].Taker?)
    ensures Enabled(s, Retry(r)) ==> Reaches(s, t) && At(t, r, Locked) && t.lock == Some(r)
  {
    t := s;
    Self(s);
    if s.lock.Some? {
      assert Placed(s, r);
      t := HolderReleases(s);
    }
    if Enabled(s, Retry(r)) {
      Step(s, t, Retry(r));
      var u := Apply(t, Retry(r));
      Step(s, u, TryLock(r));
      t := Apply(u, TryLock(r));
    }
  }

  /** Trying the lock gets it exactly when nobody holds it, and a crash frees it. */
  lemma TryingIsExact(s: State, r: RunId)
    requires Inv(s) && At(s, r, Trying)
    ensures Enabled(s, TryLock(r)) <==> forall q <- s.pcs :: !Holds(s.pcs[q])
    ensures Enabled(s, Refuse(r)) <==> exists q :: q in s.pcs && Holds(s.pcs[q])
    ensures Enabled(s, TryLock(r)) ==> At(Apply(s, TryLock(r)), r, Locked) && Apply(s, TryLock(r)).lock == Some(r)
    ensures Enabled(s, Refuse(r)) ==> Apply(s, Refuse(r)) == s.(pcs := s.pcs[r := Refused])
    ensures forall q :: q in s.pcs && Holds(s.pcs[q]) ==> Enabled(s, Crash(q)) && Apply(s, Crash(q)).lock == None
  {
    forall q ensures q in s.pcs && Holds(s.pcs[q]) <==> s.lock == Some(q) {
      assert Placed(s, q);
    }
  }

  /** A run that dies while it writes its marker is not found, by whoever reads the file next. */
  lemma CutShortIsNotFound(s: State, r: RunId)
    requires Inv(s) && Enabled(s, CutShort(r))
    ensures var t := Apply(s, CutShort(r));
            At(t, r, Crashed) && t.lock == None && t.content == Partial && LeftBehind(t.content) == None
            && (r in t.journal <==> r in s.journal)
  {
    assert Placed(s, r);
  }

  /** A taker that has cleared a marker hands it to its caller, which records it and ends. */
  lemma TakerRecords(s: State, r: RunId)
    requires Inv(s) && r in s.pcs && s.pcs[r].Recording?
    ensures Enabled(s, Record(r)) && At(Apply(s, Record(r)), r, Ended)
    ensures s.pcs[r].left.Some? ==> s.pcs[r].left.value in Apply(s, Record(r)).reported
  {
  }

  // Past its body: the file does not name it, and it will never be one that died in its body.
  predicate Past(s: State, r: RunId) {
    && s.content != Marker(r) && r !in s.journal && r in s.pcs
    && (s.pcs[r].Unlocking? || s.pcs[r].Ended? || s.pcs[r].Crashed? || s.pcs[r].Recording?)
  }

  /** A run that left its body and cleared the file leaves nothing behind, whatever becomes of it. */
  lemma EndedRunLeavesNothing(ss: seq<State>, es: seq<Event>, i: nat, j: nat, r: RunId)
    requires IsRun(ss, es) && i < j < |ss| && es[i] == Clear(r)
    ensures Past(ss[j], r)
  {
    assert Enabled(ss[i], es[i]) && ss[i + 1] == Apply(ss[i], es[i]);
    RunHolds(ss, es, i);
    ClearsToPast(ss[i], r);
    PastLater(ss, es, i + 1, j, r);
  }

  lemma {:induction false} PastLater(ss: seq<State>, es: seq<Event>, i: nat, j: nat, r: RunId)
    requires IsRun(ss, es) && i <= j < |ss| && Past(ss[i], r)
    ensures Past(ss[j], r)
  {
    if i < j {
      PastLater(ss, es, i, j - 1, r);
      PastNext(ss, es, j - 1, r);
    }
  }

  lemma PastNext(ss: seq<State>, es: seq<Event>, i: nat, r: RunId)
    requires IsRun(ss, es) && i < |es| && Past(ss[i], r)
    ensures Past(ss[i + 1], r)
  {
    PastStays(ss[i], es[i], r);
  }

  lemma ClearsToPast(s: State, r: RunId)
    requires Inv(s) && Enabled(s, Clear(r))
    ensures Past(Apply(s, Clear(r)), r)
  {
    assert Placed(s, r) && Accounted(s, r);
  }

  lemma PastStays(s: State, e: Event, r: RunId)
    requires Past(s, r) && Enabled(s, e)
    ensures Past(Apply(s, e), r)
  {
    if Dies(e) {
      PastDeaths(s, e, r);
    } else if OnlyLooks(e) {
      PastLooks(s, e, r);
    } else {
      PastWrites(s, e, r);
    }
  }

  lemma PastDeaths(s: State, e: Event, r: RunId)
    requires Past(s, r) && Enabled(s, e) && Dies(e)
    ensures Past(Apply(s, e), r)
  {
  }

  lemma PastLooks(s: State, e: Event, r: RunId)
    requires Past(s, r) && Enabled(s, e) && OnlyLooks(e)
    ensures Past(Apply(s, e), r)
  {
  }

  lemma PastWrites(s: State, e: Event, r: RunId)
    requires Past(s, r) && Enabled(s, e) && !Dies(e) && !OnlyLooks(e)
    ensures Past(Apply(s, e), r)
  {
  }
}
