/**
 Folding the results of a report that lists the same test more than once: one result per
 test, at the place of its first one.
 */
module FoldAttempts {
  import opened Wrappers
  import GoTest

  // Identifiers and texts: nothing here looks inside them.
  type Text = Token<string>

  // `Other` is any status the ranking does not know.
  datatype Status = Failed | Broken | Passed | Skipped | Other(text: Text)

  // The status details; an absent message or trace is the empty text.
  datatype Details = Details(flaky: bool, message: Text, trace: Text)

  // `body` is what folding never looks at: name, labels, ...
  datatype TestResult = TestResult(id: Text, uuid: Text, status: Status, start: Option<int>, stop: Option<int>,
                           details: Details, body: Text)

  // The message of a result that passed on rerun, made from the first failure's.
  type Note = Text -> Text

  function Rank(status: Status): nat {
    match status
    case Failed => 0
    case Broken => 1
    case Passed => 2
    case Skipped => 3
    case Other(_) => 2
  }

  predicate IsProblem(r: TestResult) {
    r.status.Failed? || r.status.Broken?
  }

  // `int(t or 0)`
  function Millis(t: Option<int>): int {
    if t.Some? then t.value else 0
  }

  // ---- one test's attempts ----

  // `min(attempts, key=rank)`: the first of the worst ones.
  function Worst(attempts: seq<TestResult>): (r: TestResult)
    requires attempts != []
    ensures exists i :: 0 <= i < |attempts| && r == attempts[i]
                        && (forall j :: 0 <= j < |attempts| ==> Rank(r.status) <= Rank(attempts[j].status))
                        && (forall j :: 0 <= j < i ==> Rank(r.status) < Rank(attempts[j].status))
  {
    if |attempts| == 1 then attempts[0]
    else
      var best := Worst(attempts[..|attempts| - 1]);
      if Rank(attempts[|attempts| - 1].status) < Rank(best.status) then attempts[|attempts| - 1] else best
  }

  function FirstProblem(attempts: seq<TestResult>): (r: Option<TestResult>)
    ensures r.None? ==> forall a :: a in attempts ==> !IsProblem(a)
    ensures r.Some? ==> exists i :: 0 <= i < |attempts| && r.value == attempts[i] && IsProblem(r.value)
                                    && forall j :: 0 <= j < i ==> !IsProblem(attempts[j])
  {
    if attempts == [] then None
    else if IsProblem(attempts[0]) then Some(attempts[0])
    else
      var r := FirstProblem(attempts[1..]);
      assert r.Some? ==> forall i :: 0 <= i < |attempts[1..]| ==> attempts[1..][i] == attempts[i + 1];
      r
  }

  function Earliest(attempts: seq<TestResult>): (t: int)
    requires attempts != []
    ensures exists a :: a in attempts && t == Millis(a.start)
    ensures forall a :: a in attempts ==> t <= Millis(a.start)
  {
    var first := Millis(attempts[0].start);
    if |attempts| == 1 then first
    else
      var rest := Earliest(attempts[1..]);
      if rest < first then rest else first
  }

  function Latest(attempts: seq<TestResult>): (t: int)
    requires attempts != []
    ensures exists a :: a in attempts && t == Millis(a.stop)
    ensures forall a :: a in attempts ==> t >= Millis(a.stop)
  {
    var first := Millis(attempts[0].stop);
    if |attempts| == 1 then first
    else
      var rest := Latest(attempts[1..]);
      if rest > first then rest else first
  }

  function Pick(note: Note, attempts: seq<TestResult>): TestResult
    requires attempts != []
  {
    var problem, last := FirstProblem(attempts), attempts[|attempts| - 1];
    if problem.Some? && last.status.Passed? then
      var first := problem.value.details;
      last.(details := Details(true, note(first.message), first.trace))
    else
      Worst(attempts)
  }

  function Merge(note: Note, attempts: seq<TestResult>): TestResult
    requires attempts != []
  {
    if |attempts| == 1 then attempts[0]
    else
      Pick(note, attempts).(start := Some(Earliest(attempts)), stop := Some(Latest(attempts)),
                            uuid := attempts[0].uuid)
  }

  // ---- the whole list ----

  function Group(results: seq<TestResult>, id: Text): (g: seq<TestResult>)
    ensures forall a :: a in g <==> a in results && a.id == id
    ensures |g| <= |results|
  {
    if results == [] then []
    else
      var front, last := results[..|results| - 1], results[|results| - 1];
      Group(front, id) + if last.id == id then [last] else []
  }

  predicate Seen(results: seq<TestResult>, id: Text) {
    exists a :: a in results && a.id == id
  }

  // One result for each of the first `n` that is the first of its test.
  function Fold(note: Note, results: seq<TestResult>, n: nat): seq<TestResult>
    requires n <= |results|
  {
    if n == 0 then []
    else
      var id := results[n - 1].id;
      Fold(note, results, n - 1)
      + if Seen(results[..n - 1], id) then [] else [Merge(note, Group(results, id))]
  }

  function Folded(note: Note, results: seq<TestResult>): seq<TestResult> {
    Fold(note, results, |results|)
  }

  lemma NextResult(results: seq<TestResult>, i: nat, id: Text)
    requires i < |results|
    ensures Seen(results[..i + 1], id) <==> Seen(results[..i], id) || id == results[i].id
    ensures Group(results[..i + 1], id) == Group(results[..i], id) + if id == results[i].id then [results[i]] else []
    ensures !Seen(results[..i], id) ==> Group(results[..i], id) == []
  {
    var before, r := results[..i], results[i];
    assert results[..i + 1] == before + [r] && results[..i + 1][..i] == before;
    if Seen(before, id) {
      var a :| a in before && a.id == id;
      assert a in results[..i + 1];
    } else if Group(before, id) != [] {
      assert Group(before, id)[0] in Group(before, id);
    }
    if id == r.id {
      assert r in results[..i + 1];
    }
  }

  ghost predicate IsGroups(groups: map<Text, seq<TestResult>>, results: seq<TestResult>) {
    forall id :: (id in groups <==> Seen(results, id)) && (id in groups ==> groups[id] == Group(results, id))
  }

  // `groups.setdefault(id, []).append(r)`
  function Added(groups: map<Text, seq<TestResult>>, r: TestResult): map<Text, seq<TestResult>> {
    groups[r.id := (if r.id in groups then groups[r.id] else []) + [r]]
  }

  lemma OneMoreInGroups(groups: map<Text, seq<TestResult>>, results: seq<TestResult>, i: nat)
    requires i < |results| && IsGroups(groups, results[..i])
    ensures IsGroups(Added(groups, results[i]), results[..i + 1])
  {
    var r, before, after := results[i], results[..i], results[..i + 1];
    var grown := Added(groups, r);
    forall id ensures (id in grown <==> Seen(after, id)) && (id in grown ==> grown[id] == Group(after, id)) {
      NextResult(results, i, id);
      assert id in groups <==> Seen(before, id);
    }
  }

  method Groups(results: seq<TestResult>) returns (groups: map<Text, seq<TestResult>>)
    ensures IsGroups(groups, results)
  {
    groups := map[];
    ghost var grouped: seq<TestResult> := [];
    NoGroups();
    var i := 0;
    while i < |results|
      invariant 0 <= i <= |results| && grouped == results[..i] && IsGroups(groups, grouped)
    {
      OneMoreInGroups(groups, results, i);
      groups := Added(groups, results[i]);
      grouped := results[..i + 1];
      i := i + 1;
    }
    assert grouped == results;
  }

  lemma NoGroups()
    ensures IsGroups(map[], [])
  {
  }

  // The groups whose first result is still to come.
  ghost predicate IsLeft(groups: map<Text, seq<TestResult>>, results: seq<TestResult>, i: nat)
    requires i <= |results|
  {
    forall id :: (id in groups <==> Seen(results, id) && !Seen(results[..i], id))
                 && (id in groups ==> groups[id] == Group(results, id))
  }

  lemma OneLeftLess(groups: map<Text, seq<TestResult>>, results: seq<TestResult>, i: nat, k: Text)
    requires i < |results| && IsLeft(groups, results, i)
    ensures k in groups - {results[i].id} <==> Seen(results, k) && !Seen(results[..i + 1], k)
  {
    NextResult(results, i, k);
    assert k in groups <==> Seen(results, k) && !Seen(results[..i], k);
  }

  method TakeGroup(note: Note, groups: map<Text, seq<TestResult>>, results: seq<TestResult>, i: nat)
    returns (left: map<Text, seq<TestResult>>, more: seq<TestResult>)
    requires i < |results| && IsLeft(groups, results, i)
    ensures IsLeft(left, results, i + 1)
    ensures Fold(note, results, i + 1) == Fold(note, results, i) + more
  {
    var id := results[i].id;
    assert results[i] in results && results[i] in Group(results, id);
    if id in groups {
      more := [Merge(note, groups[id])];
    } else {
      more := [];
    }
    left := groups - {id};
    forall k
      ensures (k in left <==> Seen(results, k) && !Seen(results[..i + 1], k)) && (k in left ==> left[k] == Group(results, k))
    {
      OneLeftLess(groups, results, i, k);
    }
  }

  method FoldAttempts(note: Note, results: seq<TestResult>) returns (folded: seq<TestResult>)
    ensures folded == Folded(note, results)
  {
    var groups := Groups(results);
    folded := [];
    var i := 0;
    while i < |results|
      invariant 0 <= i <= |results| && folded == Fold(note, results, i)
      invariant IsLeft(groups, results, i)
    {
      var more;
      groups, more := TakeGroup(note, groups, results, i);
      folded := folded + more;
      i := i + 1;
    }
  }

  // ---- what folding promises ----

  // The tests in order of first appearance.
  function Ids(results: seq<TestResult>): seq<Text> {
    if results == [] then []
    else
      var front, last := results[..|results| - 1], results[|results| - 1];
      Ids(front) + if Seen(front, last.id) then [] else [last.id]
  }

  function IdsOf(results: seq<TestResult>): seq<Text> {
    seq(|results|, i requires 0 <= i < |results| => results[i].id)
  }

  lemma MergeId(note: Note, attempts: seq<TestResult>, id: Text)
    requires attempts != [] && forall a :: a in attempts ==> a.id == id
    ensures Merge(note, attempts).id == id
  {
  }

  /** Exactly one result per test, in order of first appearance, and no other. */
  lemma {:induction false} OnePerTest(note: Note, results: seq<TestResult>, n: nat)
    requires n <= |results|
    ensures IdsOf(Fold(note, results, n)) == Ids(results[..n])
  {
    if n > 0 {
      OnePerTest(note, results, n - 1);
      assert results[..n][..n - 1] == results[..n - 1];
      FirstHasGroup(note, results, n - 1);
    }
  }

  lemma FirstHasGroup(note: Note, results: seq<TestResult>, i: nat)
    requires i < |results|
    ensures var g := Group(results, results[i].id); g != [] && Merge(note, g).id == results[i].id
  {
    var g := Group(results, results[i].id);
    assert results[i] in g;
    MergeId(note, g, results[i].id);
  }

  lemma {:induction false} IdsAre(results: seq<TestResult>)
    ensures Distinct(Ids(results)) && forall id :: id in Ids(results) <==> Seen(results, id)
  {
    if results != [] {
      var n := |results| - 1;
      IdsAre(results[..n]);
      assert results[..n + 1] == results;
      forall id ensures id in Ids(results) <==> Seen(results, id) {
        NextResult(results, n, id);
      }
    }
  }

  lemma DifferentIds(results: seq<TestResult>, i: nat, j: nat)
    requires i < j < |results| && Distinct(IdsOf(results))
    ensures results[i].id != results[j].id
  {
    assert IdsOf(results)[i] != IdsOf(results)[j];
  }

  /** A list with one result per test is left as it is. */
  lemma {:induction false} NothingToFold(note: Note, results: seq<TestResult>, n: nat)
    requires n <= |results| && Distinct(IdsOf(results))
    ensures Fold(note, results, n) == results[..n]
  {
    if n > 0 {
      NothingToFold(note, results, n - 1);
      KeepsAsIs(note, results, n - 1);
      OneMore(results, n - 1, Fold(note, results, n - 1));
    }
  }

  lemma KeepsAsIs(note: Note, results: seq<TestResult>, n: nat)
    requires n < |results| && Distinct(IdsOf(results))
    ensures Fold(note, results, n + 1) == Fold(note, results, n) + [results[n]]
  {
    NotSeenBefore(results, n);
    AloneInGroup(results, n);
  }

  lemma NotSeenBefore(results: seq<TestResult>, n: nat)
    requires n < |results| && Distinct(IdsOf(results))
    ensures !Seen(results[..n], results[n].id)
  {
    if i :| 0 <= i < n && results[..n][i].id == results[n].id {
      DifferentIds(results, i, n);
    }
  }

  lemma {:induction false} AloneInGroup(results: seq<TestResult>, n: nat)
    requires n < |results| && Distinct(IdsOf(results))
    ensures Group(results, results[n].id) == [results[n]]
    decreases |results|
  {
    var last := |results| - 1;
    if n < last {
      FrontDifferent(results);
      AloneInGroup(results[..last], n);
      DifferentIds(results, n, last);
    } else {
      NotSeenBefore(results, n);
      NextResult(results, n, results[n].id);
      assert results[..n + 1] == results;
    }
  }

  lemma FrontDifferent(results: seq<TestResult>)
    requires results != [] && Distinct(IdsOf(results))
    ensures Distinct(IdsOf(results[..|results| - 1]))
  {
    var front := results[..|results| - 1];
    forall i, j | 0 <= i < j < |front| ensures IdsOf(front)[i] != IdsOf(front)[j] {
      DifferentIds(results, i, j);
    }
  }

  /** Folding twice is folding once. */
  lemma FoldingIsIdempotent(note: Note, results: seq<TestResult>)
    ensures Folded(note, Folded(note, results)) == Folded(note, results)
  {
    var folded := Folded(note, results);
    OnePerTest(note, results, |results|);
    IdsAre(results);
    assert results[..|results|] == results;
    NothingToFold(note, folded, |folded|);
  }

  /** What stands for a test is made from all its attempts and from nothing else. */
  lemma {:induction false} EachIsItsGroup(note: Note, results: seq<TestResult>, n: nat, r: TestResult)
    requires n <= |results| && r in Fold(note, results, n)
    ensures Group(results, r.id) != [] && r == Merge(note, Group(results, r.id))
  {
    var first := results[n - 1];
    if r in Fold(note, results, n - 1) {
      EachIsItsGroup(note, results, n - 1, r);
    } else {
      assert first in Group(results, first.id);
      MergeId(note, Group(results, first.id), first.id);
    }
  }

  /** The result of a test that ran once is that run; of one that ran more, it spans all its runs. */
  lemma SpansItsAttempts(note: Note, results: seq<TestResult>, r: TestResult)
    requires r in Folded(note, results)
    ensures var g := Group(results, r.id);
            && (|g| == 1 ==> r == g[0])
            && (|g| > 1 ==> r.uuid == g[0].uuid
                            && (exists a :: a in g && r.start == Some(if a.start.Some? then a.start.value else 0))
                            && (exists a :: a in g && r.stop == Some(if a.stop.Some? then a.stop.value else 0))
                            && forall a :: a in g ==>
                                 && r.start.Some? && r.start.value <= (if a.start.Some? then a.start.value else 0)
                                 && r.stop.Some? && r.stop.value >= if a.stop.Some? then a.stop.value else 0)
  {
    EachIsItsGroup(note, results, |results|, r);
    var g := Group(results, r.id);
    if |g| > 1 {
      var a :| a in g && Earliest(g) == Millis(a.start);
      var b :| b in g && Latest(g) == Millis(b.stop);
    }
  }

  /** A failure followed by a final pass is passed and flaky, with what the first failure said. */
  lemma RerunTellsFirstFailure(note: Note, attempts: seq<TestResult>, i: nat)
    requires |attempts| > 1 && attempts[|attempts| - 1].status == Passed
    requires i < |attempts| && (attempts[i].status == Failed || attempts[i].status == Broken)
    requires forall j :: 0 <= j < i ==> attempts[j].status != Failed && attempts[j].status != Broken
    ensures var r, last := Merge(note, attempts), attempts[|attempts| - 1];
            && r.status == Passed && r.body == last.body && r.id == last.id
            && r.details == Details(true, note(attempts[i].details.message), attempts[i].details.trace)
  {
    assert attempts[i] in attempts;
  }

  // Failed, then broken, then passed or of an unknown status, then skipped.
  predicate AtLeastAsBad(a: Status, b: Status) {
    match a
    case Failed => true
    case Broken => b != Failed
    case Passed => b != Failed && b != Broken
    case Other(_) => b != Failed && b != Broken
    case Skipped => b == Skipped
  }

  /** Otherwise the first of the worst attempts gives the status and the details. */
  lemma WorstAttemptWins(note: Note, attempts: seq<TestResult>, w: nat)
    requires |attempts| > 1 && w < |attempts|
    requires attempts[|attempts| - 1].status != Passed
             || forall a :: a in attempts ==> a.status != Failed && a.status != Broken
    requires forall j :: 0 <= j < |attempts| ==> AtLeastAsBad(attempts[w].status, attempts[j].status)
    requires forall j :: 0 <= j < w ==> !AtLeastAsBad(attempts[j].status, attempts[w].status)
    ensures var r := Merge(note, attempts);
            r.status == attempts[w].status && r.details == attempts[w].details && r.body == attempts[w].body
            && r.id == attempts[w].id
  {
    var worst := Worst(attempts);
    var i :| 0 <= i < |attempts| && worst == attempts[i]
             && (forall j :: 0 <= j < |attempts| ==> Rank(worst.status) <= Rank(attempts[j].status))
             && (forall j :: 0 <= j < i ==> Rank(worst.status) < Rank(attempts[j].status));
    assert AtLeastAsBad(attempts[w].status, worst.status) && Rank(worst.status) <= Rank(attempts[w].status);
    assert i == w;
  }

  // ---- against the verdict on a Go test that ran more than once ----

  function StatusOf(action: GoTest.Action): Status {
    match action
    case Pass => Passed
    case Fail => Failed
    case Skip => Skipped
  }

  // These attempts are those runs, as an importer would write them.
  predicate AreRuns(attempts: seq<TestResult>, runs: seq<GoTest.Action>) {
    |attempts| == |runs|
    && forall i :: 0 <= i < |runs| ==> attempts[i].status == StatusOf(runs[i]) && !attempts[i].details.flaky
  }

  lemma ProblemIsFail(attempts: seq<TestResult>, runs: seq<GoTest.Action>)
    requires AreRuns(attempts, runs)
    ensures FirstProblem(attempts).Some? <==> GoTest.Action.Fail in runs
  {
    if i :| 0 <= i < |runs| && runs[i].Fail? {
      assert attempts[i] in attempts && IsProblem(attempts[i]);
    }
  }

  lemma WorstIsWorstRun(attempts: seq<TestResult>, runs: seq<GoTest.Action>)
    requires runs != [] && AreRuns(attempts, runs)
    ensures var fail, pass := GoTest.Action.Fail in runs, GoTest.Action.Pass in runs;
            Worst(attempts).status == if fail then Failed else if pass then Passed else Skipped
    ensures !Worst(attempts).details.flaky
  {
  }

  /** Folding reaches the same status and flaky verdict as the `go test` import does on the same runs. */
  lemma AgreesWithGoTest(note: Note, attempts: seq<TestResult>, runs: seq<GoTest.Action>)
    requires runs != [] && AreRuns(attempts, runs)
    ensures var (action, flaky) := GoTest.FinalAction(runs);
            Merge(note, attempts).status == StatusOf(action) && Merge(note, attempts).details.flaky == flaky
  {
    if |runs| > 1 {
      ProblemIsFail(attempts, runs);
      WorstIsWorstRun(attempts, runs);
    }
  }
}
