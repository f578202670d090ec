/**
 Turning the events of `go test -json` into test results: which tests, subtests and packages
 become results, and with what status.
 */
module GoTest {
  import opened Wrappers

  datatype Action = Pass | Fail | Skip

  // A test of a package; the package itself has the empty name.
  datatype Key = Key(package: string, name: string)

  // `action` is None for the actions that do not end a test (run, output, ...).
  datatype Event = BuildEvent | TestEvent(key: Key, action: Option<Action>)

  datatype Status = Passed | Failed | Skipped | Broken
  datatype GoResult = GoResult(key: Key, status: Status, flaky: bool)

  const PACKAGE_FAILED := "(package failed)"

  // ---- what the events say ----

  // In order of first appearance: the tests, and the packages that have events of their own.
  function Seen(events: seq<Event>, packages: bool): seq<Key> {
    if events == [] then []
    else
      var before, e := Seen(events[..|events| - 1], packages), events[|events| - 1];
      if e.TestEvent? && (e.key.name == "") == packages && e.key !in before then before + [e.key] else before
  }

  // The actions that ended a run of this test, in order.
  function Attempts(events: seq<Event>, key: Key): seq<Action> {
    if events == [] then []
    else
      var before, e := Attempts(events[..|events| - 1], key), events[|events| - 1];
      if e.TestEvent? && e.key == key && e.action.Some? then before + [e.action.value] else before
  }

  datatype Run = Run(tests: seq<Key>, packages: seq<Key>, attempts: map<Key, seq<Action>>)
  {
    predicate Finished(key: Key) {
      key in tests && key in attempts && attempts[key] != []
    }

    predicate EndedInFail(key: Key) {
      Finished(key) && FinalAction(attempts[key]).0.Fail?
    }

    // The last action a package ended with.
    predicate PackageFailed(package: string) {
      var key := Key(package, "");
      key in packages && key in attempts && attempts[key] != [] && attempts[key][|attempts[key]| - 1].Fail?
    }

    ghost predicate HasSubtest(key: Key) {
      exists k :: Finished(k) && ParentOf(k) == Some(key)
    }

    ghost predicate HasFailingSubtest(key: Key) {
      exists k :: EndedInFail(k) && ParentOf(k) == Some(key)
    }

    ghost predicate HasFailedAttempt(package: string) {
      exists k :: Finished(k) && k.package == package && Action.Fail in attempts[k]
    }

    predicate HangsIn(key: Key) {
      key in tests && !Finished(key) && PackageFailed(key.package)
    }
  }

  // The tests and packages of a file, each with its attempts.
  function RunOf(events: seq<Event>): Run {
    var tests, packages := Seen(events, false), Seen(events, true);
    Run(tests, packages, map k | k in tests + packages :: Attempts(events, k))
  }

  function FinalAction(runs: seq<Action>): (Action, bool)
    requires runs != []
  {
    if Action.Fail in runs && runs[|runs| - 1] == Pass then (Pass, true)
    else if Action.Fail in runs then (Fail, false)
    else if Pass in runs then (Pass, false)
    else (Skip, false)
  }

  function StatusOf(action: Action): Status {
    match action
    case Pass => Passed
    case Fail => Failed
    case Skip => Skipped
  }

  // ---- the tree of names ----

  function LastSlash(name: string): (at: Option<nat>)
    ensures at.Some? ==> at.value < |name| && name[at.value] == '/' && '/' !in name[at.value + 1..]
    ensures at.None? ==> '/' !in name
  {
    if name == "" then None
    else if name[|name| - 1] == '/' then Some(|name| - 1)
    else
      var at := LastSlash(name[..|name| - 1]);
      assert at.Some? ==> name[at.value + 1..] == name[..|name| - 1][at.value + 1..] + [name[|name| - 1]];
      at
  }

  function ParentOf(key: Key): Option<Key> {
    var at := LastSlash(key.name);
    if at.Some? then Some(Key(key.package, key.name[..at.value])) else None
  }

  // `below` is the test itself or a subtest of it, at any depth.
  predicate AtOrBelow(below: Key, key: Key) {
    below.package == key.package && (below.name == key.name || key.name + "/" <= below.name)
  }

  // ---- the results ----

  ghost predicate IsReported(run: Run, key: Key) {
    run.Finished(key) && (run.HasSubtest(key) ==> run.EndedInFail(key) && !run.HasFailingSubtest(key))
  }

  function ResultOf(run: Run, key: Key): GoResult
    requires run.Finished(key)
  {
    var (action, flaky) := FinalAction(run.attempts[key]);
    GoResult(key, StatusOf(action), flaky)
  }

  ghost function TestResults(run: Run, n: nat): seq<GoResult>
    requires n <= |run.tests|
  {
    if n == 0 then []
    else TestResults(run, n - 1) + if IsReported(run, run.tests[n - 1]) then [ResultOf(run, run.tests[n - 1])] else []
  }

  function HangResults(run: Run, n: nat): seq<GoResult>
    requires n <= |run.tests|
  {
    if n == 0 then []
    else HangResults(run, n - 1)
         + if run.HangsIn(run.tests[n - 1]) then [GoResult(run.tests[n - 1], Broken, false)] else []
  }

  ghost predicate PackageNeedsResult(run: Run, package: string) {
    && run.PackageFailed(package) && !run.HasFailedAttempt(package)
    && forall k :: k in run.tests && k.package == package ==> run.Finished(k)
  }

  ghost function PackageResults(run: Run, n: nat): seq<GoResult>
    requires n <= |run.packages|
  {
    if n == 0 then []
    else
      var package := run.packages[n - 1].package;
      PackageResults(run, n - 1)
      + if PackageNeedsResult(run, package) then [GoResult(Key(package, PACKAGE_FAILED), Broken, false)] else []
  }

  ghost function Results(run: Run): seq<GoResult> {
    TestResults(run, |run.tests|) + HangResults(run, |run.tests|) + PackageResults(run, |run.packages|)
  }

  // ---- the import ----

  // `setdefault`, then the action.
  function AfterEvent(run: Run, e: Event): Run {
    if e.BuildEvent? then run
    else
      var known := e.key in run.attempts;
      var soFar := if known then run.attempts[e.key] else [];
      Run(if known || e.key.name == "" then run.tests else run.tests + [e.key],
          if known || e.key.name != "" then run.packages else run.packages + [e.key],
          run.attempts[e.key := if e.action.Some? then soFar + [e.action.value] else soFar])
  }

  lemma NextEvent(events: seq<Event>, i: nat)
    requires i < |events|
    ensures AfterEvent(RunOf(events[..i]), events[i]) == RunOf(events[..i + 1])
  {
    var before, after, e := events[..i], events[..i + 1], events[i];
    assert after[..i] == before;
    if e.TestEvent? {
      SeenKind(before, true);
      SeenKind(before, false);
      if e.key !in RunOf(before).attempts {
        NoneYet(before, e.key);
      }
    }
    assert AfterEvent(RunOf(before), e).attempts == RunOf(after).attempts;
  }

  lemma {:induction false} SeenKind(events: seq<Event>, packages: bool)
    ensures forall k :: k in Seen(events, packages) ==> (k.name == "") == packages
  {
    if events != [] {
      SeenKind(events[..|events| - 1], packages);
    }
  }

  method Collect(events: seq<Event>) returns (run: Run)
    ensures run == RunOf(events)
  {
    var tests, packages: seq<Key>, attempts: map<Key, seq<Action>> := [], [], map[];
    var i := 0;
    while i < |events|
      invariant 0 <= i <= |events| && Run(tests, packages, attempts) == RunOf(events[..i])
    {
      NextEvent(events, i);
      var e := events[i];
      if e.TestEvent? {
        if e.key !in attempts {
          attempts := attempts[e.key := []];
          if e.key.name != "" {
            tests := tests + [e.key];
          } else {
            packages := packages + [e.key];
          }
        }
        if e.action.Some? {
          attempts := attempts[e.key := attempts[e.key] + [e.action.value]];
        }
      }
      i := i + 1;
    }
    assert events[..i] == events;
    run := Run(tests, packages, attempts);
  }

  lemma {:induction false} NoneYet(events: seq<Event>, key: Key)
    requires key !in Seen(events, key.name == "")
    ensures Attempts(events, key) == []
  {
    if events != [] {
      NoneYet(events[..|events| - 1], key);
    }
  }

  method Parents(run: Run) returns (parents: set<Key>, failing: set<Key>)
    ensures forall key :: key in parents <==> run.HasSubtest(key)
    ensures forall key :: key in failing <==> run.HasFailingSubtest(key)
  {
    parents, failing := {}, {};
    var i := 0;
    while i < |run.tests|
      invariant 0 <= i <= |run.tests|
      invariant forall key :: key in parents <==>
        exists k :: k in run.tests[..i] && run.Finished(k) && ParentOf(k) == Some(key)
      invariant forall key :: key in failing <==>
        exists k :: k in run.tests[..i] && run.EndedInFail(k) && ParentOf(k) == Some(key)
    {
      var k := run.tests[i];
      assert run.tests[..i + 1] == run.tests[..i] + [k];
      var up := ParentOf(k);
      if run.Finished(k) && up.Some? {
        parents := parents + {up.value};
        if FinalAction(run.attempts[k]).0.Fail? {
          failing := failing + {up.value};
        }
      }
      i := i + 1;
    }
    assert run.tests[..i] == run.tests;
  }

  method ReportTests(run: Run) returns (results: seq<GoResult>)
    ensures results == TestResults(run, |run.tests|)
  {
    var parents, failing := Parents(run);
    results := [];
    var i := 0;
    while i < |run.tests|
      invariant 0 <= i <= |run.tests| && results == TestResults(run, i)
    {
      var key := run.tests[i];
      if run.Finished(key) {
        if key !in parents || (FinalAction(run.attempts[key]).0.Fail? && key !in failing) {
          results := results + [ResultOf(run, key)];
        }
      }
      i := i + 1;
    }
  }

  method FailedPackages(run: Run) returns (failed: set<string>)
    ensures forall p :: p in failed <==> run.HasFailedAttempt(p)
  {
    failed := {};
    var i := 0;
    while i < |run.tests|
      invariant 0 <= i <= |run.tests|
      invariant forall p :: p in failed <==>
        exists k :: k in run.tests[..i] && run.Finished(k) && k.package == p && Action.Fail in run.attempts[k]
    {
      var k := run.tests[i];
      assert run.tests[..i + 1] == run.tests[..i] + [k];
      if run.Finished(k) && Action.Fail in run.attempts[k] {
        failed := failed + {k.package};
      }
      i := i + 1;
    }
    assert run.tests[..i] == run.tests;
  }

  method ReportHangs(run: Run, failed: set<string>) returns (results: seq<GoResult>, failed': set<string>)
    ensures results == HangResults(run, |run.tests|)
    ensures forall p :: p in failed' <==> p in failed || exists k :: run.HangsIn(k) && k.package == p
  {
    results, failed' := [], failed;
    var i := 0;
    while i < |run.tests|
      invariant 0 <= i <= |run.tests| && results == HangResults(run, i)
      invariant forall p :: p in failed' <==>
        p in failed || exists k :: k in run.tests[..i] && run.HangsIn(k) && k.package == p
    {
      var k := run.tests[i];
      assert run.tests[..i + 1] == run.tests[..i] + [k];
      if run.HangsIn(k) {
        results := results + [GoResult(k, Broken, false)];
        failed' := failed' + {k.package};
      }
      i := i + 1;
    }
    assert run.tests[..i] == run.tests;
  }

  method ReportPackages(run: Run, failed: set<string>) returns (results: seq<GoResult>)
    requires forall p :: p in failed <==>
      run.HasFailedAttempt(p) || exists k :: run.HangsIn(k) && k.package == p
    ensures results == PackageResults(run, |run.packages|)
  {
    results := [];
    var i := 0;
    while i < |run.packages|
      invariant 0 <= i <= |run.packages| && results == PackageResults(run, i)
    {
      var package := run.packages[i].package;
      if run.PackageFailed(package) && package !in failed {
        assert PackageNeedsResult(run, package);
        results := results + [GoResult(Key(package, PACKAGE_FAILED), Broken, false)];
      } else {
        NoPackageResult(run, package, failed);
      }
      i := i + 1;
    }
  }

  lemma NoPackageResult(run: Run, package: string, failed: set<string>)
    requires forall p :: p in failed <==>
      run.HasFailedAttempt(p) || exists k :: run.HangsIn(k) && k.package == p
    requires !run.PackageFailed(package) || package in failed
    ensures !PackageNeedsResult(run, package)
  {
  }

  method Import(events: seq<Event>) returns (results: seq<GoResult>)
    ensures results == Results(RunOf(events))
  {
    var run := Collect(events);
    var reported := ReportTests(run);
    var failed := FailedPackages(run);
    var hangs, failed' := ReportHangs(run, failed);
    var packages := ReportPackages(run, failed');
    results := reported + hangs + packages;
  }

  // ---- what the results promise ----

  lemma {:induction false} InTestResults(run: Run, n: nat, r: GoResult)
    requires n <= |run.tests|
    ensures r in TestResults(run, n) <==>
      exists i :: 0 <= i < n && IsReported(run, run.tests[i]) && r == ResultOf(run, run.tests[i])
  {
    if n > 0 {
      InTestResults(run, n - 1, r);
    }
  }

  lemma {:induction false} InHangResults(run: Run, n: nat, r: GoResult)
    requires n <= |run.tests|
    ensures r in HangResults(run, n) <==>
      exists i :: 0 <= i < n && run.HangsIn(run.tests[i]) && r == GoResult(run.tests[i], Broken, false)
  {
    if n > 0 {
      InHangResults(run, n - 1, r);
    }
  }

  lemma {:induction false} InPackageResults(run: Run, n: nat, r: GoResult)
    requires n <= |run.packages|
    ensures r in PackageResults(run, n) <==>
      exists i :: 0 <= i < n && PackageNeedsResult(run, run.packages[i].package)
                  && r == GoResult(Key(run.packages[i].package, PACKAGE_FAILED), Broken, false)
  {
    if n > 0 {
      InPackageResults(run, n - 1, r);
    }
  }

  /**
   The results are exactly: each finished test that has no subtests, or ended in fail while no
   subtest right below it did; each test that never finished in a failed package; and each
   failed package that nothing else speaks for.
   */
  lemma ResultsAre(run: Run, r: GoResult)
    ensures r in Results(run) <==>
      || (IsReported(run, r.key) && r == ResultOf(run, r.key))
      || (run.HangsIn(r.key) && r == GoResult(r.key, Broken, false))
      || (exists i :: 0 <= i < |run.packages| && PackageNeedsResult(run, run.packages[i].package)
                      && r == GoResult(Key(run.packages[i].package, PACKAGE_FAILED), Broken, false))
  {
    InTestResults(run, |run.tests|, r);
    InHangResults(run, |run.tests|, r);
    InPackageResults(run, |run.packages|, r);
  }

  /**
   What a test's result says of its runs: failed, unless the last one passed; passed and flaky,
   when one failed and the last one passed; passed, when none failed and one passed; skipped,
   when all were skipped.
   */
  lemma StatusTells(run: Run, r: GoResult)
    requires r in TestResults(run, |run.tests|)
    ensures r.key in run.tests && r.key in run.attempts && run.attempts[r.key] != []
    ensures var runs := run.attempts[r.key];
            var last := runs[|runs| - 1];
            && (r.status == Failed <==> Action.Fail in runs && last != Pass)
            && (r.flaky <==> Action.Fail in runs && last == Pass)
            && (r.status == Skipped <==> forall a <- runs :: a == Skip)
            && (r.status == Passed <==> last == Pass || (Pass in runs && Action.Fail !in runs))
  {
    InTestResults(run, |run.tests|, r);
    var runs := run.attempts[r.key];
    assert runs[|runs| - 1] in runs;
  }

  ghost function Longest(keys: seq<Key>): nat {
    if keys == [] then 0 else
      var rest := Longest(keys[1..]);
      if |keys[0].name| > rest then |keys[0].name| else rest
  }

  lemma {:induction false} NotLonger(keys: seq<Key>, key: Key)
    requires key in keys
    ensures |key.name| <= Longest(keys)
  {
    if key != keys[0] {
      NotLonger(keys[1..], key);
    }
  }

  /** No final failure is lost: a test that ends in fail is reported failed itself, or a subtest below it is. */
  lemma {:induction false} FailureIsReported(run: Run, key: Key) returns (below: Key)
    requires run.EndedInFail(key)
    ensures AtOrBelow(below, key) && run.EndedInFail(below)
    ensures GoResult(below, Failed, false) in Results(run)
    decreases Longest(run.tests) - |key.name|
  {
    if run.HasFailingSubtest(key) {
      var sub :| run.EndedInFail(sub) && ParentOf(sub) == Some(key);
      NotLonger(run.tests, sub);
      below := FailureIsReported(run, sub);
      BelowSubtest(below, sub, key);
    } else {
      below := key;
      ReportedFailed(run, key);
    }
  }

  lemma BelowSubtest(below: Key, sub: Key, key: Key)
    requires AtOrBelow(below, sub) && ParentOf(sub) == Some(key)
    ensures AtOrBelow(below, key)
  {
    assert key.name + "/" <= sub.name;
  }

  /** A failure is reported once along each branch: at a parent only if no subtest right below it failed. */
  lemma FailedParentHasNoFailedChild(run: Run, key: Key, flaky: bool)
    requires GoResult(key, Failed, flaky) in Results(run)
    ensures run.EndedInFail(key) && !flaky
    ensures forall sub :: ParentOf(sub) == Some(key) ==> !run.EndedInFail(sub)
  {
    ResultsAre(run, GoResult(key, Failed, flaky));
    forall sub | ParentOf(sub) == Some(key) ensures !run.EndedInFail(sub) {
      FailingSubtest(run, key, sub);
    }
  }

  lemma FailingSubtest(run: Run, key: Key, sub: Key)
    requires ParentOf(sub) == Some(key)
    ensures run.EndedInFail(sub) ==> run.HasSubtest(key) && run.HasFailingSubtest(key)
  {
  }

  // ---- the documented rule for parents ----

  // A subtest at any depth.
  predicate Below(sub: Key, key: Key) {
    sub.package == key.package && key.name + "/" <= sub.name
  }

  // With `failing`, only tests that ended in fail.
  predicate Of(run: Run, key: Key, failing: bool) {
    if failing then run.EndedInFail(key) else run.Finished(key)
  }

  ghost predicate HasChild(run: Run, key: Key, failing: bool) {
    exists sub :: Of(run, sub, failing) && ParentOf(sub) == Some(key)
  }

  ghost predicate HasBelow(run: Run, key: Key, failing: bool) {
    exists sub :: Of(run, sub, failing) && Below(sub, key)
  }

  // The importer's own description: a parent only when it has no subtests, or failed while
  // none of its subtests did.
  ghost predicate IsDocumented(run: Run, key: Key) {
    run.Finished(key)
    && (HasBelow(run, key, false) ==> run.EndedInFail(key) && !HasBelow(run, key, true))
  }

  // No level is missing between the test and what is below it.
  ghost predicate NoGap(run: Run, key: Key, failing: bool) {
    forall sub :: Of(run, sub, failing) && Below(sub, key) ==>
      ParentOf(sub).Some? && Of(run, ParentOf(sub).value, failing)
  }

  lemma ChildIsBelow(sub: Key, key: Key)
    requires ParentOf(sub) == Some(key)
    ensures Below(sub, key)
  {
  }

  // Going up one level from below a test leads to the test or stays below it.
  lemma ParentOfBelow(sub: Key, key: Key)
    requires Below(sub, key)
    ensures ParentOf(sub).Some?
    ensures ParentOf(sub).value == key || (Below(ParentOf(sub).value, key) && |ParentOf(sub).value.name| < |sub.name|)
  {
    var n, at := |key.name|, LastSlash(sub.name);
    assert sub.name[n] == (key.name + "/")[n] == '/';
    LastSlashIsLast(sub.name, n);
    if at.value > n {
      assert key.name + "/" <= sub.name[..at.value];
    } else {
      assert sub.name[..n] == (key.name + "/")[..n] == key.name;
    }
  }

  lemma {:induction false} LastSlashIsLast(name: string, i: nat)
    requires i < |name| && name[i] == '/'
    ensures LastSlash(name).Some? && i <= LastSlash(name).value
  {
    if name[|name| - 1] != '/' {
      LastSlashIsLast(name[..|name| - 1], i);
    }
  }

  lemma {:induction false} NoGapHasChild(run: Run, key: Key, failing: bool, sub: Key)
    requires NoGap(run, key, failing) && Of(run, sub, failing) && Below(sub, key)
    ensures HasChild(run, key, failing)
    decreases |sub.name|
  {
    ParentOfBelow(sub, key);
    if ParentOf(sub).value != key {
      NoGapHasChild(run, key, failing, ParentOf(sub).value);
    }
  }

  // The rule holds of a test unless it has subtests below and none of them right below it.
  lemma ReportedAsDocumented(run: Run, key: Key)
    requires run.Finished(key)
    ensures var failing := run.EndedInFail(key);
            (IsReported(run, key) <==> IsDocumented(run, key))
            <==> (HasBelow(run, key, failing) ==> HasChild(run, key, failing))
  {
    forall sub, failing | Of(run, sub, failing) && ParentOf(sub) == Some(key) ensures Below(sub, key) {
      ChildIsBelow(sub, key);
    }
    assert HasChild(run, key, true) <==> run.HasFailingSubtest(key);
    assert HasChild(run, key, false) <==> run.HasSubtest(key);
    assert HasChild(run, key, true) ==> HasChild(run, key, false);
    assert HasBelow(run, key, true) ==> HasBelow(run, key, false);
  }

  /**
   When the importer does what it says of parents: exactly when no level is missing below a
   test that has no subtest right below it: none that ended in fail, if the test did, and none
   at all, if it did not.
   */
  lemma DocumentedRuleHolds(run: Run)
    ensures (forall key :: IsReported(run, key) <==> IsDocumented(run, key))
            <==> (forall key :: run.Finished(key) && !HasChild(run, key, run.EndedInFail(key))
                                ==> NoGap(run, key, run.EndedInFail(key)))
  {
    forall key | run.Finished(key)
      ensures (IsReported(run, key) <==> IsDocumented(run, key))
              <==> (!HasChild(run, key, run.EndedInFail(key)) ==> NoGap(run, key, run.EndedInFail(key)))
    {
      var failing := run.EndedInFail(key);
      ReportedAsDocumented(run, key);
      if NoGap(run, key, failing) && HasBelow(run, key, failing) {
        var sub :| Of(run, sub, failing) && Below(sub, key);
        NoGapHasChild(run, key, failing, sub);
      }
    }
  }

  /**
   So it does in a file where the parent of each failing test ended in fail and the parent of
   each finished test finished, as in one run of `go test`.
   */
  lemma OneRunIsAsDocumented(run: Run, key: Key)
    requires forall sub :: run.Finished(sub) && ParentOf(sub).Some? ==>
               run.Finished(ParentOf(sub).value)
               && (run.EndedInFail(sub) ==> run.EndedInFail(ParentOf(sub).value))
    ensures IsReported(run, key) <==> IsDocumented(run, key)
    ensures (exists r :: r in Results(run) && r.key == key && r.status == Failed)
            <==> run.EndedInFail(key) && !HasBelow(run, key, true)
  {
    if run.Finished(key) {
      forall failing ensures NoGap(run, key, failing) {
        forall sub | Of(run, sub, failing) && Below(sub, key)
          ensures ParentOf(sub).Some? && Of(run, ParentOf(sub).value, failing)
        {
          ParentOfBelow(sub, key);
        }
      }
      ReportedAsDocumented(run, key);
      if sub :| Of(run, sub, run.EndedInFail(key)) && Below(sub, key) {
        NoGapHasChild(run, key, run.EndedInFail(key), sub);
      }
    }
    FailedResultIs(run, key);
  }

  lemma FailedResultIs(run: Run, key: Key)
    ensures (exists r :: r in Results(run) && r.key == key && r.status == Failed)
            <==> run.EndedInFail(key) && IsReported(run, key)
  {
    if r :| r in Results(run) && r.key == key && r.status == Failed {
      ResultsAre(run, r);
    }
    if run.EndedInFail(key) && IsReported(run, key) {
      ResultsAre(run, ResultOf(run, key));
    }
  }

  // The events of `go test -count=2` in which b passes the second time, c below it is skipped
  // then, and t above it fails both times.
  function TwoRuns(t: Key, b: Key, c: Key): seq<Event> {
    [TestEvent(c, Some(Fail)), TestEvent(b, Some(Fail)), TestEvent(t, Some(Fail)),
     TestEvent(c, Some(Skip)), TestEvent(b, Some(Pass)), TestEvent(t, Some(Fail))]
  }

  // The run has these tests with these attempts.
  predicate Holds(run: Run, t: Key, b: Key, c: Key, ofT: seq<Action>, ofB: seq<Action>, ofC: seq<Action>) {
    && run.tests == [c, b, t] && run.packages == []
    && t in run.attempts && run.attempts[t] == ofT
    && b in run.attempts && run.attempts[b] == ofB
    && c in run.attempts && run.attempts[c] == ofC
  }

  lemma NewTest(run: Run, key: Key, action: Action)
    requires key !in run.attempts && key.name != ""
    ensures var next := AfterEvent(run, TestEvent(key, Some(action)));
            && next.tests == run.tests + [key] && next.packages == run.packages
            && next.attempts == run.attempts[key := [action]]
  {
    assert [] + [action] == [action];
  }

  // The events one after the other.
  function Replayed(events: seq<Event>, n: nat): Run
    requires n <= |events|
  {
    if n == 0 then Run([], [], map[]) else AfterEvent(Replayed(events, n - 1), events[n - 1])
  }

  lemma {:induction false} ReplayedIs(events: seq<Event>, n: nat)
    requires n <= |events|
    ensures Replayed(events, n) == RunOf(events[..n])
  {
    if n > 0 {
      ReplayedIs(events, n - 1);
      NextEvent(events, n - 1);
    }
  }

  lemma ReplayedAll(events: seq<Event>)
    ensures Replayed(events, |events|) == RunOf(events)
  {
    ReplayedIs(events, |events|);
    assert events[..|events|] == events;
  }

  lemma FirstRun(none: Run, one: Run, two: Run, three: Run, t: Key, b: Key, c: Key)
    requires t != b && b != c && t != c && t.name != "" && b.name != "" && c.name != ""
    requires none == Run([], [], map[])
    requires one == AfterEvent(none, TestEvent(c, Some(Fail))) && two == AfterEvent(one, TestEvent(b, Some(Fail)))
    requires three == AfterEvent(two, TestEvent(t, Some(Fail)))
    ensures Holds(three, t, b, c, [Fail], [Fail], [Fail])
  {
    NewTest(none, c, Fail);
    NewTest(one, b, Fail);
    NewTest(two, t, Fail);
    assert one.tests == [c] && two.tests == [c, b];
  }

  lemma SecondRun(first: Run, skipped: Run, passed: Run, failed: Run, t: Key, b: Key, c: Key)
    requires t != b && b != c && t != c && Holds(first, t, b, c, [Fail], [Fail], [Fail])
    requires skipped == AfterEvent(first, TestEvent(c, Some(Skip)))
    requires passed == AfterEvent(skipped, TestEvent(b, Some(Pass)))
    requires failed == AfterEvent(passed, TestEvent(t, Some(Fail)))
    ensures Holds(failed, t, b, c, [Fail, Fail], [Fail, Pass], [Fail, Skip])
  {
  }

  lemma RunOfTwoRuns(t: Key, b: Key, c: Key)
    requires t != b && b != c && t != c && t.name != "" && b.name != "" && c.name != ""
    ensures Holds(RunOf(TwoRuns(t, b, c)), t, b, c, [Fail, Fail], [Fail, Pass], [Fail, Skip])
  {
    var es := TwoRuns(t, b, c);
    var three := Replayed(es, 3);
    FirstRun(Replayed(es, 0), Replayed(es, 1), Replayed(es, 2), three, t, b, c);
    SecondRun(three, Replayed(es, 4), Replayed(es, 5), Replayed(es, 6), t, b, c);
    ReplayedAll(es);
  }

  /**
   A file it does not hold of: `T` ended in fail, its subtest `T/b` passed on a rerun, and the
   subtest below that ended in fail. `T` and `T/b/c` are both reported as failed.
   */
  lemma ParentReportedTwice()
    ensures var t, b, c := Key("p", "T"), Key("p", "T/b"), Key("p", "T/b/c");
            var run := RunOf(TwoRuns(t, b, c));
            && Below(c, t) && run.EndedInFail(c) && !IsDocumented(run, t)
            && GoResult(t, Failed, false) in Results(run) && GoResult(c, Failed, false) in Results(run)
  {
    var t, b, c := Key("p", "T"), Key("p", "T/b"), Key("p", "T/b/c");
    Names();
    RunOfTwoRuns(t, b, c);
    GapIsReported(RunOf(TwoRuns(t, b, c)), t, b, c);
  }

  lemma Names()
    ensures LastSlash("T") == None && LastSlash("T/b") == Some(1) && LastSlash("T/b/c") == Some(3)
    ensures "T/b"[..1] == "T" && "T/b/c"[..3] == "T/b" && "T" + "/" <= "T/b/c"
    ensures "T" != "T/b" && "T/b" != "T/b/c" && "T" != "T/b/c"
  {
    assert |"T"| == 1 && |"T/b"| == 3 && |"T/b/c"| == 5;
    assert "T"[..0] == "" && "T/b"[..2][1] == '/' && "T/b/c"[..4][3] == '/';
  }

  lemma GapIsReported(run: Run, t: Key, b: Key, c: Key)
    requires Holds(run, t, b, c, [Fail, Fail], [Fail, Pass], [Fail, Skip])
    requires t != b && b != c && t != c
    requires ParentOf(t) == None && ParentOf(b) == Some(t) && ParentOf(c) == Some(b) && Below(c, t)
    ensures run.EndedInFail(c) && !IsDocumented(run, t)
    ensures GoResult(t, Failed, false) in Results(run) && GoResult(c, Failed, false) in Results(run)
  {
    assert Of(run, c, true) && Of(run, c, false);
    FailsWithoutChild(run, t, b, c);
    ReportedFailed(run, t);
    ReportedFailed(run, c);
  }

  lemma FailsWithoutChild(run: Run, t: Key, b: Key, c: Key)
    requires Holds(run, t, b, c, [Fail, Fail], [Fail, Pass], [Fail, Skip]) && t != b && b != c && t != c
    requires ParentOf(t) == None && ParentOf(b) == Some(t) && ParentOf(c) == Some(b)
    ensures run.EndedInFail(t) && !run.HasFailingSubtest(t) && run.EndedInFail(c) && !run.HasFailingSubtest(c)
  {
    assert run.EndedInFail(t) && run.EndedInFail(c) && !run.EndedInFail(b);
  }

  lemma ReportedFailed(run: Run, key: Key)
    requires run.EndedInFail(key) && !run.HasFailingSubtest(key)
    ensures GoResult(key, Failed, false) in Results(run)
  {
    ResultsAre(run, GoResult(key, Failed, false));
  }

  // No run of a finished test of the package failed.
  ghost predicate NoRunFailed(run: Run, package: string) {
    forall k <- run.tests :: k.package == package && k in run.attempts ==> Action.Fail !in run.attempts[k]
  }

  /** A failed package in which no run of a finished test failed has a broken result. */
  lemma FailedPackageIsReported(run: Run, package: string)
    requires run.PackageFailed(package) && NoRunFailed(run, package)
    ensures exists r :: r in Results(run) && r.key.package == package && r.status == Broken
  {
    if k :| k in run.tests && k.package == package && !run.Finished(k) {
      var r := GoResult(k, Broken, false);
      ResultsAre(run, r);
    } else {
      var i :| 0 <= i < |run.packages| && run.packages[i] == Key(package, "");
      var r := GoResult(Key(package, PACKAGE_FAILED), Broken, false);
      assert PackageNeedsResult(run, run.packages[i].package);
      ResultsAre(run, r);
    }
  }

  // The package stands out among the results.
  ghost predicate StandsOut(run: Run, package: string) {
    exists r :: r in Results(run) && r.key.package == package && (r.status == Failed || r.status == Broken || r.flaky)
  }

  // A failed run that is not hidden behind subtests.
  ghost predicate ShowsFailure(run: Run, k: Key) {
    run.Finished(k) && Action.Fail in run.attempts[k] && (run.EndedInFail(k) || !run.HasSubtest(k))
  }

  /**
   When a failed package stands out by a failed, broken or flaky result: exactly when a test in
   it never finished, no run of a finished test failed, a test ended in fail, or a test without
   subtests failed and then passed. What stays unseen is a parent that failed and then passed.
   */
  lemma FailedPackageStandsOut(run: Run, package: string)
    requires run.PackageFailed(package)
    ensures StandsOut(run, package) <==>
              || (exists k :: k in run.tests && k.package == package && !run.Finished(k))
              || NoRunFailed(run, package)
              || (exists k :: ShowsFailure(run, k) && k.package == package)
  {
    if r :| r in Results(run) && r.key.package == package && (r.status == Failed || r.status == Broken || r.flaky) {
      StandsOutWhy(run, r);
    }
    if k :| k in run.tests && k.package == package && !run.Finished(k) {
      ResultsAre(run, GoResult(k, Broken, false));
      assert GoResult(k, Broken, false) in Results(run);
    } else if NoRunFailed(run, package) {
      FailedPackageIsReported(run, package);
    } else if k :| ShowsFailure(run, k) && k.package == package {
      ShownFailureStandsOut(run, k);
    }
  }

  lemma StandsOutWhy(run: Run, r: GoResult)
    requires r in Results(run) && (r.status == Failed || r.status == Broken || r.flaky)
    ensures ShowsFailure(run, r.key) || (r.key in run.tests && !run.Finished(r.key))
            || NoRunFailed(run, r.key.package)
  {
    ResultsAre(run, r);
  }

  lemma ShownFailureStandsOut(run: Run, k: Key)
    requires ShowsFailure(run, k)
    ensures StandsOut(run, k.package)
  {
    if run.EndedInFail(k) {
      var below := FailureIsReported(run, k);
      assert GoResult(below, Failed, false) in Results(run);
    } else {
      ResultsAre(run, ResultOf(run, k));
      assert ResultOf(run, k) in Results(run);
    }
  }

  /** A failed package that does not stand out: its one parent failed, and passed on the rerun. */
  lemma FlakyParentIsUnseen(run: Run, t: Key, b: Key)
    requires run.tests == [t, b] && t != b && t.package == b.package && ParentOf(b) == Some(t)
    requires run.attempts.Keys == {t, b, Key(t.package, "")} && t.name != "" && b.name != ""
    requires run.attempts[t] == [Fail, Pass] && run.attempts[b] == [Pass, Pass]
    requires run.packages == [Key(t.package, "")] && run.attempts[Key(t.package, "")] == [Fail]
    ensures run.PackageFailed(t.package) && !StandsOut(run, t.package)
  {
    assert run.Finished(b) && run.HasSubtest(t) && run.Finished(t) && Action.Fail in run.attempts[t];
    FailedPackageStandsOut(run, t.package);
  }

  /** A broken result is only made in a package that failed. */
  lemma BrokenOnlyInFailedPackage(run: Run, r: GoResult)
    requires r in Results(run) && r.status == Broken
    ensures run.PackageFailed(r.key.package)
  {
    ResultsAre(run, r);
  }

  // ---- each test once ----

  lemma {:induction false} SeenOnce(events: seq<Event>, packages: bool)
    ensures Distinct(Seen(events, packages))
    ensures forall k :: k in Seen(events, packages) <==>
      exists i :: 0 <= i < |events| && events[i].TestEvent? && events[i].key == k && (k.name == "") == packages
  {
    if events != [] {
      var front := events[..|events| - 1];
      SeenOnce(front, packages);
      forall k ensures k in Seen(events, packages) <==>
        exists i :: 0 <= i < |events| && events[i].TestEvent? && events[i].key == k && (k.name == "") == packages
      {
        if i :| 0 <= i < |events| && events[i].TestEvent? && events[i].key == k && (k.name == "") == packages {
          assert i < |front| ==> front[i] == events[i];
        }
      }
    }
  }

  // The keys of the results, and the keys among others that have a property.
  function KeysOf(results: seq<GoResult>): seq<Key> {
    seq(|results|, i requires 0 <= i < |results| => results[i].key)
  }

  function Select(keys: seq<Key>, p: Key -> bool): seq<Key> {
    if keys == [] then []
    else Select(keys[..|keys| - 1], p) + if p(keys[|keys| - 1]) then [keys[|keys| - 1]] else []
  }

  predicate Before(keys: seq<Key>, a: Key, b: Key) {
    exists i, j :: 0 <= i < j < |keys| && keys[i] == a && keys[j] == b
  }

  lemma BeforeMore(keys: seq<Key>, a: Key, b: Key)
    requires keys != []
    ensures Before(keys[..|keys| - 1], a, b) ==> Before(keys, a, b)
    ensures a in keys[..|keys| - 1] && b == keys[|keys| - 1] ==> Before(keys, a, b)
  {
    var front := keys[..|keys| - 1];
    if Before(front, a, b) {
      var i, j :| 0 <= i < j < |front| && front[i] == a && front[j] == b;
      assert keys[i] == a && keys[j] == b;
    } else if a in front {
      var i :| 0 <= i < |front| && front[i] == a;
      assert keys[i] == a;
    }
  }

  // Selecting keeps the order.
  lemma {:induction false} SelectInOrder(keys: seq<Key>, p: Key -> bool)
    ensures forall k :: k in Select(keys, p) <==> k in keys && p(k)
    ensures forall i, j :: 0 <= i < j < |Select(keys, p)| ==> Before(keys, Select(keys, p)[i], Select(keys, p)[j])
  {
    if keys != [] {
      var front, s := Select(keys[..|keys| - 1], p), Select(keys, p);
      SelectInOrder(keys[..|keys| - 1], p);
      assert keys == keys[..|keys| - 1] + [keys[|keys| - 1]];
      forall i, j | 0 <= i < j < |s| ensures Before(keys, s[i], s[j]) {
        assert s[i] == front[i] && s[i] in front;
        BeforeMore(keys, s[i], s[j]);
      }
    }
  }

  lemma {:induction false} TestResultsAre(run: Run, n: nat)
    requires n <= |run.tests|
    ensures KeysOf(TestResults(run, n)) == Select(run.tests[..n], k => IsReported(run, k))
  {
    if n > 0 {
      TestResultsAre(run, n - 1);
      assert run.tests[..n][..n - 1] == run.tests[..n - 1];
    }
  }

  lemma {:induction false} HangResultsAre(run: Run, n: nat)
    requires n <= |run.tests|
    ensures KeysOf(HangResults(run, n)) == Select(run.tests[..n], k => run.HangsIn(k))
  {
    if n > 0 {
      HangResultsAre(run, n - 1);
      assert run.tests[..n][..n - 1] == run.tests[..n - 1];
    }
  }

  lemma {:induction false} PackageResultsAre(run: Run, n: nat)
    requires n <= |run.packages| && forall k <- run.packages :: k.name == ""
    ensures forall i :: 0 <= i < |PackageResults(run, n)| ==> PackageResults(run, n)[i].key.name == PACKAGE_FAILED
    ensures PackageKeys(PackageResults(run, n)) == Select(run.packages[..n], (k: Key) => PackageNeedsResult(run, k.package))
  {
    if n > 0 {
      PackageResultsAre(run, n - 1);
      assert run.packages[..n][..n - 1] == run.packages[..n - 1];
      assert run.packages[n - 1] in run.packages;
    }
  }

  function PackageKeys(results: seq<GoResult>): seq<Key> {
    seq(|results|, i requires 0 <= i < |results| => Key(results[i].key.package, ""))
  }

  predicate DistinctKeys(results: seq<GoResult>) {
    forall i, j :: 0 <= i < j < |results| ==> results[i].key != results[j].key
  }

  lemma InOrderIsDistinct(keys: seq<Key>, selected: seq<Key>)
    requires Distinct(keys) && forall i, j :: 0 <= i < j < |selected| ==> Before(keys, selected[i], selected[j])
    ensures Distinct(selected)
  {
    forall i, j | 0 <= i < j < |selected| ensures selected[i] != selected[j] {
      assert Before(keys, selected[i], selected[j]);
    }
  }

  /**
   However often a test ran, it makes at most one result, for its finished runs or for never
   having finished; both kinds come in the order in which the tests first appeared.
   */
  lemma OneResultPerTest(events: seq<Event>)
    ensures var run := RunOf(events);
            var (finished, hanging) := (KeysOf(TestResults(run, |run.tests|)), KeysOf(HangResults(run, |run.tests|)));
            && Distinct(finished) && Distinct(hanging)
            && (forall i, j :: 0 <= i < j < |finished| ==> Before(run.tests, finished[i], finished[j]))
            && (forall i, j :: 0 <= i < j < |hanging| ==> Before(run.tests, hanging[i], hanging[j]))
            && (forall k :: k in finished ==> k !in hanging)
    ensures var run := RunOf(events); DistinctKeys(TestResults(run, |run.tests|))
  {
    var run := RunOf(events);
    var n := |run.tests|;
    SeenOnce(events, false);
    assert run.tests[..n] == run.tests;
    TestResultsAre(run, n);
    HangResultsAre(run, n);
    SelectInOrder(run.tests, k => IsReported(run, k));
    SelectInOrder(run.tests, k => run.HangsIn(k));
    InOrderIsDistinct(run.tests, KeysOf(TestResults(run, n)));
    InOrderIsDistinct(run.tests, KeysOf(HangResults(run, n)));
    assert forall i :: 0 <= i < |TestResults(run, n)| ==> TestResults(run, n)[i].key == KeysOf(TestResults(run, n))[i];
  }

  /** Each failed package makes at most one result of its own, in the order of the packages. */
  lemma OneResultPerPackage(events: seq<Event>)
    ensures var run := RunOf(events);
            var keys := PackageKeys(PackageResults(run, |run.packages|));
            Distinct(keys) && forall i, j :: 0 <= i < j < |keys| ==> Before(run.packages, keys[i], keys[j])
    ensures var run := RunOf(events); DistinctKeys(PackageResults(run, |run.packages|))
  {
    var run := RunOf(events);
    var n := |run.packages|;
    SeenOnce(events, true);
    SeenKind(events, true);
    assert run.packages[..n] == run.packages;
    PackageResultsAre(run, n);
    SelectInOrder(run.packages, (k: Key) => PackageNeedsResult(run, k.package));
    var results := PackageResults(run, n);
    InOrderIsDistinct(run.packages, PackageKeys(results));
    forall i, j | 0 <= i < j < |results| ensures results[i].key != results[j].key {
      assert PackageKeys(results)[i] != PackageKeys(results)[j];
    }
  }

  // ---- what the events of a file add up to ----

  /**
   The attempts of a test are all the actions that ended its runs, in order: those of two parts
   of a file one after the other, and of one event its action, if it ends a run of the test.
   */
  lemma {:induction false} AttemptsAddUp(a: seq<Event>, b: seq<Event>, key: Key)
    ensures Attempts(a + b, key) == Attempts(a, key) + Attempts(b, key)
  {
    if b == [] {
      assert a + b == a;
    } else {
      assert (a + b)[..|a + b| - 1] == a + b[..|b| - 1];
      AttemptsAddUp(a, b[..|b| - 1], key);
    }
  }

  lemma AttemptsOfOne(e: Event, key: Key)
    ensures Attempts([e], key) ==
            match e
            case BuildEvent => []
            case TestEvent(k, None) => []
            case TestEvent(k, Some(action)) => if k == key then [action] else []
  {
    assert [e][..0] == [];
  }

  /** What has appeared stays in its place, and what appears later comes behind it. */
  lemma {:induction false} SeenStays(a: seq<Event>, b: seq<Event>, packages: bool)
    ensures Seen(a, packages) <= Seen(a + b, packages)
  {
    if b == [] {
      assert a + b == a;
    } else {
      assert (a + b)[..|a + b| - 1] == a + b[..|b| - 1];
      SeenStays(a, b[..|b| - 1], packages);
    }
  }
}
