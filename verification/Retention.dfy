/**
 History retention: the one-pass loop over runs sorted newest first, and the rank it decides by.
 Runs are named by their position in the list the repository returned.
 */
module Retention {
  import opened Wrappers

  type Moment = nat                       // since datetime.min
  type Cycle = Option<Token<string>>
  type RunId = int                        // ids in the order of their strings

  datatype RunStatus = Running | Completed | Failed | OtherStatus

  datatype RunKey = RunKey(id: RunId, cycle: Cycle, start: Option<Moment>, status: RunStatus)

  datatype Policy = Policy(days: Option<int>, runsPerCycle: Option<int>)

  // A run with no start time counts as oldest.
  function Started(k: RunKey): Moment {
    if k.start.Some? then k.start.value else 0
  }

  // ---- the declarative rule ----

  type Keys = seq<RunKey>

  // Newer first; of two runs with one start time, the one listed later counts as newer.
  predicate Newer(keys: Keys, a: nat, b: nat)
    requires a < |keys| && b < |keys|
  {
    Started(keys[a]) > Started(keys[b]) || (Started(keys[a]) == Started(keys[b]) && a > b)
  }

  predicate Counts(keys: Keys, j: nat, cycle: Cycle)
    requires j < |keys|
  {
    !keys[j].status.Running? && keys[j].cycle == cycle
  }

  // Run i and the newer runs of its cycle that are not running.
  function Peers(keys: Keys, i: nat): set<nat>
    requires i < |keys|
  {
    set j: nat | j < |keys| && Counts(keys, j, keys[i].cycle) && (j == i || Newer(keys, j, i))
  }

  function Rank(keys: Keys, i: nat): nat
    requires i < |keys|
  {
    |Peers(keys, i)|
  }

  predicate TooOld(k: RunKey, policy: Policy, now: Moment) {
    policy.days.Some? && Started(k) < now - policy.days.value
  }

  predicate Expires(keys: Keys, policy: Policy, now: Moment, i: nat)
    requires i < |keys|
  {
    && !keys[i].status.Running?
    && (TooOld(keys[i], policy, now)
        || (policy.runsPerCycle.Some? && Rank(keys, i) > policy.runsPerCycle.value))
  }

  /** Within a cycle expiry is closed toward older runs that are not running. */
  lemma ExpiryIsClosed(keys: Keys, policy: Policy, now: Moment, i: nat, j: nat)
    requires i < |keys| && j < |keys| && Expires(keys, policy, now, i)
    requires Newer(keys, i, j) && Counts(keys, j, keys[i].cycle)
    ensures Expires(keys, policy, now, j)
  {
    assert Peers(keys, i) <= Peers(keys, j);
    SubsetSize(Peers(keys, i), Peers(keys, j));
  }

  // The oldest of a nonempty set of runs.
  lemma {:induction false} OldestOf(keys: Keys, s: set<nat>) returns (o: nat)
    requires s != {} && forall j <- s :: j < |keys|
    ensures o in s && forall j <- s :: j == o || Newer(keys, j, o)
    decreases |s|
  {
    o :| o in s;
    var rest := s - {o};
    if rest != {} {
      var p := OldestOf(keys, rest);
      var q := if Newer(keys, o, p) then p else o;
      forall j | j in s && j != q ensures Newer(keys, j, q) {
        assert j == o || j in rest;
      }
      o := q;
    }
  }

  /** At most `runs_per_cycle` runs of a cycle that are not running survive. */
  lemma FewSurvive(keys: Keys, policy: Policy, now: Moment, cycle: Cycle)
    requires policy.runsPerCycle.Some? && policy.runsPerCycle.value >= 0
    ensures |set j: nat | j < |keys| && Counts(keys, j, cycle) && !Expires(keys, policy, now, j)|
            <= policy.runsPerCycle.value
  {
    var alive := set j: nat | j < |keys| && Counts(keys, j, cycle) && !Expires(keys, policy, now, j);
    if alive != {} {
      var o := OldestOf(keys, alive);
      SubsetSize(alive, Peers(keys, o));
    }
  }

  // ---- what the two rules mean for the runs ----

  /**
   The days alone: a run that is not running expires exactly when more than `days` have passed
   since it started, and one without a start time when more than `days` have passed at all.
   */
  lemma OldRunsExpire(keys: Keys, policy: Policy, now: Moment, i: nat)
    requires i < |keys| && policy.runsPerCycle.None?
    ensures Expires(keys, policy, now, i) <==>
              && policy.days.Some? && keys[i].status != Running
              && match keys[i].start
                 case Some(start) => now - start > policy.days.value
                 case None => now > policy.days.value
  {
  }

  // The runs of a cycle that are not running.
  function Finished(keys: Keys, cycle: Cycle): set<nat> {
    set j: nat | j < |keys| && keys[j].status != Running && keys[j].cycle == cycle
  }

  // i and the newer ones among s.
  function NewerIn(keys: Keys, s: set<nat>, i: nat): set<nat>
    requires i < |keys| && forall j <- s :: j < |keys|
  {
    set j | j in s && (j == i || Newer(keys, j, i))
  }

  // The newest n among s.
  function FirstIn(keys: Keys, s: set<nat>, n: nat): set<nat>
    requires forall j <- s :: j < |keys|
  {
    set j | j in s && |NewerIn(keys, s, j)| <= n
  }

  lemma OldestIsLast(keys: Keys, s: set<nat>, o: nat, j: nat)
    requires (forall i <- s :: i < |keys|) && o in s && j in s && forall i <- s :: i == o || Newer(keys, i, o)
    ensures if j == o then NewerIn(keys, s, o) == s else NewerIn(keys, s, j) == NewerIn(keys, s - {o}, j)
  {
    assert j != o ==> Newer(keys, j, o);
  }

  lemma FirstWithoutOldest(keys: Keys, s: set<nat>, o: nat, n: nat)
    requires (forall i <- s :: i < |keys|) && o in s && forall i <- s :: i == o || Newer(keys, i, o)
    ensures FirstIn(keys, s, n) == FirstIn(keys, s - {o}, n) + if |s| <= n then {o} else {}
  {
    forall j | j in s ensures j in FirstIn(keys, s, n) <==> if j == o then |s| <= n else j in FirstIn(keys, s - {o}, n) {
      OldestIsLast(keys, s, o, j);
    }
  }

  lemma {:induction false} NewestOf(keys: Keys, s: set<nat>, n: nat)
    requires forall j <- s :: j < |keys|
    ensures |FirstIn(keys, s, n)| == if n < |s| then n else |s|
    decreases |s|
  {
    if s != {} {
      var o := OldestOf(keys, s);
      NewestOf(keys, s - {o}, n);
      FirstWithoutOldest(keys, s, o, n);
    }
  }

  // What stays of a cycle, and what does not.
  function Staying(keys: Keys, policy: Policy, now: Moment, cycle: Cycle): set<nat> {
    set j | j in Finished(keys, cycle) && !Expires(keys, policy, now, j)
  }

  /**
   The count alone: of the runs of a cycle that are not running exactly N stay, or all of them
   when there are fewer, and a run that is running always stays.
   */
  lemma ExactlyNStay(keys: Keys, policy: Policy, now: Moment, cycle: Cycle)
    requires policy.days.None? && policy.runsPerCycle.Some?
    ensures var n, finished := policy.runsPerCycle.value, Finished(keys, cycle);
            |Staying(keys, policy, now, cycle)|
            == if n < 0 then 0 else if n < |finished| then n else |finished|
    ensures forall i: nat :: i < |keys| && keys[i].status == Running ==> !Expires(keys, policy, now, i)
  {
    var n, finished := policy.runsPerCycle.value, Finished(keys, cycle);
    StayingAre(keys, policy, now, cycle);
    if n >= 0 {
      NewestOf(keys, finished, n);
    }
  }

  lemma StayingAre(keys: Keys, policy: Policy, now: Moment, cycle: Cycle)
    requires policy.days.None? && policy.runsPerCycle.Some?
    ensures var n, finished := policy.runsPerCycle.value, Finished(keys, cycle);
            n >= 0 ==> Staying(keys, policy, now, cycle) == FirstIn(keys, finished, n)
    ensures policy.runsPerCycle.value < 0 ==> Staying(keys, policy, now, cycle) == {}
  {
    forall j | j in Finished(keys, cycle)
      ensures !Expires(keys, policy, now, j) <==> |NewerIn(keys, Finished(keys, cycle), j)| <= policy.runsPerCycle.value
    {
      PeersAre(keys, cycle, j);
    }
  }

  lemma PeersAre(keys: Keys, cycle: Cycle, j: nat)
    requires j in Finished(keys, cycle)
    ensures Peers(keys, j) == NewerIn(keys, Finished(keys, cycle), j)
  {
  }

  /**
   And they are the newest: what stays started later than what expires or, of two runs with one
   start time, was listed later; a run without a start time counts as oldest.
   */
  lemma NewestStay(keys: Keys, policy: Policy, now: Moment, a: nat, b: nat)
    requires policy.days.None? && a < |keys| && b < |keys| && keys[a].cycle == keys[b].cycle
    requires keys[a].status != Running && !Expires(keys, policy, now, a) && Expires(keys, policy, now, b)
    ensures match (keys[a].start, keys[b].start)
            case (Some(later), Some(sooner)) => sooner < later || (sooner == later && b < a)
            case (Some(later), None) => 0 < later || b < a
            case (None, Some(sooner)) => sooner == 0 && b < a
            case (None, None) => b < a
  {
    if Newer(keys, b, a) {
      ExpiryIsClosed(keys, policy, now, b, a);
    }
  }

  // ---- what a second pass at the same moment does ----

  // The positions that stay, in list order.
  function Kept(keys: Keys, policy: Policy, now: Moment, n: nat): (r: seq<nat>)
    requires n <= |keys|
    ensures forall k :: 0 <= k < |r| ==> r[k] < n && !Expires(keys, policy, now, r[k])
    ensures forall k, l :: 0 <= k < l < |r| ==> r[k] < r[l]
    ensures forall i: nat :: i < n && !Expires(keys, policy, now, i) ==> i in r
  {
    if n == 0 then []
    else Kept(keys, policy, now, n - 1) + if Expires(keys, policy, now, n - 1) then [] else [n - 1]
  }

  function Survivors(keys: Keys, policy: Policy, now: Moment): Keys {
    var kept := Kept(keys, policy, now, |keys|);
    seq(|kept|, k requires 0 <= k < |kept| => keys[kept[k]])
  }

  lemma {:induction false} ImageSize(s: set<nat>, f: seq<nat>)
    requires forall k <- s :: k < |f|
    requires forall k, l :: 0 <= k < l < |f| ==> f[k] < f[l]
    ensures |set k | k in s :: f[k]| == |s|
    decreases |s|
  {
    if s != {} {
      var k :| k in s;
      ImageSize(s - {k}, f);
      assert (set l | l in s :: f[l]) == (set l | l in s - {k} :: f[l]) + {f[k]};
    }
  }

  /** Applying retention again to what is left expires nothing. */
  lemma SecondPassExpiresNothing(keys: Keys, policy: Policy, now: Moment, i: nat)
    requires i < |Survivors(keys, policy, now)|
    ensures !Expires(Survivors(keys, policy, now), policy, now, i)
  {
    var kept := Kept(keys, policy, now, |keys|);
    var left := Survivors(keys, policy, now);
    var peers := Peers(left, i);
    ImageSize(peers, kept);
    SubsetSize(set k | k in peers :: kept[k], Peers(keys, kept[i]));
  }

  // ---- sorting ----

  function Insert(le: (nat, nat) -> bool, s: seq<nat>, p: nat): seq<nat> {
    if s == [] || le(s[|s| - 1], p) then s + [p]
    else Insert(le, s[..|s| - 1], p) + [s[|s| - 1]]
  }

  function SortBy(le: (nat, nat) -> bool, s: seq<nat>): seq<nat> {
    if s == [] then [] else Insert(le, SortBy(le, s[..|s| - 1]), s[|s| - 1])
  }

  ghost predicate Sorted(le: (nat, nat) -> bool, s: seq<nat>) {
    forall i, j :: 0 <= i < j < |s| ==> le(s[i], s[j])
  }

  ghost predicate TotalOrder(le: (nat, nat) -> bool) {
    && (forall a: nat, b: nat :: le(a, b) || le(b, a))
    && (forall a: nat, b: nat, c: nat :: le(a, b) && le(b, c) ==> le(a, c))
  }

  lemma {:induction false} InsertSorts(le: (nat, nat) -> bool, s: seq<nat>, p: nat)
    requires TotalOrder(le) && Sorted(le, s)
    ensures Sorted(le, Insert(le, s, p)) && multiset(Insert(le, s, p)) == multiset(s) + multiset{p}
  {
    if s != [] {
      var front, last := s[..|s| - 1], s[|s| - 1];
      assert s == front + [last];
      if !le(last, p) {
        InsertSorts(le, front, p);
        var r := Insert(le, front, p);
        forall i | 0 <= i < |r| ensures le(r[i], last) {
          assert r[i] in multiset(r);
          assert r[i] in multiset(front) || r[i] == p;
        }
      }
    }
  }

  lemma {:induction false} SortBySorts(le: (nat, nat) -> bool, s: seq<nat>)
    requires TotalOrder(le)
    ensures Sorted(le, SortBy(le, s)) && multiset(SortBy(le, s)) == multiset(s)
  {
    if s != [] {
      assert s == s[..|s| - 1] + [s[|s| - 1]];
      SortBySorts(le, s[..|s| - 1]);
      InsertSorts(le, SortBy(le, s[..|s| - 1]), s[|s| - 1]);
    }
  }

  function StartedAt(keys: Keys, i: nat): Moment {
    if i < |keys| then Started(keys[i]) else 0
  }

  function IdAt(keys: Keys, i: nat): RunId {
    if i < |keys| then keys[i].id else 0
  }

  // A stable sort by start time is a sort by start time and position.
  function ByStart(keys: Keys): (nat, nat) -> bool {
    (a: nat, b: nat) => StartedAt(keys, a) < StartedAt(keys, b) || (StartedAt(keys, a) == StartedAt(keys, b) && a <= b)
  }

  function ByStartAndId(keys: Keys): (nat, nat) -> bool {
    (a: nat, b: nat) => StartedAt(keys, a) < StartedAt(keys, b)
              || (StartedAt(keys, a) == StartedAt(keys, b) && IdAt(keys, a) <= IdAt(keys, b))
  }

  function Upto(n: nat): (r: seq<nat>)
    ensures |r| == n && forall k :: 0 <= k < n ==> r[k] == k
  {
    if n == 0 then [] else Upto(n - 1) + [n - 1]
  }

  function Reverse(s: seq<nat>): (r: seq<nat>)
    ensures |r| == |s| && forall k :: 0 <= k < |s| ==> r[k] == s[|s| - 1 - k]
  {
    if s == [] then [] else Reverse(s[1..]) + [s[0]]
  }

  // Every position once, newest first.
  ghost predicate NewestFirst(keys: Keys, ordered: seq<nat>) {
    && (forall k :: 0 <= k < |ordered| ==> ordered[k] < |keys|)
    && (forall i: nat :: i < |keys| ==> i in ordered)
    && (forall k, l :: 0 <= k < l < |ordered| ==> Newer(keys, ordered[k], ordered[l]))
  }

  lemma {:induction false} Once(s: seq<nat>, i: int, j: int)
    requires 0 <= i < j < |s| && s[i] == s[j]
    ensures multiset(s)[s[i]] >= 2
  {
    assert s == s[..j] + [s[j]] + s[j + 1..];
    assert s[..j][i] == s[i] && s[i] in multiset(s[..j]);
  }

  lemma SortKeeps(le: (nat, nat) -> bool, s: seq<nat>)
    requires TotalOrder(le) && forall k, l :: 0 <= k < l < |s| ==> s[k] != s[l]
    ensures Sorted(le, SortBy(le, s))
    ensures forall i :: i in SortBy(le, s) <==> i in s
    ensures forall k, l :: 0 <= k < l < |SortBy(le, s)| ==> SortBy(le, s)[k] != SortBy(le, s)[l]
  {
    SortBySorts(le, s);
    var r := SortBy(le, s);
    assert forall i :: i in r <==> i in multiset(r);
    assert forall i :: i in s <==> i in multiset(s);
    forall k, l | 0 <= k < l < |r| ensures r[k] != r[l] {
      if r[k] == r[l] {
        Once(r, k, l);
        AtMostOnce(s, r[k]);
      }
    }
  }

  lemma {:induction false} AtMostOnce(s: seq<nat>, i: nat)
    requires forall k, l :: 0 <= k < l < |s| ==> s[k] != s[l]
    ensures multiset(s)[i] <= 1
  {
    if s != [] {
      assert s == s[..|s| - 1] + [s[|s| - 1]];
      AtMostOnce(s[..|s| - 1], i);
      assert i == s[|s| - 1] ==> i !in multiset(s[..|s| - 1]);
    }
  }

  lemma SortIsNewestFirst(keys: Keys)
    ensures NewestFirst(keys, Reverse(SortBy(ByStart(keys), Upto(|keys|))))
  {
    var all := Upto(|keys|);
    var s := SortBy(ByStart(keys), all);
    SortKeeps(ByStart(keys), all);
    assert forall i :: i in all <==> 0 <= i < |keys| by {
      forall i | 0 <= i < |keys| ensures i in all {
        assert all[i] == i;
      }
    }
    ReversedSort(keys, s);
  }

  lemma ReversedSort(keys: Keys, s: seq<nat>)
    requires Sorted(ByStart(keys), s) && (forall i :: i in s <==> 0 <= i < |keys|)
    requires forall k, l :: 0 <= k < l < |s| ==> s[k] != s[l]
    ensures NewestFirst(keys, Reverse(s))
  {
    var r := Reverse(s);
    forall k | 0 <= k < |r| ensures r[k] < |keys| {
      assert r[k] in s;
    }
    forall i: nat | i < |keys| ensures i in r {
      assert i in s;
      var k :| 0 <= k < |s| && s[k] == i;
      assert r[|s| - 1 - k] == i;
    }
    forall k, l | 0 <= k < l < |r| ensures Newer(keys, r[k], r[l]) {
      assert ByStart(keys)(s[|s| - 1 - l], s[|s| - 1 - k]);
    }
  }

  // ---- the loop ----

  // The runs of a cycle that the loop has counted after n steps.
  ghost function Seen(keys: Keys, ordered: seq<nat>, n: nat, cycle: Cycle): set<nat>
    requires n <= |ordered| && forall k :: 0 <= k < |ordered| ==> ordered[k] < |keys|
  {
    set k | 0 <= k < n && Counts(keys, ordered[k], cycle) :: ordered[k]
  }

  lemma SeenIsPeers(keys: Keys, ordered: seq<nat>, n: nat)
    requires NewestFirst(keys, ordered) && n < |ordered| && !keys[ordered[n]].status.Running?
    ensures Seen(keys, ordered, n + 1, keys[ordered[n]].cycle) == Peers(keys, ordered[n])
    ensures |Seen(keys, ordered, n + 1, keys[ordered[n]].cycle)|
         == |Seen(keys, ordered, n, keys[ordered[n]].cycle)| + 1
  {
    var i := ordered[n];
    var c := keys[i].cycle;
    forall k | n < k < |ordered| ensures ordered[k] !in Peers(keys, i) {
      assert Newer(keys, ordered[n], ordered[k]);
    }
    forall j | j in Peers(keys, i) ensures j in Seen(keys, ordered, n + 1, c) {
      assert j in ordered;
      var k :| 0 <= k < |ordered| && ordered[k] == j;
    }
    assert Seen(keys, ordered, n + 1, c) == Seen(keys, ordered, n, c) + {i};
    assert i !in Seen(keys, ordered, n, c);
  }

  lemma SeenOther(keys: Keys, ordered: seq<nat>, n: nat, cycle: Cycle)
    requires n < |ordered| && forall k :: 0 <= k < |ordered| ==> ordered[k] < |keys|
    requires !Counts(keys, ordered[n], cycle)
    ensures Seen(keys, ordered, n + 1, cycle) == Seen(keys, ordered, n, cycle)
  {
  }

  // What the loop has counted and kept after n runs.
  ghost predicate Counted(keys: Keys, ordered: seq<nat>, n: nat, seenPerCycle: map<Cycle, nat>)
    requires n <= |ordered| && forall k :: 0 <= k < |ordered| ==> ordered[k] < |keys|
  {
    forall c :: (if c in seenPerCycle then seenPerCycle[c] else 0) == |Seen(keys, ordered, n, c)|
  }

  lemma CountOne(keys: Keys, ordered: seq<nat>, n: nat, seenPerCycle: map<Cycle, nat>)
    requires NewestFirst(keys, ordered) && n < |ordered| && Counted(keys, ordered, n, seenPerCycle)
    ensures keys[ordered[n]].status.Running? ==> Counted(keys, ordered, n + 1, seenPerCycle)
    ensures var key := keys[ordered[n]];
            var seen := (if key.cycle in seenPerCycle then seenPerCycle[key.cycle] else 0) + 1;
            !key.status.Running? ==> seen == |Peers(keys, ordered[n])|
                                     && Counted(keys, ordered, n + 1, seenPerCycle[key.cycle := seen])
  {
    var key := keys[ordered[n]];
    forall c | c != key.cycle || key.status.Running? ensures Seen(keys, ordered, n + 1, c) == Seen(keys, ordered, n, c) {
      SeenOther(keys, ordered, n, c);
    }
    if !key.status.Running? {
      SeenIsPeers(keys, ordered, n);
    }
  }

  method Expired(keys: Keys, policy: Policy, now: Moment, ordered: seq<nat>) returns (expired: seq<nat>)
    requires NewestFirst(keys, ordered)
    ensures forall i: nat :: i in expired <==> i in ordered && Expires(keys, policy, now, i)
    ensures Distinct(expired)
  {
    expired := [];
    var seenPerCycle: map<Cycle, nat> := map[];
    var n := 0;
    while n < |ordered|
      invariant 0 <= n <= |ordered| && Counted(keys, ordered, n, seenPerCycle)
      invariant forall i: nat :: i in expired <==> i in ordered[..n] && Expires(keys, policy, now, i)
      invariant Distinct(expired)
    {
      var i := ordered[n];
      var key := keys[i];
      assert ordered[..n + 1] == ordered[..n] + [i];
      assert i !in ordered[..n];
      CountOne(keys, ordered, n, seenPerCycle);
      if !key.status.Running? {
        var seen := (if key.cycle in seenPerCycle then seenPerCycle[key.cycle] else 0) + 1;
        seenPerCycle := seenPerCycle[key.cycle := seen];
        var tooMany := policy.runsPerCycle.Some? && seen > policy.runsPerCycle.value;
        if TooOld(key, policy, now) || tooMany {
          expired := expired + [i];
        }
      }
      n := n + 1;
    }
    assert ordered[..n] == ordered;
  }

  // `positions` are exactly the runs that expire, each once, oldest first and then by id.
  ghost predicate AreExpired(keys: Keys, policy: Policy, now: Moment, positions: seq<nat>) {
    && (forall i: nat :: i in positions <==> i < |keys| && Expires(keys, policy, now, i))
    && Distinct(positions) && Sorted(ByStartAndId(keys), positions)
  }

  ghost predicate AreIdsOf(keys: Keys, positions: seq<nat>, ids: seq<RunId>) {
    |ids| == |positions|
    && forall k :: 0 <= k < |ids| ==> positions[k] < |keys| && ids[k] == keys[positions[k]].id
  }

  /** The expired runs come oldest first, and of two that started together the one with the smaller id. */
  lemma OldestComeFirst(keys: Keys, policy: Policy, now: Moment, positions: seq<nat>, k: nat, l: nat)
    requires AreExpired(keys, policy, now, positions) && k < l < |positions|
    ensures positions[k] < |keys| && positions[l] < |keys|
    ensures var (a, b) := (keys[positions[k]], keys[positions[l]]);
            match (a.start, b.start)
            case (Some(sooner), Some(later)) => sooner < later || (sooner == later && a.id <= b.id)
            case (None, Some(later)) => 0 < later || a.id <= b.id
            case (Some(sooner), None) => sooner == 0 && a.id <= b.id
            case (None, None) => a.id <= b.id
  {
    assert positions[k] in positions && positions[l] in positions;
    assert ByStartAndId(keys)(positions[k], positions[l]);
  }

  /** `expired_run_ids` */
  method ExpiredRunIds(keys: Keys, policy: Policy, now: Moment) returns (ids: seq<RunId>)
    ensures exists positions :: AreExpired(keys, policy, now, positions) && AreIdsOf(keys, positions, ids)
    ensures policy.runsPerCycle.None? ==>
              forall id :: id in ids <==>
                && policy.days.Some?
                && exists i :: 0 <= i < |keys| && keys[i].id == id && keys[i].status != Running
                               && now - (if keys[i].start.Some? then keys[i].start.value else 0) > policy.days.value
  {
    if policy.days.None? && policy.runsPerCycle.None? {
      ghost var none: seq<nat> := [];
      assert AreExpired(keys, policy, now, none) && AreIdsOf(keys, none, []);
      return [];
    }
    var ordered := Reverse(SortBy(ByStart(keys), Upto(|keys|)));
    SortIsNewestFirst(keys);
    var expired := Expired(keys, policy, now, ordered);
    var sorted := SortBy(ByStartAndId(keys), expired);
    SortKeeps(ByStartAndId(keys), expired);
    assert forall k :: 0 <= k < |sorted| ==> sorted[k] in sorted;
    ids := seq(|sorted|, k requires 0 <= k < |sorted| => IdAt(keys, sorted[k]));
    assert AreExpired(keys, policy, now, sorted) && AreIdsOf(keys, sorted, ids);
    IdsOfOldRuns(keys, policy, now, sorted, ids);
  }

  lemma IdsOfOldRuns(keys: Keys, policy: Policy, now: Moment, positions: seq<nat>, ids: seq<RunId>)
    requires AreExpired(keys, policy, now, positions) && AreIdsOf(keys, positions, ids)
    requires policy.days.Some? || policy.runsPerCycle.Some?
    ensures policy.runsPerCycle.None? ==>
              forall id :: id in ids <==>
                exists i :: 0 <= i < |keys| && keys[i].id == id && keys[i].status != Running
                            && now - (if keys[i].start.Some? then keys[i].start.value else 0) > policy.days.value
  {
    if policy.runsPerCycle.None? {
      forall i: nat | i < |keys| && Expires(keys, policy, now, i) ensures keys[i].id in ids {
        var k :| 0 <= k < |positions| && positions[k] == i;
        assert ids[k] == keys[i].id;
      }
      forall id | id in ids ensures exists i: nat :: i < |keys| && keys[i].id == id && Expires(keys, policy, now, i) {
        var k :| 0 <= k < |ids| && ids[k] == id;
        assert positions[k] in positions;
      }
    }
  }
}
