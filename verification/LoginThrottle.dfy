/**
 The sliding-window throttle of failed sign-ins, as a class that prunes and re-inserts its
 deques in place, against a log of the failures it has kept.
 */
module LoginThrottle {
  import opened Wrappers

  const FAILURES_PER_ADDRESS_FACTOR := 4
  const MAX_TRACKED_KEYS := 10_000

  // `name:` with the stripped, lower-cased user name, or `addr:` with the client address.
  datatype Key = Name(user: Text) | Addr(address: Text)
  type Text = Token<string>

  type Log = map<Key, seq<real>>

  predicate Sorted(times: seq<real>) {
    forall i, j :: 0 <= i < j < |times| ==> times[i] <= times[j]
  }

  // `_recent`: drop from the left what has left the window.
  function Recent(times: seq<real>, now: real, window: real): seq<real> {
    if times != [] && now - times[0] >= window then Recent(times[1..], now, window) else times
  }

  function Get(log: Log, key: Key): seq<real> {
    if key in log then log[key] else []
  }

  // Failures of one key that are still in the window.
  function InWindow(times: seq<real>, now: real, window: real): nat {
    if times == [] then 0
    else InWindow(times[..|times| - 1], now, window) + if now - times[|times| - 1] < window then 1 else 0
  }

  function Wait(times: seq<real>, limit: nat, now: real, window: real): real
    requires limit >= 1
  {
    WaitAfter(Recent(times, now, window), limit, now, window)
  }

  // The wait until the oldest of the failures that count has left the window.
  function WaitAfter(recent: seq<real>, limit: nat, now: real, window: real): real
    requires limit >= 1
  {
    if |recent| >= limit then window - (now - recent[|recent| - limit]) else 0.0
  }

  function Max(a: real, b: real): real {
    if a > b then a else b
  }

  function Limit(key: Key, maxFailures: nat): nat {
    if key.Name? then maxFailures else maxFailures * FAILURES_PER_ADDRESS_FACTOR
  }

  // The longest wait over the two keys of an attempt.
  function WaitFor(log: Log, user: Text, address: Text, now: real, maxFailures: nat, window: real): real
    requires maxFailures >= 1
  {
    Max(Wait(Get(log, Name(user)), maxFailures, now, window),
        Wait(Get(log, Addr(address)), maxFailures * FAILURES_PER_ADDRESS_FACTOR, now, window))
  }

  function Seconds(wait: real): int {
    if wait > 0.0 then wait.Floor + 1 else 0
  }

  // ---- the window ----

  // Recent keeps exactly the failures in the window, because they are in order.
  lemma {:induction false} RecentSplits(times: seq<real>, now: real, window: real)
    requires Sorted(times)
    ensures var d := |times| - |Recent(times, now, window)|;
            && 0 <= d && Recent(times, now, window) == times[d..]
            && (forall i :: 0 <= i < d ==> now - times[i] >= window)
            && (forall i :: d <= i < |times| ==> now - times[i] < window)
  {
    if times != [] && now - times[0] >= window {
      RecentSplits(times[1..], now, window);
      var d := |times[1..]| - |Recent(times[1..], now, window)|;
      assert times[1..][d..] == times[d + 1..];
      forall i | 0 <= i < d + 1 ensures now - times[i] >= window {
        assert i > 0 ==> times[i] == times[1..][i - 1];
      }
      forall i | d + 1 <= i < |times| ensures now - times[i] < window {
        assert times[i] == times[1..][i - 1];
      }
    }
  }

  lemma {:induction false} CountIsSuffix(times: seq<real>, now: real, window: real, d: nat)
    requires d <= |times|
    requires forall i :: 0 <= i < d ==> now - times[i] >= window
    requires forall i :: d <= i < |times| ==> now - times[i] < window
    ensures InWindow(times, now, window) == |times| - d
  {
    if times != [] {
      CountIsSuffix(times[..|times| - 1], now, window, if d < |times| then d else d - 1);
    }
  }

  // Pruning what expired earlier does not change what is recent now.
  lemma {:induction false} PruningIsInvisible(times: seq<real>, d: nat, now: real, window: real)
    requires d <= |times| && forall i :: 0 <= i < d ==> now - times[i] >= window
    ensures Recent(times, now, window) == Recent(times[d..], now, window)
  {
    if d > 0 {
      assert times[1..][d - 1..] == times[d..];
      PruningIsInvisible(times[1..], d - 1, now, window);
    } else {
      assert times[0..] == times;
    }
  }

  // Everything about one key at a later moment t, if nothing else fails meanwhile.
  lemma WaitIsExact(times: seq<real>, limit: nat, now: real, window: real, t: real)
    requires Sorted(times) && limit >= 1 && now <= t
    ensures Wait(times, limit, now, window) > 0.0 <==> InWindow(times, now, window) >= limit
    ensures InWindow(times, t, window) >= limit <==> t < now + Wait(times, limit, now, window)
  {
    RecentSplits(times, now, window);
    RecentSplits(times, t, window);
    var d, e := |times| - |Recent(times, now, window)|, |times| - |Recent(times, t, window)|;
    CountIsSuffix(times, now, window, d);
    CountIsSuffix(times, t, window, e);
    assert e < |times| ==> t - times[e] < window;
    assert d <= e;
    if |times| - d >= limit {
      assert Recent(times, now, window)[|times| - d - limit] == times[|times| - limit];
    }
  }

  ghost predicate Blocked(log: Log, user: Text, address: Text, now: real, maxFailures: nat, window: real) {
    || InWindow(Get(log, Name(user)), now, window) >= maxFailures
    || InWindow(Get(log, Addr(address)), now, window) >= maxFailures * FAILURES_PER_ADDRESS_FACTOR
  }

  /**
   What `retry_after` promises, for every moment t from now on at which nothing else failed:
   it is positive exactly when a key has reached its limit, the attempt stays blocked for
   the whole wait and no longer, and the answer in whole seconds is safe and less than a
   second too long.
   */
  lemma RetryIsSafeAndTight(log: Log, user: Text, address: Text, now: real, maxFailures: nat, window: real, t: real)
    requires maxFailures >= 1 && now <= t && forall key <- log :: Sorted(log[key])
    ensures var wait := WaitFor(log, user, address, now, maxFailures, window);
            var r := Seconds(wait);
            && (r > 0 <==> Blocked(log, user, address, now, maxFailures, window))
            && (Blocked(log, user, address, t, maxFailures, window) <==> t < now + wait)
            && (r > 0 ==> (r - 1) as real <= wait < r as real)
            && (t >= now + r as real ==> !Blocked(log, user, address, t, maxFailures, window))
  {
    WaitIsExact(Get(log, Name(user)), maxFailures, now, window, t);
    WaitIsExact(Get(log, Addr(address)), maxFailures * FAILURES_PER_ADDRESS_FACTOR, now, window, t);
  }

  // ---- the class ----

  function Without(order: seq<Key>, key: Key): seq<Key> {
    if order == [] then []
    else if order[0] == key then Without(order[1..], key)
    else [order[0]] + Without(order[1..], key)
  }

  // A dict key popped and inserted again goes last.
  function Touch(order: seq<Key>, key: Key): seq<Key> {
    Without(order, key) + [key]
  }

  function Note(log: Log, key: Key, now: real): Log {
    log[key := Get(log, key) + [now]]
  }

  function Excess(n: nat): (x: nat)
    ensures x <= n
  {
    if n > MAX_TRACKED_KEYS then n - MAX_TRACKED_KEYS else 0
  }

  function Front(order: seq<Key>, n: nat): set<Key>
    requires n <= |order|
  {
    set i | 0 <= i < n :: order[i]
  }

  ghost predicate InOrder(order: seq<Key>, log: Log) {
    forall i, j :: 0 <= i < j < |order| ==> Last(log, order[i]) <= Last(log, order[j])
  }

  // The order of the tracked keys is the order of their last failures.
  ghost predicate Ordered(order: seq<Key>, log: Log) {
    && Distinct(order)
    && (forall key :: key in order <==> key in log)
    && (forall key <- log :: log[key] != [] && Sorted(log[key]))
    && InOrder(order, log)
  }

  function Last(log: Log, key: Key): real {
    if key in log && log[key] != [] then log[key][|log[key]| - 1] else 0.0
  }

  ghost predicate UpTo(log: Log, now: real) {
    forall key <- log :: forall i :: 0 <= i < |log[key]| ==> log[key][i] <= now
  }

  lemma {:induction false} WithoutIs(order: seq<Key>, key: Key)
    requires Distinct(order)
    ensures Distinct(Without(order, key)) && |Without(order, key)| <= |order|
    ensures forall k :: k in Without(order, key) <==> k in order && k != key
  {
    if order != [] {
      assert order == [order[0]] + order[1..];
      WithoutIs(order[1..], key);
      var w := Without(order[1..], key);
      forall j | 0 <= j < |w| ensures w[j] != order[0] {
        assert w[j] in order[1..];
      }
    }
  }

  lemma {:induction false} WithoutKeepsOrder(order: seq<Key>, key: Key, log: Log)
    requires Distinct(order) && InOrder(order, log)
    ensures InOrder(Without(order, key), log)
  {
    if order != [] {
      var rest := order[1..];
      assert forall i :: 0 <= i < |rest| ==> rest[i] == order[i + 1];
      WithoutKeepsOrder(rest, key, log);
      WithoutIs(rest, key);
      var w := Without(rest, key);
      forall j | 0 <= j < |w| ensures Last(log, order[0]) <= Last(log, w[j]) {
        assert w[j] in rest;
        var k :| 0 <= k < |rest| && rest[k] == w[j];
      }
    }
  }

  lemma TouchKeepsOrder(order: seq<Key>, log: Log, key: Key, now: real)
    requires Ordered(order, log) && UpTo(log, now)
    ensures Ordered(Touch(order, key), Note(log, key, now)) && UpTo(Note(log, key, now), now)
  {
    WithoutIs(order, key);
    WithoutKeepsOrder(order, key, log);
    NoteKeepsLog(log, key, now);
    NewestGoesLast(Without(order, key), log, key, now);
  }

  lemma NewestGoesLast(w: seq<Key>, log: Log, key: Key, now: real)
    requires Distinct(w) && key !in w && InOrder(w, log)
    requires UpTo(log, now) && forall k <- w :: k in log && log[k] != []
    ensures Distinct(w + [key]) && InOrder(w + [key], Note(log, key, now))
  {
    var all, l := w + [key], Note(log, key, now);
    forall i | 0 <= i < |w| ensures Last(l, w[i]) == Last(log, w[i]) <= now {
      assert w[i] in w;
    }
    forall i, j | 0 <= i < j < |all| ensures all[i] != all[j] && Last(l, all[i]) <= Last(l, all[j]) {
      assert all[i] == w[i] && (j < |w| ==> all[j] == w[j]);
    }
  }

  lemma NoteKeepsLog(log: Log, key: Key, now: real)
    requires UpTo(log, now) && forall k <- log :: log[k] != [] && Sorted(log[k])
    ensures UpTo(Note(log, key, now), now)
    ensures forall k <- Note(log, key, now) :: Note(log, key, now)[k] != [] && Sorted(Note(log, key, now)[k])
  {
    assert key in log ==> forall i :: 0 <= i < |log[key]| ==> log[key][i] <= now;
  }

  // The stored deque is what pruning left of the kept failures.
  ghost predicate Pruned(stored: seq<real>, kept: seq<real>, latest: real, window: real) {
    && |stored| <= |kept| && stored == kept[|kept| - |stored|..]
    && forall i :: 0 <= i < |kept| - |stored| ==> latest - kept[i] >= window
  }

  ghost predicate Tracked(failures: Log, kept: Log, latest: real, window: real, key: Key) {
    (key in failures <==> key in kept) && Pruned(Get(failures, key), Get(kept, key), latest, window)
  }

  ghost predicate Good(order: seq<Key>, failures: Log, kept: Log, latest: real, window: real) {
    && Ordered(order, kept) && UpTo(kept, latest)
    && forall key {:trigger Tracked(failures, kept, latest, window, key)} :: Tracked(failures, kept, latest, window, key)
  }

  lemma PrunedLater(stored: seq<real>, kept: seq<real>, latest: real, window: real, now: real)
    requires Pruned(stored, kept, latest, window) && latest <= now && Sorted(kept)
    ensures Recent(stored, now, window) == Recent(kept, now, window)
    ensures Pruned(Recent(stored, now, window), kept, now, window)
  {
    var d := |kept| - |stored|;
    PruningIsInvisible(kept, d, now, window);
    RecentSplits(kept, now, window);
  }

  // Reading a key at a later moment prunes its stored deque.
  lemma GoodPrune(order: seq<Key>, failures: Log, kept: Log, latest: real, window: real, key: Key, now: real)
    requires Good(order, failures, kept, latest, window) && latest <= now
    ensures Recent(Get(failures, key), now, window) == Recent(Get(kept, key), now, window)
    ensures Good(order, failures, kept, now, window)
    ensures key in failures ==>
              Good(order, failures[key := Recent(failures[key], now, window)], kept, now, window)
  {
    assert Tracked(failures, kept, latest, window, key);
    PrunedLater(Get(failures, key), Get(kept, key), latest, window, now);
    forall k ensures Tracked(failures, kept, now, window, k) {
      assert Tracked(failures, kept, latest, window, k);
    }
    if key in failures {
      var f := failures[key := Recent(failures[key], now, window)];
      forall k ensures Tracked(f, kept, now, window, k) {
        assert Tracked(failures, kept, now, window, k);
      }
    }
  }

  // Appending a failure after the prune, and moving the key to the end.
  lemma GoodFail(order: seq<Key>, failures: Log, kept: Log, window: real, key: Key, now: real)
    requires Good(order, failures, kept, now, window)
    ensures Good(Touch(order, key), Note(failures, key, now), Note(kept, key, now), now, window)
  {
    TouchKeepsOrder(order, kept, key, now);
    forall k ensures Tracked(Note(failures, key, now), Note(kept, key, now), now, window, k) {
      assert Tracked(failures, kept, now, window, k);
      NotedIsTracked(failures, kept, now, window, key, k);
    }
  }

  lemma NotedIsTracked(failures: Log, kept: Log, now: real, window: real, key: Key, k: Key)
    requires Tracked(failures, kept, now, window, k)
    ensures Tracked(Note(failures, key, now), Note(kept, key, now), now, window, k)
  {
    if k == key {
      var stored, all := Get(failures, key), Get(kept, key);
      assert (all + [now])[|all| - |stored|..] == all[|all| - |stored|..] + [now];
    }
  }

  lemma GoodDrop(order: seq<Key>, failures: Log, kept: Log, latest: real, window: real, key: Key)
    requires Good(order, failures, kept, latest, window)
    ensures Good(Without(order, key), failures - {key}, kept - {key}, latest, window)
  {
    var w := Without(order, key);
    WithoutIs(order, key);
    WithoutKeepsOrder(order, key, kept);
    forall i | 0 <= i < |w| ensures Last(kept - {key}, w[i]) == Last(kept, w[i]) {
      assert w[i] in w;
    }
    forall k ensures Tracked(failures - {key}, kept - {key}, latest, window, k) {
      assert Tracked(failures, kept, latest, window, k);
      DropTracked(failures, kept, latest, window, key, k);
    }
  }

  lemma DropTracked(failures: Log, kept: Log, latest: real, window: real, key: Key, k: Key)
    requires Tracked(failures, kept, latest, window, k)
    ensures Tracked(failures - {key}, kept - {key}, latest, window, k)
  {
  }

  lemma {:induction false} WithoutAbsent(order: seq<Key>, key: Key)
    requires key !in order
    ensures Without(order, key) == order
  {
    if order != [] {
      assert order == [order[0]] + order[1..];
      WithoutAbsent(order[1..], key);
    }
  }

  lemma WithoutFirst(order: seq<Key>)
    requires order != [] && Distinct(order)
    ensures Without(order, order[0]) == order[1..]
  {
    assert order[0] !in order[1..];
    WithoutAbsent(order[1..], order[0]);
  }

  lemma DropFirst(order: seq<Key>, failures: Log, kept: Log, latest: real, window: real)
    requires Good(order, failures, kept, latest, window) && order != []
    ensures Good(order[1..], failures - {order[0]}, kept - {order[0]}, latest, window)
  {
    GoodDrop(order, failures, kept, latest, window, order[0]);
    WithoutFirst(order);
  }

  lemma FrontStep(all: seq<Key>, log: Log, n: nat)
    requires n < |all|
    ensures all[n..][1..] == all[n + 1..] && all[n..][0] == all[n]
    ensures log - Front(all, n) - {all[n]} == log - Front(all, n + 1)
  {
    assert Front(all, n + 1) == Front(all, n) + {all[n]};
  }

  // ---- the calls, one after the other ----

  datatype Call = Fail(user: Text, address: Text, at: real) | SignIn(user: Text)

  // The tracked keys in their order, with every failure kept of each.
  datatype State = State(order: seq<Key>, log: Log)

  function FailKey(s: State, key: Key, now: real): State {
    State(Touch(s.order, key), Note(s.log, key, now))
  }

  function DropOldest(s: State): State {
    var n := Excess(|s.order|);
    State(s.order[n..], s.log - Front(s.order, n))
  }

  function Forget(s: State, key: Key): State {
    State(Without(s.order, key), s.log - {key})
  }

  function After(calls: seq<Call>): State {
    if calls == [] then State([], map[])
    else
      var before := After(calls[..|calls| - 1]);
      match calls[|calls| - 1]
      case Fail(user, address, at) => DropOldest(FailKey(FailKey(before, Name(user), at), Addr(address), at))
      case SignIn(user) => Forget(before, Name(user))
  }

  class Throttle {
    const maxFailures: nat
    const windowS: real
    var order: seq<Key>             // the dict's keys, in insertion order
    var failures: Log               // the dict
    ghost var kept: Log             // every failure of each tracked key, pruned or not
    ghost var latest: real          // the last clock reading
    ghost var calls: seq<Call>      // every failure and sign-in so far

    ghost predicate Valid()
      reads this
    {
      && maxFailures >= 1 && Good(order, failures, kept, latest, windowS) && |order| <= MAX_TRACKED_KEYS
      && State(order, kept) == After(calls)
    }

    constructor (maxFailures: nat, windowS: real, ghost start: real)
      requires maxFailures >= 1
      ensures Valid() && kept == map[] && latest == start && calls == []
      ensures this.maxFailures == maxFailures && this.windowS == windowS
    {
      this.maxFailures, this.windowS := maxFailures, windowS;
      order, failures, kept, latest, calls := [], map[], map[], start, [];
    }

    // `_recent`: prunes the stored deque in place, if there is one.
    method RecentOf(key: Key, now: real) returns (times: seq<real>)
      requires Good(order, failures, kept, latest, windowS) && now >= latest
      modifies this`failures, this`latest
      ensures Good(order, failures, kept, latest, windowS) && latest == now
      ensures times == Recent(Get(kept, key), now, windowS) && failures.Keys == old(failures).Keys
      ensures times == Get(failures, key)
    {
      times := Get(failures, key);
      GoodPrune(order, failures, kept, latest, windowS, key, now);
      while times != [] && now - times[0] >= windowS
        invariant Recent(times, now, windowS) == Recent(Get(failures, key), now, windowS)
      {
        times := times[1..];
      }
      if key in failures {
        failures := failures[key := times];
      }
      latest := now;
    }

    // One turn of the loop in `retry_after`.
    method WaitOf(key: Key, now: real) returns (wait: real)
      requires maxFailures >= 1 && Good(order, failures, kept, latest, windowS) && now >= latest
      modifies this`failures, this`latest
      ensures Good(order, failures, kept, latest, windowS) && latest == now
      ensures wait == Wait(Get(kept, key), Limit(key, maxFailures), now, windowS)
    {
      var limit := Limit(key, maxFailures);
      var times := RecentOf(key, now);
      wait := 0.0;
      if |times| >= limit {
        wait := windowS - (now - times[|times| - limit]);
      }
      assert wait == WaitAfter(times, limit, now, windowS);
    }

    method RetryAfter(user: Text, address: Text, now: real) returns (seconds: int)
      requires Valid() && now >= latest
      modifies this`failures, this`latest
      ensures Valid() && latest == now
      ensures seconds == Seconds(WaitFor(kept, user, address, now, maxFailures, windowS))
      ensures seconds > 0 <==> || InWindow(Memory(calls, Name(user)), now, windowS) >= maxFailures
                               || InWindow(Memory(calls, Addr(address)), now, windowS) >= 4 * maxFailures
    {
      var wait := 0.0;
      var keys := [Name(user), Addr(address)];
      var i := 0;
      while i < |keys|
        invariant 0 <= i <= 2 && Good(order, failures, kept, latest, windowS)
        invariant now >= latest && (i > 0 ==> latest == now)
        invariant wait == Max(0.0, WaitUpTo(kept, keys, i, now, maxFailures, windowS))
      {
        var more := WaitOf(keys[i], now);
        wait := Max(wait, more);
        i := i + 1;
      }
      seconds := Seconds(wait);
      KeptIsExact(calls);
      RetryIsSafeAndTight(kept, user, address, now, maxFailures, windowS, now);
    }

    // One key of `failed`.
    method FailOne(key: Key, now: real)
      requires Good(order, failures, kept, latest, windowS) && now >= latest
      modifies this
      ensures Good(order, failures, kept, latest, windowS) && latest == now
      ensures order == Touch(old(order), key) && kept == Note(old(kept), key, now) && calls == old(calls)
    {
      var times := RecentOf(key, now);
      GoodFail(order, failures, kept, windowS, key, now);
      times := times + [now];
      order := Without(order, key);
      order := order + [key];
      failures := failures[key := times];
      kept := Note(kept, key, now);
    }

    /**
     The two keys are noted and moved to the end; then keys are dropped down to the cap, and
     whoever is dropped failed last no later than everyone who stays.
     */
    method Failed(user: Text, address: Text, now: real)
      requires Valid() && now >= latest
      modifies this
      ensures Valid() && latest == now
      ensures var touched := Touch(Touch(old(order), Name(user)), Addr(address));
              var noted := Note(Note(old(kept), Name(user), now), Addr(address), now);
              && order == touched[Excess(|touched|)..] && kept == noted - Front(touched, Excess(|touched|))
              && (forall i, j :: 0 <= i < Excess(|touched|) <= j < |touched| ==>
                    Last(noted, touched[i]) <= Last(noted, touched[j]))
      ensures calls == old(calls) + [Fail(user, address, now)]
    {
      FailOne(Name(user), now);
      FailOne(Addr(address), now);
      Evict();
      calls := calls + [Fail(user, address, now)];
      assert calls[..|calls| - 1] == old(calls);
    }

    // The eviction loop of `failed`.
    method Evict()
      requires Good(order, failures, kept, latest, windowS)
      modifies this`order, this`failures, this`kept
      ensures Good(order, failures, kept, latest, windowS) && |order| <= MAX_TRACKED_KEYS
      ensures order == old(order)[Excess(|old(order)|)..]
      ensures kept == old(kept) - Front(old(order), Excess(|old(order)|))
    {
      ghost var all, log := order, kept;
      ghost var n := 0;
      assert all[0..] == all && log - Front(all, 0) == log;
      while |order| > MAX_TRACKED_KEYS
        invariant 0 <= n <= Excess(|all|)
        invariant Good(order, failures, kept, latest, windowS)
        invariant |order| == |all| - n && order == all[n..] && kept == log - Front(all, n)
        decreases |order|
      {
        FrontStep(all, log, n);
        PopFirst();
        n := n + 1;
      }
    }

    // `self._failures.pop(next(iter(self._failures)))`.
    method PopFirst()
      requires Good(order, failures, kept, latest, windowS) && order != []
      modifies this`order, this`failures, this`kept
      ensures Good(order, failures, kept, latest, windowS)
      ensures order == old(order)[1..] && kept == old(kept) - {old(order)[0]}
    {
      DropFirst(order, failures, kept, latest, windowS);
      failures := failures - {order[0]};
      kept := kept - {order[0]};
      order := order[1..];
    }

    /** A sign-in clears the name's failures and nothing else. */
    method Succeeded(user: Text)
      requires Valid()
      modifies this
      ensures Valid() && latest == old(latest)
      ensures kept == old(kept) - {Name(user)} && order == Without(old(order), Name(user))
      ensures calls == old(calls) + [SignIn(user)]
    {
      GoodDrop(order, failures, kept, latest, windowS, Name(user));
      WithoutIs(order, Name(user));
      failures := failures - {Name(user)};
      kept := kept - {Name(user)};
      order := Without(order, Name(user));
      calls := calls + [SignIn(user)];
      assert calls[..|calls| - 1] == old(calls);
    }
  }

  // The longest wait over the first n keys.
  function WaitUpTo(log: Log, keys: seq<Key>, n: nat, now: real, maxFailures: nat, window: real): real
    requires n <= |keys| && maxFailures >= 1
  {
    if n == 0 then 0.0
    else Max(WaitUpTo(log, keys, n - 1, now, maxFailures, window),
             Wait(Get(log, keys[n - 1]), Limit(keys[n - 1], maxFailures), now, window))
  }

  // ---- what is remembered, over any number of calls ----

  predicate Hits(c: Call, key: Key) {
    c.Fail? && (key == Name(c.user) || key == Addr(c.address))
  }

  predicate Clears(c: Call, key: Key) {
    c.SignIn? && key == Name(c.user)
  }

  // The keys that failed after the last failure of `key` and have not signed in since.
  function Later(calls: seq<Call>, key: Key): set<Key> {
    if calls == [] then {}
    else
      var before, c := Later(calls[..|calls| - 1], key), calls[|calls| - 1];
      if c.SignIn? then before - {Name(c.user)}
      else if key == Addr(c.address) then {}
      else if key == Name(c.user) then {Addr(c.address)}
      else before + {Name(c.user), Addr(c.address)}
  }

  // The times at which `key` failed.
  function FailuresOf(calls: seq<Call>, key: Key): seq<real> {
    if calls == [] then []
    else
      var before, c := FailuresOf(calls[..|calls| - 1], key), calls[|calls| - 1];
      if Hits(c, key) then before + [c.at] else before
  }

  // Those of them that are not forgotten: a sign-in of the name forgets them, and so does the
  // failure after which as many other keys as the cap have failed since.
  function Memory(calls: seq<Call>, key: Key): seq<real> {
    if calls == [] then []
    else
      var before, c := Memory(calls[..|calls| - 1], key), calls[|calls| - 1];
      if Hits(c, key) then before + [c.at]
      else if Clears(c, key) || |Later(calls, key)| >= MAX_TRACKED_KEYS then []
      else before
  }

  function Behind(order: seq<Key>, key: Key): set<Key> {
    if order == [] then {}
    else if order[0] == key then (set k | k in order[1..])
    else Behind(order[1..], key)
  }

  ghost predicate RecallsKey(s: State, calls: seq<Call>, key: Key) {
    && (key in s.order <==> key in s.log)
    && (key in s.log <==> Memory(calls, key) != [])
    && Get(s.log, key) == Memory(calls, key)
    && (key in s.order ==> Behind(s.order, key) == Later(calls, key))
  }

  ghost predicate Recalls(s: State, calls: seq<Call>) {
    && Distinct(s.order) && |s.order| <= MAX_TRACKED_KEYS
    && forall key {:trigger RecallsKey(s, calls, key)} :: RecallsKey(s, calls, key)
  }

  lemma TouchIsDistinct(order: seq<Key>, key: Key)
    requires Distinct(order)
    ensures Distinct(Touch(order, key)) && forall k :: k in Touch(order, key) <==> k in order || k == key
  {
    WithoutIs(order, key);
    var w := Without(order, key);
    assert forall i :: 0 <= i < |w| ==> w[i] in w;
  }

  lemma {:induction false} BehindTouched(order: seq<Key>, key: Key, y: Key)
    requires Distinct(order) && key in order && y != key
    ensures Behind(Touch(order, y), key) == Behind(order, key) + {y}
  {
    var rest := order[1..];
    assert order == [order[0]] + rest;
    if order[0] == key {
      WithoutIs(rest, y);
      assert Touch(order, y)[1..] == Without(rest, y) + [y];
    } else {
      BehindTouched(rest, key, y);
      if order[0] != y {
        assert Touch(order, y)[1..] == Touch(rest, y);
      }
    }
  }

  lemma {:induction false} LastIsNewest(order: seq<Key>, key: Key)
    requires key !in order
    ensures Behind(order + [key], key) == {}
  {
    if order != [] {
      assert (order + [key])[1..] == order[1..] + [key];
      LastIsNewest(order[1..], key);
    } else {
      assert ([] + [key])[1..] == [];
    }
  }

  lemma {:induction false} InTheEnd(order: seq<Key>, n: nat, key: Key)
    requires Distinct(order) && key in order && n <= |order|
    ensures key in order[n..] <==> |Behind(order, key)| < |order| - n
  {
    var rest := order[1..];
    assert order == [order[0]] + rest;
    if order[0] == key {
      DistinctSize(rest);
      assert n > 0 ==> order[n..] == rest[n - 1..];
    } else {
      InTheEnd(rest, if n > 0 then n - 1 else 0, key);
      BehindIsSmall(rest, key);
      assert n > 0 ==> order[n..] == rest[n - 1..];
    }
  }

  lemma {:induction false} DistinctSize(order: seq<Key>)
    requires Distinct(order)
    ensures |set k | k in order| == |order|
  {
    if order != [] {
      var rest := order[1..];
      assert order == [order[0]] + rest;
      DistinctSize(rest);
      assert (set k | k in order) == (set k | k in rest) + {order[0]};
    }
  }

  lemma {:induction false} BehindIsSmall(order: seq<Key>, key: Key)
    requires Distinct(order)
    ensures |Behind(order, key)| <= |order|
  {
    if order != [] {
      assert order == [order[0]] + order[1..];
      DistinctSize(order[1..]);
      BehindIsSmall(order[1..], key);
    }
  }

  lemma {:induction false} BehindWithout(order: seq<Key>, key: Key, y: Key)
    requires Distinct(order) && key in order && y != key
    ensures Behind(Without(order, y), key) == Behind(order, key) - {y}
  {
    var rest := order[1..];
    assert order == [order[0]] + rest;
    if order[0] == key {
      WithoutIs(rest, y);
      assert Without(order, y)[1..] == Without(rest, y);
    } else {
      BehindWithout(rest, key, y);
      if order[0] != y {
        assert Without(order, y)[1..] == Without(rest, y);
      }
    }
  }

  lemma {:induction false} BehindInTheEnd(order: seq<Key>, n: nat, key: Key)
    requires Distinct(order) && n <= |order| && key in order[n..]
    ensures Behind(order[n..], key) == Behind(order, key)
  {
    if n > 0 {
      var rest := order[1..];
      assert order == [order[0]] + rest && order[n..] == rest[n - 1..];
      assert key in rest && order[0] !in rest;
      BehindInTheEnd(rest, n - 1, key);
    } else {
      assert order[0..] == order;
    }
  }

  lemma BehindLast(order: seq<Key>, key: Key)
    requires Distinct(order)
    ensures Behind(Touch(order, key), key) == {}
  {
    WithoutIs(order, key);
    LastIsNewest(Without(order, key), key);
  }

  // Both keys of a failure, before anything is dropped.
  lemma BehindBoth(order: seq<Key>, a: Key, b: Key, key: Key)
    requires Distinct(order) && a != b && (key in order || key == a || key == b)
    ensures Distinct(Touch(Touch(order, a), b)) && key in Touch(Touch(order, a), b)
    ensures Behind(Touch(Touch(order, a), b), key)
         == if key == b then {} else if key == a then {b} else Behind(order, key) + {a, b}
  {
    var one := Touch(order, a);
    TouchIsDistinct(order, a);
    TouchIsDistinct(one, b);
    if key == b {
      BehindLast(one, b);
    } else if key == a {
      BehindLast(order, a);
      BehindTouched(one, a, b);
    } else {
      BehindTouched(order, key, a);
      BehindTouched(one, key, b);
    }
  }

  lemma DistinctParts(order: seq<Key>, n: nat)
    requires Distinct(order) && n <= |order|
    ensures Distinct(order[n..])
    ensures forall key :: key in Front(order, n) <==> key in order && key !in order[n..]
  {
    var end := order[n..];
    assert forall i :: 0 <= i < |end| ==> end[i] == order[n + i];
    forall key ensures key in Front(order, n) <==> key in order && key !in end {
      assert order == order[..n] + end;
    }
  }

  // Dropping keeps exactly the keys that fewer others than the cap came after.
  lemma DroppedIs(order: seq<Key>, key: Key)
    requires Distinct(order)
    ensures var end := order[Excess(|order|)..];
            && (key in end <==> key in order && |Behind(order, key)| < MAX_TRACKED_KEYS)
            && (key in end ==> Behind(end, key) == Behind(order, key))
  {
    var n := Excess(|order|);
    if key in order {
      InTheEnd(order, n, key);
      InTheEnd(order, 0, key);
      assert order[0..] == order;
      if key in order[n..] {
        BehindInTheEnd(order, n, key);
      }
    } else {
      assert order == order[..n] + order[n..];
    }
  }

  lemma FailKeeps(s: State, calls: seq<Call>, c: Call, all: seq<Call>)
    requires Recalls(s, calls) && c.Fail? && all == calls + [c]
    ensures Recalls(DropOldest(FailKey(FailKey(s, Name(c.user), c.at), Addr(c.address), c.at)), all)
  {
    var a, b := Name(c.user), Addr(c.address);
    var t := FailKey(FailKey(s, a, c.at), b, c.at);
    TouchIsDistinct(s.order, a);
    TouchIsDistinct(Touch(s.order, a), b);
    DistinctParts(t.order, Excess(|t.order|));
    forall key ensures RecallsKey(DropOldest(t), all, key) {
      assert RecallsKey(s, calls, key);
      FailRecalls(s, t, calls, c, all, key);
    }
  }

  // What one failure leaves of one key.
  lemma FailRecalls(s: State, t: State, calls: seq<Call>, c: Call, all: seq<Call>, key: Key)
    requires RecallsKey(s, calls, key) && c.Fail? && all == calls + [c] && Distinct(s.order)
    requires t == FailKey(FailKey(s, Name(c.user), c.at), Addr(c.address), c.at) && Distinct(t.order)
    requires key in t.order <==> key in s.order || key == Name(c.user) || key == Addr(c.address)
    requires key in Front(t.order, Excess(|t.order|)) <==> key in t.order && key !in t.order[Excess(|t.order|)..]
    ensures RecallsKey(DropOldest(t), all, key)
  {
    assert all[..|all| - 1] == calls;
    DroppedIs(t.order, key);
    if key in t.order {
      BehindBoth(s.order, Name(c.user), Addr(c.address), key);
    }
    assert (key in t.log <==> key in t.order)
           && Get(t.log, key) == if Hits(c, key) then Get(s.log, key) + [c.at] else Get(s.log, key);
  }

  lemma SignInKeeps(s: State, calls: seq<Call>, c: Call, all: seq<Call>)
    requires Recalls(s, calls) && c.SignIn? && all == calls + [c]
    ensures Recalls(Forget(s, Name(c.user)), all)
  {
    var y := Name(c.user);
    WithoutIs(s.order, y);
    assert all[..|all| - 1] == calls;
    forall key ensures RecallsKey(Forget(s, y), all, key) {
      assert RecallsKey(s, calls, key);
      if key in s.order && key != y {
        BehindWithout(s.order, key, y);
        InTheEnd(s.order, 0, key);
        assert s.order[0..] == s.order;
        SubsetSize(Behind(s.order, key) - {y}, Behind(s.order, key));
      }
    }
  }

  /**
   Whatever failed and signed in before, what is kept of a key is exactly what is remembered of
   it: the times at which it failed since it was last forgotten, in order.
   */
  lemma {:induction false} KeptIsExact(calls: seq<Call>)
    ensures Recalls(After(calls), calls)
    ensures forall key :: (key in After(calls).log <==> Memory(calls, key) != [])
                          && Get(After(calls).log, key) == Memory(calls, key)
  {
    if calls == [] {
      forall key ensures RecallsKey(After(calls), calls, key) {
      }
    } else {
      var front, c := calls[..|calls| - 1], calls[|calls| - 1];
      assert calls == front + [c];
      KeptIsExact(front);
      if c.Fail? {
        FailKeeps(After(front), front, c, calls);
      } else {
        SignInKeeps(After(front), front, c, calls);
      }
    }
    forall key ensures (key in After(calls).log <==> Memory(calls, key) != []) && Get(After(calls).log, key) == Memory(calls, key) {
      assert RecallsKey(After(calls), calls, key);
    }
  }

  // Nothing after the first m calls forgets the key.
  predicate RemembersSince(calls: seq<Call>, key: Key, m: nat)
    requires m <= |calls|
  {
    m == |calls|
    || (RemembersSince(calls[..|calls| - 1], key, m)
        && !Clears(calls[|calls| - 1], key) && |Later(calls, key)| < MAX_TRACKED_KEYS)
  }

  lemma {:induction false} MemorySince(calls: seq<Call>, key: Key, m: nat)
    requires m <= |calls| && RemembersSince(calls, key, m)
    ensures Memory(calls, key) == Memory(calls[..m], key) + FailuresOf(calls[m..], key)
  {
    if m == |calls| {
      assert calls[..m] == calls;
    } else {
      var front, later := calls[..|calls| - 1], calls[m..];
      MemorySince(front, key, m);
      assert front[..m] == calls[..m] && later[..|later| - 1] == front[m..];
    }
  }

  lemma {:induction false} MemoryIsRecent(calls: seq<Call>, key: Key)
    ensures var d := |FailuresOf(calls, key)| - |Memory(calls, key)|;
            0 <= d && Memory(calls, key) == FailuresOf(calls, key)[d..]
  {
    if calls != [] {
      MemoryIsRecent(calls[..|calls| - 1], key);
    }
  }

  /**
   A key's failures are remembered exactly as long as the name did not sign in and fewer other
   keys than the cap have failed since its last one.
   */
  lemma {:induction false} RememberedExactly(calls: seq<Call>, key: Key)
    ensures key in After(calls).log <==>
              exists m :: 0 <= m < |calls| && Hits(calls[m], key) && RemembersSince(calls, key, m + 1)
  {
    KeptIsExact(calls);
    MemoryLasts(calls, key);
  }

  lemma {:induction false} MemoryLasts(calls: seq<Call>, key: Key)
    ensures Memory(calls, key) != [] <==>
              exists m :: 0 <= m < |calls| && Hits(calls[m], key) && RemembersSince(calls, key, m + 1)
  {
    if calls != [] {
      MemoryLasts(calls[..|calls| - 1], key);
      if Hits(calls[|calls| - 1], key) {
        assert RemembersSince(calls, key, (|calls| - 1) + 1);
      } else {
        LastsOneMore(calls, key);
      }
    }
  }

  lemma LastsOneMore(calls: seq<Call>, key: Key)
    requires calls != [] && !Hits(calls[|calls| - 1], key)
    requires var front := calls[..|calls| - 1];
             Memory(front, key) != [] <==>
               exists m :: 0 <= m < |front| && Hits(front[m], key) && RemembersSince(front, key, m + 1)
    ensures Memory(calls, key) != [] <==>
              exists m :: 0 <= m < |calls| && Hits(calls[m], key) && RemembersSince(calls, key, m + 1)
  {
    var front, c := calls[..|calls| - 1], calls[|calls| - 1];
    if m :| 0 <= m < |front| && Hits(front[m], key) && RemembersSince(front, key, m + 1) {
      if !Clears(c, key) && |Later(calls, key)| < MAX_TRACKED_KEYS {
        assert Hits(calls[m], key) && RemembersSince(calls, key, m + 1);
      }
    }
    if m :| 0 <= m < |calls| && Hits(calls[m], key) && RemembersSince(calls, key, m + 1) {
      assert m < |front| && Hits(front[m], key) && RemembersSince(front, key, m + 1);
    }
  }

  // ---- what a sequence of failures leads to ----

  // Calls enter in the order of their clock readings.
  ghost predicate InTime(calls: seq<Call>, now: real) {
    && (forall i, j :: 0 <= i < j < |calls| && calls[i].Fail? && calls[j].Fail? ==> calls[i].at <= calls[j].at)
    && (forall i :: 0 <= i < |calls| && calls[i].Fail? ==> calls[i].at <= now)
  }

  // The failures of `key` from call m on that are in the window.
  function Within(calls: seq<Call>, key: Key, m: nat, now: real, window: real): set<nat> {
    set i: nat | m <= i < |calls| && Hits(calls[i], key) && now - calls[i].at < window
  }

  lemma {:induction false} FailuresInTime(calls: seq<Call>, key: Key, now: real)
    requires InTime(calls, now)
    ensures Sorted(FailuresOf(calls, key)) && forall t <- FailuresOf(calls, key) :: t <= now
  {
    if calls != [] {
      var front, c := calls[..|calls| - 1], calls[|calls| - 1];
      FailuresInTime(front, key, if c.Fail? then c.at else now);
      var before := FailuresOf(front, key);
      assert forall i :: 0 <= i < |before| ==> before[i] in before;
    }
  }

  lemma WithinOneMore(calls: seq<Call>, key: Key, m: nat, now: real, window: real)
    requires m < |calls|
    ensures var c := calls[|calls| - 1];
            |Within(calls, key, m, now, window)| == |Within(calls[..|calls| - 1], key, m, now, window)|
                                                    + if Hits(c, key) && now - c.at < window then 1 else 0
  {
    var last := |calls| - 1;
    var before, all := Within(calls[..last], key, m, now, window), Within(calls, key, m, now, window);
    assert all == before + if Hits(calls[last], key) && now - calls[last].at < window then {last} else {};
  }

  lemma FailuresOneMore(calls: seq<Call>, key: Key, now: real, window: real)
    requires calls != []
    ensures var c := calls[|calls| - 1];
            InWindow(FailuresOf(calls, key), now, window) == InWindow(FailuresOf(calls[..|calls| - 1], key), now, window)
                                                             + if Hits(c, key) && now - c.at < window then 1 else 0
  {
    var before, c := FailuresOf(calls[..|calls| - 1], key), calls[|calls| - 1];
    if Hits(c, key) {
      assert (before + [c.at])[..|before|] == before;
    }
  }

  lemma {:induction false} WithinIsCount(calls: seq<Call>, key: Key, m: nat, now: real, window: real)
    requires m <= |calls|
    ensures |Within(calls, key, m, now, window)| == InWindow(FailuresOf(calls[m..], key), now, window)
  {
    if m < |calls| {
      var front, later := calls[..|calls| - 1], calls[m..];
      WithinIsCount(front, key, m, now, window);
      assert later[..|later| - 1] == front[m..];
      WithinOneMore(calls, key, m, now, window);
      FailuresOneMore(later, key, now, window);
    }
  }

  lemma {:induction false} CountAppend(a: seq<real>, b: seq<real>, now: real, window: real)
    ensures InWindow(a + b, now, window) == InWindow(a, now, window) + InWindow(b, now, window)
  {
    if b == [] {
      assert a + b == a;
    } else {
      assert (a + b)[..|a + b| - 1] == a + b[..|b| - 1];
      CountAppend(a, b[..|b| - 1], now, window);
    }
  }

  // What is remembered in the window: no more than what failed in it, and all of it since call m.
  lemma RememberedWithin(calls: seq<Call>, key: Key, m: nat, now: real, window: real)
    requires m <= |calls|
    ensures InWindow(Memory(calls, key), now, window) <= |Within(calls, key, 0, now, window)|
    ensures RemembersSince(calls, key, m) ==>
              InWindow(Memory(calls, key), now, window) >= |Within(calls, key, m, now, window)|
  {
    var all := FailuresOf(calls, key);
    MemoryIsRecent(calls, key);
    var d := |all| - |Memory(calls, key)|;
    assert all == all[..d] + Memory(calls, key) && calls[0..] == calls;
    CountAppend(all[..d], Memory(calls, key), now, window);
    WithinIsCount(calls, key, 0, now, window);
    WithinIsCount(calls, key, m, now, window);
    if RemembersSince(calls, key, m) {
      MemorySince(calls, key, m);
      CountAppend(Memory(calls[..m], key), FailuresOf(calls[m..], key), now, window);
    }
  }

  /**
   The limits, from the calls alone. With fewer than `max_failures` failures of the name and
   fewer than four times as many from the address in the window, the next attempt is allowed;
   with that many of either, none of them forgotten, it is not.
   */
  lemma LimitsHold(calls: seq<Call>, user: Text, address: Text, m: nat, now: real, maxFailures: nat, window: real)
    requires maxFailures >= 1 && InTime(calls, now) && m <= |calls|
    ensures var seconds := Seconds(WaitFor(After(calls).log, user, address, now, maxFailures, window));
            var (name, addr) := (Name(user), Addr(address));
            && ((|Within(calls, name, 0, now, window)| < maxFailures
                 && |Within(calls, addr, 0, now, window)| < 4 * maxFailures) ==> seconds == 0)
            && (RemembersSince(calls, name, m) && |Within(calls, name, m, now, window)| >= maxFailures ==> seconds > 0)
            && (RemembersSince(calls, addr, m) && |Within(calls, addr, m, now, window)| >= 4 * maxFailures ==> seconds > 0)
  {
    var log := After(calls).log;
    KeptIsExact(calls);
    forall key | key in log ensures Sorted(log[key]) {
      FailuresInTime(calls, key, now);
      MemoryIsRecent(calls, key);
      assert log[key] == Get(log, key);
    }
    RememberedWithin(calls, Name(user), m, now, window);
    RememberedWithin(calls, Addr(address), m, now, window);
    RetryIsSafeAndTight(log, user, address, now, maxFailures, window, now);
  }
}
