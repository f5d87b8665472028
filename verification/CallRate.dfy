/** The per-minute call limit: what the limiter decides over every history of calls. */
module CallRate {
  const WINDOW := 60.0

  datatype Call = Call(key: string, at: real)

  /** The clock never runs backwards. */
  predicate Monotone(log: seq<Call>) {
    forall i, k :: 0 <= i < k < |log| ==> log[i].at <= log[k].at
  }

  /** The times not more than a minute before the reading. */
  function Recent(times: seq<real>, now: real): seq<real> {
    if times == [] then [] else (if now - times[0] > WINDOW then [] else [times[0]]) + Recent(times[1..], now)
  }

  /** The allowed calls of a key in a history: each call is allowed while fewer than `limit` of the calls
      allowed before it are recent. */
  function Allowed(limit: int, log: seq<Call>, key: string): seq<real> {
    if log == [] then []
    else
      var n := |log| - 1;
      var before := Allowed(limit, log[..n], key);
      if log[n].key == key && |Recent(before, log[n].at)| < limit then before + [log[n].at] else before
  }

  predicate Sorted(times: seq<real>) {
    forall i, k :: 0 <= i < k < |times| ==> times[i] <= times[k]
  }

  // ---- whole histories --------------------------------------------------------------------------------

  lemma {:induction false} AllowedSorted(limit: int, log: seq<Call>, key: string)
    requires Monotone(log)
    ensures Sorted(Allowed(limit, log, key))
    ensures forall i :: 0 <= i < |Allowed(limit, log, key)| ==>
      log != [] && Allowed(limit, log, key)[i] <= log[|log| - 1].at
  {
    if log != [] {
      var n := |log| - 1;
      AllowedSorted(limit, log[..n], key);
    }
  }

  /** More than a minute passes between each allowed call and the `limit`-th one after it. */
  predicate Spaced(times: seq<real>, limit: nat) {
    forall i, k :: 0 <= i && 0 <= k < |times| && k == i + limit ==> times[k] - times[i] > WINDOW
  }

  lemma {:induction false} RecentIsSuffix(times: seq<real>, now: real) returns (n: nat)
    requires Sorted(times)
    ensures n <= |times| && Recent(times, now) == times[n..]
    ensures forall i :: 0 <= i < n ==> now - times[i] > WINDOW
    ensures forall i :: n <= i < |times| ==> now - times[i] <= WINDOW
  {
    if times == [] {
      n := 0;
    } else {
      n := RecentIsSuffix(times[1..], now);
      if now - times[0] > WINDOW {
        n := n + 1;
      } else {
        assert n == 0;
      }
      assert forall i :: 0 < i < |times| ==> times[i] == times[1..][i - 1];
    }
  }

  lemma {:induction false} AllowedSpaced(limit: int, log: seq<Call>, key: string)
    requires Monotone(log) && limit >= 1
    ensures Spaced(Allowed(limit, log, key), limit)
  {
    if log != [] {
      var n := |log| - 1;
      AllowedSpaced(limit, log[..n], key);
      AllowedSorted(limit, log[..n], key);
      var before := Allowed(limit, log[..n], key);
      var _ := RecentIsSuffix(before, log[n].at);
    }
  }

  /** The times in the closed minute from `start` on. */
  function Within(times: seq<real>, start: real): seq<real> {
    if times == [] then []
    else (if start <= times[0] <= start + WINDOW then [times[0]] else []) + Within(times[1..], start)
  }

  lemma {:induction false} NoneWithin(times: seq<real>, start: real)
    requires forall i :: 0 <= i < |times| ==> times[i] > start + WINDOW
    ensures Within(times, start) == []
  {
    if times != [] {
      NoneWithin(times[1..], start);
    }
  }

  lemma {:induction false} WithinPrefix(times: seq<real>, start: real, n: nat)
    requires n <= |times| && forall i :: n <= i < |times| ==> times[i] > start + WINDOW
    ensures |Within(times, start)| <= n
  {
    if n == 0 {
      NoneWithin(times, start);
    } else {
      WithinPrefix(times[1..], start, n - 1);
    }
  }

  lemma {:induction false} SpacedFits(times: seq<real>, limit: nat, start: real)
    requires Sorted(times) && Spaced(times, limit) && limit >= 1
    ensures |Within(times, start)| <= limit
  {
    if times != [] {
      if start <= times[0] {
        if limit <= |times| {
          forall i | limit <= i < |times|
            ensures times[i] > start + WINDOW || times[0] > start + WINDOW || times[i] - times[0] > WINDOW
          {
            assert times[limit] - times[0] > WINDOW;
          }
          if limit < |times| {
            assert times[0 + limit] - times[0] > WINDOW;
            assert forall i :: limit <= i < |times| ==> times[i] >= times[limit] > start + WINDOW;
          }
          WithinPrefix(times, start, limit);
        } else {
          WithinPrefix(times, start, |times|);
        }
      } else {
        assert forall i, k :: 0 <= i && 0 <= k < |times[1..]| && k == i + limit ==>
          times[1..][k] == times[k + 1] && times[1..][i] == times[i + 1];
        SpacedFits(times[1..], limit, start);
      }
    }
  }

  /** Over every history on a clock that does not run backwards, no closed minute holds more than the
      limit of allowed calls of one key. */
  lemma EveryMinuteWithinLimit(limit: int, log: seq<Call>, key: string, start: real)
    requires Monotone(log)
    ensures |Within(Allowed(limit, log, key), start)| <= if limit < 0 then 0 else limit
  {
    AllowedSorted(limit, log, key);
    if limit >= 1 {
      AllowedSpaced(limit, log, key);
      SpacedFits(Allowed(limit, log, key), limit, start);
    } else {
      NoneAllowed(limit, log, key);
    }
  }

  lemma {:induction false} NoneAllowed(limit: int, log: seq<Call>, key: string)
    requires limit <= 0
    ensures Allowed(limit, log, key) == []
  {
    if log != [] {
      NoneAllowed(limit, log[..|log| - 1], key);
    }
  }

  /** A refused call finds the minute before it full. */
  lemma RefusedOnlyWhenFull(limit: int, log: seq<Call>, call: Call)
    requires Monotone(log + [call]) && limit >= 0
    requires Allowed(limit, log + [call], call.key) == Allowed(limit, log, call.key)
    ensures |Within(Allowed(limit, log, call.key), call.at - WINDOW)| == limit
  {
    assert (log + [call])[..|log|] == log;
    assert Monotone(log);
    AllowedSorted(limit, log + [call], call.key);
    AllowedSorted(limit, log, call.key);
    var before := Allowed(limit, log, call.key);
    RecentIsWithin(before, call.at);
    EveryMinuteWithinLimit(limit, log, call.key, call.at - WINDOW);
  }

  lemma {:induction false} RecentIsWithin(times: seq<real>, now: real)
    requires forall i :: 0 <= i < |times| ==> times[i] <= now
    ensures Recent(times, now) == Within(times, now - WINDOW)
  {
    if times != [] {
      RecentIsWithin(times[1..], now);
    }
  }

  // ---- the limiter --------------------------------------------------------------------------------------

  lemma {:induction false} RecentAgain(times: seq<real>, earlier: real, now: real)
    requires earlier <= now
    ensures Recent(Recent(times, earlier), now) == Recent(times, now)
  {
    if times != [] {
      RecentAgain(times[1..], earlier, now);
      var rest := Recent(times[1..], earlier);
      assert ([times[0]] + rest)[1..] == rest && [] + rest == rest;
    }
  }

  lemma {:induction false} AllRecent(times: seq<real>, now: real)
    requires forall i :: 0 <= i < |times| ==> now - times[i] <= WINDOW
    ensures Recent(times, now) == times
  {
    if times != [] {
      AllRecent(times[1..], now);
    }
  }

  lemma {:induction false} RecentAppend(times: seq<real>, last: real, now: real)
    ensures Recent(times + [last], now) == Recent(times, now) + Recent([last], now)
  {
    if times != [] {
      RecentAppend(times[1..], last, now);
      assert (times + [last])[1..] == times[1..] + [last];
    } else {
      assert [] + [last] == [last];
    }
  }

  /** The last reading taken for a key. */
  function LastReading(log: seq<Call>, key: string): real {
    if log == [] then 0.0
    else if log[|log| - 1].key == key then log[|log| - 1].at
    else LastReading(log[..|log| - 1], key)
  }

  lemma {:induction false} LastReadingBefore(log: seq<Call>, key: string, now: real)
    requires Monotone(log) && (log != [] ==> log[|log| - 1].at <= now) && Called(log, key)
    ensures LastReading(log, key) <= now
  {
    var n := |log| - 1;
    if log[n].key != key {
      var i :| 0 <= i < |log| && log[i].key == key;
      assert log[..n][i].key == key;
      LastReadingBefore(log[..n], key, now);
    }
  }

  predicate Called(log: seq<Call>, key: string) {
    exists i :: 0 <= i < |log| && log[i].key == key
  }

  predicate Follows(log: seq<Call>, now: real) {
    log != [] ==> log[|log| - 1].at <= now
  }

  lemma MonotoneMore(log: seq<Call>, call: Call)
    requires Monotone(log) && Follows(log, call.at)
    ensures Monotone(log + [call])
  {
  }

  /** One more call and its own key ... */
  lemma LoggedOwn(was: seq<Call>, key: string, now: real, limit: int)
    ensures var log, before := was + [Call(key, now)], Allowed(limit, was, key);
      && LastReading(log, key) == now && Called(log, key)
      && Allowed(limit, log, key) == if |Recent(before, now)| < limit then before + [now] else before
  {
  }

  /** ... and every other key. */
  lemma LoggedOther(was: seq<Call>, key: string, now: real, limit: int, k: string)
    requires k != key
    ensures var log := was + [Call(key, now)];
      && Allowed(limit, log, k) == Allowed(limit, was, k)
      && LastReading(log, k) == LastReading(was, k) && (Called(log, k) <==> Called(was, k))
  {
  }

  /** The deque of a key is the key's whole allowed history, filtered to the minute before its last call. */
  predicate FaithfulAt(limit: int, log: seq<Call>, calls: map<string, seq<real>>, k: string) {
    && (k in calls <==> Called(log, k))
    && if k in calls then calls[k] == Recent(Allowed(limit, log, k), LastReading(log, k))
       else Allowed(limit, log, k) == []
  }

  ghost predicate Faithful(limit: int, log: seq<Call>, calls: map<string, seq<real>>) {
    Monotone(log) && forall k :: FaithfulAt(limit, log, calls, k)
  }

  /** Recording a decision keeps the deques faithful. */
  lemma Decided(limit: int, was: seq<Call>, calls: map<string, seq<real>>, key: string, now: real, q: seq<real>)
    requires Faithful(limit, was, calls) && Follows(was, now)
    requires var recent := Recent(Allowed(limit, was, key), now);
      q == if |recent| < limit then recent + [now] else recent
    ensures Faithful(limit, was + [Call(key, now)], calls[key := q])
  {
    var log, after := was + [Call(key, now)], calls[key := q];
    MonotoneMore(was, Call(key, now));
    LoggedOwn(was, key, now, limit);
    RecentAppend(Allowed(limit, was, key), now, now);
    forall k ensures FaithfulAt(limit, log, after, k) {
      if k != key {
        LoggedOther(was, key, now, limit, k);
        assert FaithfulAt(limit, was, calls, k);
      }
    }
  }

  lemma StartsRecent(limit: int, log: seq<Call>, calls: map<string, seq<real>>, key: string, now: real)
    requires Faithful(limit, log, calls) && Follows(log, now)
    ensures var q := if key in calls then calls[key] else [];
      Sorted(q) && Recent(q, now) == Recent(Allowed(limit, log, key), now)
  {
    assert FaithfulAt(limit, log, calls, key);
    if key in calls {
      LastReadingBefore(log, key, now);
      AllowedSorted(limit, log, key);
      RecentAgain(Allowed(limit, log, key), LastReading(log, key), now);
      var _ := RecentIsSuffix(Allowed(limit, log, key), LastReading(log, key));
    }
  }

  lemma PopOld(q: seq<real>, now: real)
    requires q != [] && Sorted(q) && now - q[0] > WINDOW
    ensures Sorted(q[1..]) && Recent(q[1..], now) == Recent(q, now)
  {
  }

  lemma FrontRecent(q: seq<real>, now: real)
    requires Sorted(q) && (q != [] ==> now - q[0] <= WINDOW)
    ensures Recent(q, now) == q
  {
  }

  /** Pops expired times off the front. */
  method DropOld(times: seq<real>, now: real) returns (q: seq<real>)
    requires Sorted(times)
    ensures q == Recent(times, now)
  {
    q := times;
    while q != [] && now - q[0] > WINDOW
      invariant Sorted(q) && Recent(q, now) == Recent(times, now)
    {
      PopOld(q, now);
      q := q[1..];
    }
    FrontRecent(q, now);
  }

  class RateLimiter {
    const perMinute: int
    var calls: map<string, seq<real>>
    ghost var log: seq<Call>                 // every call so far, allowed or not

    constructor (perMinute: int)
      ensures Valid() && this.perMinute == perMinute && log == []
    {
      this.perMinute := perMinute;
      calls, log := map[], [];
    }

    ghost predicate Valid()
      reads this
    {
      Faithful(perMinute, log, calls)
    }

    method Allow(key: string, now: real) returns (ok: bool)
      requires Valid() && Follows(log, now)
      modifies this
      ensures Valid() && log == old(log) + [Call(key, now)]
      ensures ok <==> |Recent(Allowed(perMinute, old(log), key), now)| < perMinute
      ensures Allowed(perMinute, log, key) ==
        if ok then Allowed(perMinute, old(log), key) + [now] else Allowed(perMinute, old(log), key)
    {
      var q := if key in calls then calls[key] else [];
      StartsRecent(perMinute, log, calls, key, now);
      q := DropOld(q, now);
      LoggedOwn(log, key, now, perMinute);
      ok := |q| < perMinute;
      if ok {
        q := q + [now];
      }
      Decided(perMinute, log, calls, key, now, q);
      calls := calls[key := q];
      log := log + [Call(key, now)];
    }
  }
}
