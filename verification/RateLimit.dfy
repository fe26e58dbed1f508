/** The request limiter (backend/app/common/rate_limit.py): one counter per key whose lifetime is renewed by
    every accepted request. Times are in microseconds. */
module RateLimit {
  import opened Common

  const SECOND := 1_000_000

  /** The text before the window, `type:identifier`, and the window in seconds. */
  datatype Key = Key(prefix: string, window: nat)

  datatype Counter = Counter(count: int, expires: int)

  type Store = map<Key, Counter>

  datatype Settings = Settings(maxRequests: int, windowSeconds: nat)

  /** One call of `check_rate_limit`; an absent or zero parameter means the default. */
  datatype Call = Call(keyType: string, identifier: string, maxRequests: Option<int>, window: Option<nat>, now: int)

  function OrDefault(x: Option<int>, d: int): int { if x.None? || x.value == 0 then d else x.value }

  function LimitOf(c: Call, cfg: Settings): int { OrDefault(c.maxRequests, cfg.maxRequests) }

  function KeyOf(c: Call, cfg: Settings): Key {
    Key(c.keyType + ":" + c.identifier, if c.window.None? || c.window.value == 0 then cfg.windowSeconds else c.window.value)
  }

  /** A call's own limit and window count unless they are absent or zero; then the settings do. */
  lemma CallParameters(c: Call, cfg: Settings)
    ensures LimitOf(c, cfg) == if c.maxRequests.Some? && c.maxRequests.value != 0 then c.maxRequests.value else cfg.maxRequests
    ensures KeyOf(c, cfg).window == if c.window.Some? && c.window.value != 0 then c.window.value else cfg.windowSeconds
    ensures KeyOf(c, cfg).prefix == c.keyType + ":" + c.identifier
  {
  }

  predicate Alive(s: Store, k: Key, now: int) { k in s && now < s[k].expires }

  function Check(s: Store, c: Call, cfg: Settings): (Store, bool) {
    var k := KeyOf(c, cfg);
    var expires := c.now + k.window * SECOND;
    if !Alive(s, k, c.now) then (s[k := Counter(1, expires)], true)
    else if s[k].count >= LimitOf(c, cfg) then (s, false)
    else (s[k := Counter(s[k].count + 1, expires)], true)
  }

  class Limiter {
    var counters: Store
    const cfg: Settings

    constructor (cfg: Settings)
      ensures counters == map[] && this.cfg == cfg
    {
      counters := map[];
      this.cfg := cfg;
    }

    method CheckRateLimit(c: Call) returns (ok: bool)
      modifies this`counters
      ensures (counters, ok) == Check(old(counters), c, cfg)
    {
      var maxReq := OrDefault(c.maxRequests, cfg.maxRequests);
      var key := KeyOf(c, cfg);
      if !Alive(counters, key, c.now) {
        counters := counters[key := Counter(1, c.now + key.window * SECOND)];
        return true;
      }
      var count := counters[key].count;
      if count >= maxReq {
        return false;
      }
      counters := counters[key := Counter(count + 1, c.now + key.window * SECOND)];
      ok := true;
    }
  }

  // ---- Runs: any mixture of keys ----

  /** The store before call n. */
  function At(calls: seq<Call>, n: nat, cfg: Settings): Store
    requires n <= |calls|
  {
    if n == 0 then map[] else Check(At(calls, n - 1, cfg), calls[n - 1], cfg).0
  }

  predicate AcceptedCall(calls: seq<Call>, n: nat, cfg: Settings)
    requires n < |calls|
  {
    Check(At(calls, n, cfg), calls[n], cfg).1
  }

  /** When the first n calls were accepted under the key, in call order. */
  function Accepted(calls: seq<Call>, n: nat, key: Key, cfg: Settings): seq<int>
    requires n <= |calls|
  {
    if n == 0 then []
    else
      var acc := Accepted(calls, n - 1, key, cfg);
      if KeyOf(calls[n - 1], cfg) == key && AcceptedCall(calls, n - 1, cfg) then acc + [calls[n - 1].now] else acc
  }

  ghost predicate Timed(calls: seq<Call>) {
    forall i, j :: 0 <= i < j < |calls| ==> calls[i].now <= calls[j].now
  }

  // ---- What the counter means ----

  /** The length of the last stretch of times with every gap below the window. */
  function Streak(acc: seq<int>, window: int): (n: nat)
    ensures n <= |acc| && (acc != [] ==> n >= 1)
  {
    if |acc| <= 1 then |acc|
    else if acc[|acc| - 1] - acc[|acc| - 2] >= window then 1
    else 1 + Streak(acc[..|acc| - 1], window)
  }

  /** The counter holds the current streak and lives one window past the last accepted call. */
  ghost predicate Counts(s: Store, key: Key, acc: seq<int>) {
    && (key in s <==> acc != [])
    && (key in s ==> s[key] == Counter(Streak(acc, key.window * SECOND), acc[|acc| - 1] + key.window * SECOND))
  }

  /** One call keeps the counter in step with the accepted calls. */
  lemma CheckKeepsCounts(s: Store, c: Call, cfg: Settings, key: Key, acc: seq<int>)
    requires Counts(s, key, acc)
    ensures var (s', ok) := Check(s, c, cfg);
            Counts(s', key, if KeyOf(c, cfg) == key && ok then acc + [c.now] else acc)
  {
    assert (acc + [c.now])[..|acc|] == acc;
  }

  lemma {:induction false} CounterIsStreak(calls: seq<Call>, n: nat, key: Key, cfg: Settings)
    requires n <= |calls|
    ensures Counts(At(calls, n, cfg), key, Accepted(calls, n, key, cfg))
  {
    if n > 0 {
      CounterIsStreak(calls, n - 1, key, cfg);
      CheckKeepsCounts(At(calls, n - 1, cfg), calls[n - 1], cfg, key, Accepted(calls, n - 1, key, cfg));
    }
  }

  /** What the limiter decides when the accepted calls on the key are known. */
  predicate Admits(acc: seq<int>, window: int, limit: int, now: int) {
    acc == [] || acc[|acc| - 1] + window <= now || Streak(acc, window) < limit
  }

  lemma CheckDecides(s: Store, c: Call, cfg: Settings, acc: seq<int>)
    requires Counts(s, KeyOf(c, cfg), acc)
    ensures Check(s, c, cfg).1 <==> Admits(acc, KeyOf(c, cfg).window * SECOND, LimitOf(c, cfg), c.now)
  {
  }

  /** The decision, from the history alone: a call is refused exactly when the last accepted call is less
      than a window ago and the streak of accepted calls has reached the limit. So a call at least a window
      after the last accepted one is always accepted, however many were refused since. */
  lemma DecisionFromHistory(calls: seq<Call>, n: nat, cfg: Settings)
    requires n < |calls|
    ensures var key := KeyOf(calls[n], cfg);
            AcceptedCall(calls, n, cfg) <==>
              Admits(Accepted(calls, n, key, cfg), key.window * SECOND, LimitOf(calls[n], cfg), calls[n].now)
  {
    var key := KeyOf(calls[n], cfg);
    CounterIsStreak(calls, n, key, cfg);
    CheckDecides(At(calls, n, cfg), calls[n], cfg, Accepted(calls, n, key, cfg));
  }

  // ---- The sliding window ----

  predicate Sorted(acc: seq<int>) { forall i, j :: 0 <= i < j < |acc| ==> acc[i] <= acc[j] }

  predicate NotAfter(acc: seq<int>, now: int) { forall i :: 0 <= i < |acc| ==> acc[i] <= now }

  lemma {:induction false} AcceptedSorted(calls: seq<Call>, n: nat, key: Key, cfg: Settings)
    requires n <= |calls| && Timed(calls)
    ensures Sorted(Accepted(calls, n, key, cfg))
    ensures NotAfter(Accepted(calls, n, key, cfg), if n == 0 then 0 else calls[n - 1].now)
  {
    if n > 0 {
      AcceptedSorted(calls, n - 1, key, cfg);
      var acc := Accepted(calls, n - 1, key, cfg);
      assert NotAfter(acc, calls[n - 1].now) by {
        if n > 1 { assert calls[n - 2].now <= calls[n - 1].now; }
      }
      assert Sorted(acc + [calls[n - 1].now]);
    }
  }

  /** Before a streak, if anything, lies a gap of a window. */
  lemma {:induction false} GapBeforeStreak(acc: seq<int>, window: int)
    requires Streak(acc, window) < |acc|
    ensures var j := |acc| - Streak(acc, window); j >= 1 && acc[j] - acc[j - 1] >= window
  {
    if acc[|acc| - 1] - acc[|acc| - 2] < window {
      GapBeforeStreak(acc[..|acc| - 1], window);
    }
  }

  /** Inside a streak every gap is below the window. */
  lemma {:induction false} GapsInStreak(acc: seq<int>, window: int, j: nat)
    requires |acc| - Streak(acc, window) < j < |acc|
    ensures acc[j] - acc[j - 1] < window
  {
    if j < |acc| - 1 {
      GapsInStreak(acc[..|acc| - 1], window, j);
    }
  }

  ghost predicate LimitedTo(calls: seq<Call>, key: Key, m: int, cfg: Settings) {
    forall i :: 0 <= i < |calls| && KeyOf(calls[i], cfg) == key ==> LimitOf(calls[i], cfg) <= m
  }

  /** Any m + 1 consecutive accepted calls span at least a window. */
  predicate Spread(acc: seq<int>, m: nat, window: int) {
    forall i :: 0 <= i && i + m < |acc| ==> acc[i] + window <= acc[i + m]
  }

  lemma {:induction false} AcceptedSpread(calls: seq<Call>, n: nat, key: Key, m: nat, cfg: Settings, window: int)
    requires n <= |calls| && Timed(calls) && m >= 1 && LimitedTo(calls, key, m, cfg) && window == key.window * SECOND
    ensures Streak(Accepted(calls, n, key, cfg), window) <= m
    ensures Spread(Accepted(calls, n, key, cfg), m, window)
  {
    if n > 0 {
      AcceptedSpread(calls, n - 1, key, m, cfg, window);
      var c := calls[n - 1];
      if KeyOf(c, cfg) == key && AcceptedCall(calls, n - 1, cfg) {
        DecisionFromHistory(calls, n - 1, cfg);
        AcceptedSorted(calls, n, key, cfg);
        AdmittedSpread(Accepted(calls, n - 1, key, cfg), Accepted(calls, n, key, cfg), m, window, c.now, LimitOf(c, cfg));
      }
    }
  }

  /** Admitting one more call keeps the streak within the limit and the calls spread. */
  lemma AdmittedSpread(acc: seq<int>, acc': seq<int>, m: nat, window: int, now: int, limit: int)
    requires acc' == acc + [now] && Sorted(acc') && Spread(acc, m, window) && Streak(acc, window) <= m
    requires m >= 1 && limit <= m && Admits(acc, window, limit, now)
    ensures Streak(acc', window) <= m && Spread(acc', m, window)
  {
    assert acc'[..|acc|] == acc;
    forall i | 0 <= i && i + m < |acc'| ensures acc'[i] + window <= acc'[i + m] {
      if i + m < |acc| {
        assert acc[i] + window <= acc[i + m];
      } else {
        LastSpread(acc', m, window);
      }
    }
  }

  lemma LastSpread(acc: seq<int>, m: nat, window: int)
    requires Sorted(acc) && Streak(acc, window) <= m < |acc|
    ensures acc[|acc| - 1 - m] + window <= acc[|acc| - 1]
  {
    GapBeforeStreak(acc, window);
    var j, i, last := |acc| - Streak(acc, window), |acc| - 1 - m, |acc| - 1;
    assert acc[i] <= acc[j - 1] && acc[j] <= acc[last];
  }

  /** How many of the times lie in [from, to). */
  function CountIn(acc: seq<int>, from: int, to: int): nat {
    if acc == [] then 0
    else CountIn(acc[..|acc| - 1], from, to) + if from <= acc[|acc| - 1] < to then 1 else 0
  }

  /** The times, by position, that lie in [from, to). */
  function TimesIn(acc: seq<int>, from: int, to: int): set<int> { set i | 0 <= i < |acc| && from <= acc[i] < to }

  lemma TimesNext(acc: seq<int>, k: nat, from: int, to: int)
    requires |acc| == k + 1
    ensures |TimesIn(acc, from, to)| == |TimesIn(acc[..k], from, to)| + if from <= acc[k] < to then 1 else 0
  {
    var before := TimesIn(acc[..k], from, to);
    assert TimesIn(acc, from, to) == if from <= acc[k] < to then before + {k} else before;
  }

  lemma {:induction false} CountIsSize(acc: seq<int>, from: int, to: int)
    ensures CountIn(acc, from, to) == |TimesIn(acc, from, to)|
  {
    if acc != [] {
      var k := |acc| - 1;
      CountIsSize(acc[..k], from, to);
      TimesNext(acc, k, from, to);
    }
  }

  lemma {:induction false} CountBeforeIsZero(acc: seq<int>, from: int, to: int)
    requires forall i :: 0 <= i < |acc| ==> acc[i] < from
    ensures CountIn(acc, from, to) == 0
  {
    if acc != [] {
      CountBeforeIsZero(acc[..|acc| - 1], from, to);
    }
  }

  lemma {:induction false} CountTail(acc: seq<int>, k: nat, from: int, to: int)
    requires k <= |acc|
    ensures CountIn(acc, from, to) <= CountIn(acc[..|acc| - k], from, to) + k
  {
    if k == 0 {
      assert acc[..|acc|] == acc;
    } else {
      CountTail(acc[..|acc| - 1], k - 1, from, to);
      assert acc[..|acc| - 1][..|acc| - k] == acc[..|acc| - k];
    }
  }

  lemma {:induction false} SpreadBoundsCount(acc: seq<int>, m: nat, from: int, window: int)
    requires Sorted(acc) && Spread(acc, m, window)
    ensures CountIn(acc, from, from + window) <= m
  {
    if acc != [] {
      var last := acc[|acc| - 1];
      if !(from <= last < from + window) {
        SpreadBoundsCount(acc[..|acc| - 1], m, from, window);
      } else if |acc| <= m {
        CountTail(acc, |acc|, from, from + window);
      } else {
        CountTail(acc, m, from, from + window);
        assert acc[|acc| - 1 - m] + window <= acc[|acc| - 1 - m + m];
        CountBeforeIsZero(acc[..|acc| - m], from, from + window);
      }
    }
  }

  /** For every timed sequence of calls on any keys: if the calls on a key allow at most m >= 1 requests,
      every half-open interval one window long holds at most m accepted calls on it. */
  lemma SlidingWindow(calls: seq<Call>, key: Key, m: nat, from: int, cfg: Settings)
    requires Timed(calls) && m >= 1 && LimitedTo(calls, key, m, cfg)
    ensures |TimesIn(Accepted(calls, |calls|, key, cfg), from, from + key.window * SECOND)| <= m
  {
    CountIsSize(Accepted(calls, |calls|, key, cfg), from, from + key.window * SECOND);
    AcceptedSpread(calls, |calls|, key, m, cfg, key.window * SECOND);
    AcceptedSorted(calls, |calls|, key, cfg);
    SpreadBoundsCount(Accepted(calls, |calls|, key, cfg), m, from, key.window * SECOND);
  }

  /** The bound is not reached by every caller: one that never pauses for a window is refused after m
      accepted calls, although the window before it holds fewer. */
  lemma SteadyCallerIsRefused(cfg: Settings)
    ensures var call := (now: int) => Call("search", "ip", Some(2), Some(60), now * SECOND);
            var calls := [call(0), call(59), call(118)];
            var acc := Accepted(calls, 2, Key("search:ip", 60), cfg);
            !AcceptedCall(calls, 2, cfg) && CountIn(acc, 59 * SECOND, 119 * SECOND) == 1
  {
    var call := (now: int) => Call("search", "ip", Some(2), Some(60), now * SECOND);
    var calls := [call(0), call(59), call(118)];
    var key := Key("search:ip", 60);
    assert "search" + ":" + "ip" == "search:ip";
    assert At(calls, 0, cfg) == map[];
    assert Accepted(calls, 0, key, cfg) == [];
    assert At(calls, 1, cfg) == map[key := Counter(1, 60 * SECOND)];
    assert Accepted(calls, 1, key, cfg) == [0];
    assert At(calls, 2, cfg) == map[key := Counter(2, 119 * SECOND)];
    assert Accepted(calls, 2, key, cfg) == [0, 59 * SECOND];
    assert [0, 59 * SECOND][..1] == [0] && [0][..0] == [];
    assert CountIn([0], 59 * SECOND, 119 * SECOND) == 0;
  }
}
