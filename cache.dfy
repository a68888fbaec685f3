/**
 * The cache and rate-limit store of log_api_system/cache.py.
 *
 * The Redis server is replaced by an in-memory map from keys to entries,
 * each with an optional absolute expiry time, and an explicit clock `now`
 * in seconds. An entry whose expiry is not after `now` is gone. Redis
 * keeps a key readable up to and including its expiry instant, measured
 * in milliseconds; with a clock in whole seconds the model takes the
 * expiry second itself as already expired, a boundary convention.
 *
 * The functions on `Store` values say what each Redis command does; the
 * class `RedisCache` performs the same steps on its fields and is proved
 * against them. `NoopCache` is the permissive fallback.
 */
module Cache {
  import opened Wrappers

  /** Largest value a Redis counter can hold (a signed 64-bit integer). */
  const MaxCounter: int := 0x7FFF_FFFF_FFFF_FFFF

  /** Prefix of every key under which a classified line is cached. */
  const LinePrefix: string := "loglevel:"

  /** What a key holds: text written by SETEX, or a counter written by INCR. */
  datatype Value = Text(text: string) | Counter(count: int)

  /** A stored value and the absolute time at which it expires, if any. */
  datatype Entry = Entry(value: Value, expiry: Option<int>)

  /** The whole store at one instant. */
  datatype Store = Store(entries: map<string, Entry>, now: int)

  /** Errors the Redis client raises for the commands used here. */
  datatype StoreError =
    | InvalidValue        // the client refuses to send None as a value
    | InvalidExpireTime   // SETEX with a time-to-live that is not positive
    | NotAnInteger        // INCR on a key that holds text
    | Overflow            // INCR past the largest 64-bit counter

  /** A command's reply and the store it leaves behind. */
  datatype Reply<T> = Reply(result: Result<T, StoreError>, after: Store)

  /** The store as it is `t` seconds after the epoch, nothing else changed. */
  function At(s: Store, t: int): Store
  {
    s.(now := t)
  }

  /** The key exists and has not expired. */
  predicate Live(s: Store, key: string)
  {
    key in s.entries &&
    (s.entries[key].expiry.None? || s.now < s.entries[key].expiry.value)
  }

  /** The count INCR starts from: the live counter, or 0 for a missing or expired key. */
  function CounterOf(s: Store, key: string): int
  {
    if Live(s, key) && s.entries[key].value.Counter? then s.entries[key].value.count else 0
  }

  /** Decimal digits of a natural number. */
  function Digits(n: nat): string
    decreases n
  {
    var d := ['0', '1', '2', '3', '4', '5', '6', '7', '8', '9'];
    if n < 10 then [d[n]] else Digits(n / 10) + [d[n % 10]]
  }

  /** How Redis renders a counter when it is read back as a string. */
  function Decimal(n: int): string
  {
    if n < 0 then "-" + Digits(-n) else Digits(n)
  }

  /** GET: the live value as a string, or None. */
  function GetReply(s: Store, key: string): (r: Option<string>)
    ensures r.Some? <==> Live(s, key)
  {
    if !Live(s, key) then None
    else match s.entries[key].value
      case Text(t) => Some(t)
      case Counter(n) => Some(Decimal(n))
  }

  /** SETEX key ttl value, as sent by the Python client. */
  function SetEx(s: Store, key: string, value: Option<string>, ttl: int): (r: Reply<()>)
    ensures r.after.now == s.now
    ensures r.after.entries - {key} == s.entries - {key}
    ensures r.result.Ok? <==> value.Some? && ttl > 0
    ensures r.result.Ok? ==>
      key in r.after.entries && r.after.entries[key] == Entry(Text(value.value), Some(s.now + ttl))
    ensures r.result.Err? ==> r.after == s
  {
    if value.None? then Reply(Err(InvalidValue), s)
    else if ttl <= 0 then Reply(Err(InvalidExpireTime), s)
    else Reply(Ok(()), s.(entries := s.entries[key := Entry(Text(value.value), Some(s.now + ttl))]))
  }

  /** INCR key: a missing or expired key starts at 0 and gets no expiry; a live one keeps its expiry. */
  function Incr(s: Store, key: string): (r: Reply<int>)
    ensures r.after.now == s.now
    ensures r.after.entries - {key} == s.entries - {key}
    ensures r.result.Err? <==>
      Live(s, key) && (s.entries[key].value.Text? || s.entries[key].value.count >= MaxCounter)
    ensures r.result.Err? ==> r.after == s
    ensures r.result.Ok? ==>
      r.result.value == CounterOf(s, key) + 1 && key in r.after.entries &&
      r.after.entries[key] == Entry(Counter(r.result.value), if Live(s, key) then s.entries[key].expiry else None)
  {
    if !Live(s, key) then
      Reply(Ok(1), s.(entries := s.entries[key := Entry(Counter(1), None)]))
    else match s.entries[key].value
      case Text(_) => Reply(Err(NotAnInteger), s)
      case Counter(n) =>
        if n >= MaxCounter then Reply(Err(Overflow), s)
        else Reply(Ok(n + 1), s.(entries := s.entries[key := s.entries[key].(value := Counter(n + 1))]))
  }

  /** EXPIRE key seconds: no effect on a missing key; a time that is not positive deletes the key. */
  function Expire(s: Store, key: string, seconds: int): (r: Store)
    ensures r.now == s.now
    ensures r.entries - {key} == s.entries - {key}
    ensures !Live(s, key) ==> r == s
    ensures Live(s, key) && seconds <= 0 ==> key !in r.entries
    ensures Live(s, key) && seconds > 0 ==>
      key in r.entries && r.entries[key].value == s.entries[key].value &&
      r.entries[key].expiry == Some(s.now + seconds) && Live(r, key)
  {
    if !Live(s, key) then s
    else if seconds <= 0 then s.(entries := s.entries - {key})
    else s.(entries := s.entries[key := s.entries[key].(expiry := Some(s.now + seconds))])
  }

  /**
   * `RedisCache.allow`: one fixed-window step. The counter goes up by one,
   * the window's expiry is set only when the counter becomes 1, and the call
   * is admitted exactly when the new count is at most `limit`. Every other
   * key is left as it was.
   */
  function AllowStep(s: Store, key: string, limit: int, window: int): (r: Reply<bool>)
    ensures r.after.now == s.now
    ensures r.after.entries - {key} == s.entries - {key}
    ensures r.result.Err? <==>
      Live(s, key) && (s.entries[key].value.Text? || s.entries[key].value.count >= MaxCounter)
    ensures r.result.Err? ==> r.after == s
    ensures r.result.Ok? ==> r.result.value == (CounterOf(s, key) + 1 <= limit)
    ensures r.result.Ok? && CounterOf(s, key) + 1 != 1 ==>
      key in r.after.entries &&
      r.after.entries[key] == Entry(Counter(CounterOf(s, key) + 1), s.entries[key].expiry)
    ensures r.result.Ok? && CounterOf(s, key) + 1 == 1 && window > 0 ==>
      key in r.after.entries &&
      r.after.entries[key] == Entry(Counter(1), Some(s.now + window))
    ensures r.result.Ok? && CounterOf(s, key) + 1 == 1 && window <= 0 ==> key !in r.after.entries
  {
    var incr := Incr(s, key);
    if incr.result.Err? then Reply(Err(incr.result.error), incr.after)
    else
      var current := incr.result.value;
      var after := if current == 1 then Expire(incr.after, key, window) else incr.after;
      Reply(Ok(current <= limit), after)
  }

  /** Calls of `allow` for one key at the given clock readings, one after the other. */
  function AllowSeries(s: Store, key: string, limit: int, window: int, times: seq<int>)
    : (rs: seq<Result<bool, StoreError>>)
    ensures |rs| == |times|
    decreases |times|
  {
    if times == [] then []
    else
      var step := AllowStep(At(s, times[0]), key, limit, window);
      [step.result] + AllowSeries(step.after, key, limit, window, times[1..])
  }

  /** The store after the calls of `AllowSeries`. */
  function SeriesAfter(s: Store, key: string, limit: int, window: int, times: seq<int>): (after: Store)
    ensures times != [] ==> after.now == times[|times| - 1]
    ensures times == [] ==> after == s
    decreases |times|
  {
    if times == [] then s
    else
      var step := AllowStep(At(s, times[0]), key, limit, window);
      SeriesAfter(step.after, key, limit, window, times[1..])
  }

  /** While a window's counter stands at `c >= 1`, each further call counts one more. */
  lemma {:induction false} SeriesInsideWindow(
    s: Store, key: string, limit: int, window: int, times: seq<int>, c: int, end: int)
    requires key in s.entries && s.entries[key] == Entry(Counter(c), Some(end))
    requires 1 <= c && c + |times| <= MaxCounter
    requires forall i :: 0 <= i < |times| ==> times[i] < end
    ensures forall i :: 0 <= i < |times| ==>
      AllowSeries(s, key, limit, window, times)[i] == Ok(c + i + 1 <= limit)
    decreases |times|
  {
    if times != [] {
      var step := AllowStep(At(s, times[0]), key, limit, window);
      assert Live(At(s, times[0]), key);
      assert CounterOf(At(s, times[0]), key) == c;
      SeriesInsideWindow(step.after, key, limit, window, times[1..], c + 1, end);
    }
  }

  /**
   * Within one window that starts with the key absent or expired, exactly the
   * first `limit` calls are admitted and every later call is denied.
   */
  lemma WindowAdmitsFirstLimit(s: Store, key: string, limit: int, window: int, times: seq<int>)
    requires window > 0 && times != []
    requires !Live(At(s, times[0]), key)
    requires forall i :: 0 <= i < |times| ==> times[i] < times[0] + window
    requires |times| <= MaxCounter
    ensures forall i :: 0 <= i < |times| ==>
      AllowSeries(s, key, limit, window, times)[i] == Ok(i < limit)
  {
    var first := AllowStep(At(s, times[0]), key, limit, window);
    SeriesInsideWindow(first.after, key, limit, window, times[1..], 1, times[0] + window);
    var rs := AllowSeries(s, key, limit, window, times);
    forall i | 0 <= i < |times| ensures rs[i] == Ok(i < limit) {
      if i > 0 {
        assert rs[i] == AllowSeries(first.after, key, limit, window, times[1..])[i - 1];
      }
    }
  }

  /** Calls inside the window leave its counter `|times|` higher and its expiry as it was. */
  lemma {:induction false} InsideKeepsWindow(
    s: Store, key: string, limit: int, window: int, times: seq<int>, c: int, end: int)
    requires key in s.entries && s.entries[key] == Entry(Counter(c), Some(end))
    requires 1 <= c && c + |times| <= MaxCounter
    requires forall i :: 0 <= i < |times| ==> times[i] < end
    ensures var after := SeriesAfter(s, key, limit, window, times);
      key in after.entries && after.entries[key] == Entry(Counter(c + |times|), Some(end))
    decreases |times|
  {
    if times != [] {
      var step := AllowStep(At(s, times[0]), key, limit, window);
      assert Live(At(s, times[0]), key);
      assert CounterOf(At(s, times[0]), key) == c;
      InsideKeepsWindow(step.after, key, limit, window, times[1..], c + 1, end);
    }
  }

  /**
   * Once a window has run out, however many calls it saw (even more than
   * `limit`), the key is gone and the next call opens a new window and is
   * admitted (for any positive limit).
   */
  lemma NextWindowAdmits(s: Store, key: string, limit: int, window: int, times: seq<int>, t: int)
    requires window > 0 && limit >= 1 && times != []
    requires !Live(At(s, times[0]), key)
    requires forall i :: 0 <= i < |times| ==> times[i] < times[0] + window
    requires |times| <= MaxCounter
    requires t >= times[0] + window
    ensures var after := SeriesAfter(s, key, limit, window, times);
      !Live(At(after, t), key) &&
      AllowStep(At(after, t), key, limit, window).result == Ok(true)
  {
    var first := AllowStep(At(s, times[0]), key, limit, window);
    InsideKeepsWindow(first.after, key, limit, window, times[1..], 1, times[0] + window);
  }

  /**
   * After `set(key, value, ttl)` at time `s.now`, `get(key)` returns `value`
   * until `ttl` seconds have elapsed and nothing afterwards; every other key
   * reads as before.
   */
  lemma SetThenGet(s: Store, key: string, value: string, ttl: int, t: int, other: string)
    requires ttl > 0 && other != key
    ensures var after := SetEx(s, key, Some(value), ttl).after;
      GetReply(At(after, t), key) == (if t < s.now + ttl then Some(value) else None) &&
      GetReply(At(after, t), other) == GetReply(At(s, t), other)
  {
    var after := SetEx(s, key, Some(value), ttl).after;
    assert other in after.entries <==> other in s.entries;
    assert other in s.entries ==> after.entries[other] == s.entries[other];
  }

  /** `NoopCache.get`: always a miss. */
  function NoopGet(key: string): (r: Option<string>)
    ensures r.None?
  {
    None
  }

  /** `NoopCache.allow`: always admits. */
  function NoopAllow(key: string, limit: int, window: int): (admitted: bool)
    ensures admitted
  {
    true
  }

  /** `line_cache_key`: the prefix followed by the line's SHA-256 hex digest, given as `digest`. */
  function LineCacheKey(digest: string -> string, line: string): (key: string)
    ensures |key| >= |LinePrefix| && key[..|LinePrefix|] == LinePrefix
    ensures key[|LinePrefix|..] == digest(line)
  {
    LinePrefix + digest(line)
  }

  /** Lines with different digests never share a cache key. */
  lemma LineCacheKeyInjective(digest: string -> string, a: string, b: string)
    requires LineCacheKey(digest, a) == LineCacheKey(digest, b)
    ensures digest(a) == digest(b)
  {
    var ka, kb := LineCacheKey(digest, a), LineCacheKey(digest, b);
    assert digest(a) == ka[|LinePrefix|..] == kb[|LinePrefix|..] == digest(b);
  }

  /** The live-state view of one `RedisCache` connection. */
  class RedisCache {
    var entries: map<string, Entry>
    var now: int

    /** The store this object stands for. */
    function State(): Store
      reads this
    {
      Store(entries, now)
    }

    /** Connects to a store in the given state. */
    constructor (initial: Store)
      ensures State() == initial
    {
      entries := initial.entries;
      now := initial.now;
    }

    /** `get`. */
    method Get(key: string) returns (r: Option<string>)
      ensures r == GetReply(State(), key)
      ensures r.Some? <==> Live(State(), key)
    {
      if key in entries && (entries[key].expiry.None? || now < entries[key].expiry.value) {
        match entries[key].value {
          case Text(t) => r := Some(t);
          case Counter(n) => r := Some(Decimal(n));
        }
      } else {
        r := None;
      }
    }

    /** `set`: SETEX with the given time-to-live. */
    method Set(key: string, value: Option<string>, ttl: int) returns (r: Result<(), StoreError>)
      modifies this
      ensures Reply(r, State()) == SetEx(old(State()), key, value, ttl)
    {
      if value.None? {
        return Err(InvalidValue);
      }
      if ttl <= 0 {
        return Err(InvalidExpireTime);
      }
      entries := entries[key := Entry(Text(value.value), Some(now + ttl))];
      r := Ok(());
    }

    /** `allow`: INCR, then EXPIRE only when the counter has just become 1. */
    method Allow(key: string, limit: int, window: int) returns (r: Result<bool, StoreError>)
      modifies this
      ensures Reply(r, State()) == AllowStep(old(State()), key, limit, window)
    {
      var incr := Incr(State(), key);
      if incr.result.Err? {
        return Err(incr.result.error);
      }
      entries := incr.after.entries;
      var current := incr.result.value;
      if current == 1 {
        entries := Expire(State(), key, window).entries;
      }
      r := Ok(current <= limit);
    }
  }
}
