# log_api_system: classification, cache and counting, in Dafny

This project models the sequential core of `log_api_system`, a small log-classification
service. The model covers four parts:

- **Level extraction.** The plain-text parser takes the third whitespace-separated word of a
  line when it is `INFO`, `WARNING` or `ERROR`. The JSON parser takes the `level` field of a
  decoded object.
- **Cache-through classification.** `LogAnalyser.process_line` looks the line's key up in
  the cache. On a hit it returns the cached value. On a miss it parses the line and writes
  the level back with a time-to-live.
- **The running counter.** `LogAnalyser.process_lines` keeps a counter that persists
  between calls.
- **The store.** `NoopCache` is the permissive fallback. `RedisCache` implements get, set
  and a fixed-window rate limiter `allow`.

Around that core, the request handlers of `app.py` are modelled in three parts: the choice
of parser by mode, the per-line dispatch with the counting loop of `/batch` and
`/batch_threads`, and the response of `/cpu_processes`.

Modules, one per source file plus helpers:

- `Wrappers` holds `Option` (Python's `None`) and `Result` (a value or a raised exception).
- `Tokens` models Python's `str.strip()` and `str.split()`, with Python's whitespace set.
- `Counts` models a `dict` used as a counter and the sum of its values.
- `Cache` models `cache.py`. The Redis server is an in-memory map from key to
  `Entry(value, expiry)`, plus a clock `now` in seconds. Pure functions
  (`GetReply`, `SetEx`, `Incr`, `Expire`, `AllowStep`) say what each command does. The
  class `RedisCache` carries out the same steps on its fields and is proved against those
  functions.
- `Core` models `core.py`. It holds the parsers, the specification `Classify` of
  `process_line`, the specification `RunLines` of the `process_lines` loop, and the class
  `LogAnalyser`. `LineStep` turns an analyser's settings into its `process_line` as a
  function of store and line; `RunLines` and `App.DispatchAll` take that function.
- `App` models `app.py`.

Three foreign functions are parameters of the model:

- the SHA-256 hex digest used by `line_cache_key`;
- `json.loads`, which becomes a decoded `JsonValue`, or `None` for invalid JSON;
- `cpu_heavy`.

Where the code and the system's design description disagree, the model follows the code:

- The plain parser does not check a timestamp. Any two leading words are accepted.
- The level set is fixed to three words. Any other third word gives `None`, not that word.
- There is no error bucket. A line with a level of `None` is counted under the key `None`.
  On a cache miss, which is every line when there is no Redis cache, a line with fewer
  than three words raises `IndexError` in plain mode, and the whole batch fails
  (`App.ShortLineFailsBatch`). On a hit the parser does not run: a two-word line that a
  JSON-mode request has cached under its level is counted under that level by a
  plain-mode batch.
- The cache key does not include the mode. A line cached in plain mode is served as a hit in
  JSON mode (`Core.ClassifyHit`).
- There is no store-health or degraded flag. Any fallback happens only once, at start-up,
  which is not modelled.

How the Redis client sends `set(key, None, ttl)` is a library behaviour. The model follows
the current Python Redis client, which refuses a `None` value with an error. So with a
Redis cache, a line whose level is `None` makes `process_line` raise on the write
(`Core.ClassifyMiss`). With `NoopCache` or no cache, that line is counted under `None`.

## Model

| member | source | states |
|---|---|---|
| `Tokens.Split` | log_api_system/core.py:14 | `split()` returns words that are each non-empty and contain no Python whitespace |
| `Tokens.SplitJoin` | log_api_system/core.py:14 | `split()` undoes `" ".join` on non-empty, whitespace-free words |
| `Tokens.Strip` | log_api_system/core.py:14 | `strip()` never lengthens the line, and what it leaves is empty or begins and ends with a non-whitespace character |
| `Tokens.StripMeaning` | log_api_system/core.py:14 | `strip()` keeps one contiguous middle part of the line, with only whitespace before and after it |
| `Tokens.SplitStrip` | log_api_system/core.py:14 | the `strip()` before `split()` never changes the words |
| `Tokens.TrimLeft` | log_api_system/core.py:14 | `lstrip()` returns a suffix that does not start with whitespace, and only whitespace was dropped |
| `Tokens.TrimRight` | log_api_system/core.py:14 | `rstrip()` returns a prefix that does not end with whitespace, and only whitespace was dropped |
| `Core.ParsePlain` | log_api_system/core.py:13-17 | raises `IndexError` exactly when the line has fewer than three words; otherwise returns the third word if it is a level, and `None` otherwise |
| `Core.PlainRoundTrip` | log_api_system/core.py:13-17 | a line built from two words, a level word and any message parses back to that level; any other third word parses to `None` |
| `Core.ParseJson` | log_api_system/core.py:21-25 | invalid JSON and a non-object raise; a missing `level` gives `None`; a level string is returned; an unhashable value raises; any other value gives `None` |
| `Core.ParseLevel` | log_api_system/core.py:12-25 | either parser returns only one of `INFO`/`WARNING`/`ERROR`, or `None`, or raises |
| `Core.ClassifyWithoutStore` | log_api_system/core.py:35-48 | with no cache or with `NoopCache`, `process_line` returns the parser's outcome and touches no store |
| `Core.Classify` | log_api_system/core.py:35-48 | `process_line`'s outcome and new store, given the store before; it never moves the clock |
| `Core.ClassifyFrame` | log_api_system/core.py:35-48 | `process_line` changes no key but the line's own, and a call that raises, or any call without Redis, leaves the store exactly as it was |
| `Core.ClassifyOutcome` | log_api_system/core.py:37-43 | a level `process_line` returns is the parser's outcome for the line or, with a cache, the live cached value under the line's key |
| `Core.ClassifyHit` | log_api_system/core.py:37-41 | on a hit, the cached value is returned and the store is unchanged, whichever parser (and mode) the analyser has |
| `Core.ClassifyMiss` | log_api_system/core.py:43-48 | on a miss, when the parser raises, `process_line` raises that error and writes nothing; otherwise the parser's level is returned and written under `line_cache_key(line)` with expiry `now + ttl`, and no other key changes; a `None` level or a non-positive ttl fails and writes nothing |
| `Core.ClassifyIdempotent` | log_api_system/core.py:35-48 | classifying a line again straight after gives the same outcome and leaves the store as it was, whether the first call succeeded or raised; with Redis, after a success the second call is a hit |
| `Core.ClassifyKeepsLevels` | log_api_system/core.py:35-48 | while every live line key holds a level, `process_line` returns only levels or `None`, and the store keeps holding only levels |
| `Core.TimeKeepsLevels` | log_api_system/cache.py:35-39 | the passing of time never puts a non-level under a line key |
| `Core.AllowKeepsLevels` | log_api_system/cache.py:41-45 | `allow` on a key that is not a line key leaves every cached level in place |
| `Core.RunLines` | log_api_system/core.py:50-54 | the loop counts one level per line, in order, until the first line that raises |
| `Core.RunLinesAdvance` | log_api_system/core.py:51-53 | after `i` lines, a line `process_line` returns for is counted, and the loop over the remaining lines keeps the same relation to the whole run |
| `Core.RunLinesStop` | log_api_system/core.py:51-52 | after `i` lines, a line on which `process_line` raises ends the whole run with that failure, the counts so far and the store as the raising call left it |
| `Core.LogAnalyser.constructor` | log_api_system/core.py:29-33 | keeps parser, cache and ttl, and starts with an empty counter |
| `Core.LogAnalyser.ProcessLine` | log_api_system/core.py:35-48 | the result and the new store are exactly those of `Classify` on the old store |
| `Core.LogAnalyser.Tally` | log_api_system/core.py:53 | the counter stays the multiset count of every level counted so far, and only the given level's count goes up, by one |
| `Core.LogAnalyser.ProcessNext` | log_api_system/core.py:52-53 | one pass of the loop: the line's level is counted and the run so far advances by one line, or the line raises, nothing is counted and the whole run ends with that failure |
| `Core.LogAnalyser.ProcessLines` | log_api_system/core.py:50-54 | each counted line raises its level's count by one; counts persist across calls; the first raising line ends the call and earlier counts stay; on success the returned counts sum to the number of lines counted so far |
| `Counts.Bump` | log_api_system/core.py:53 | `counts[k] += 1` adds `k` if it is missing, raises its count by one and changes no other key |
| `Counts.SumOverRemove` | log_api_system/app.py:76-78 | the sum of a counter's values does not depend on the order in which keys are taken |
| `Counts.SumOverBump` | log_api_system/app.py:78 | one increment raises the sum of the counts by exactly one |
| `Counts.CountsOfSnoc` | log_api_system/app.py:77-78 | counting one more level is one more increment of the counter |
| `Counts.CountsOf` | log_api_system/app.py:76-78 | the reference counter: its keys are exactly the levels that occur, and no key has count 0 |
| `Counts.CountsOfMeaning` | log_api_system/app.py:76-78 | the counter's keys are exactly the levels that occur, none with count 0, and each count is the number of occurrences |
| `Counts.SumOfCounts` | log_api_system/app.py:76-78 | the counts sum to the number of levels counted |
| `Cache.GetReply` | log_api_system/cache.py:35-36 | `get` returns a value exactly when the key exists and has not expired |
| `Cache.SetEx` | log_api_system/cache.py:38-39 | `set` succeeds exactly for a non-`None` value and a positive ttl; it stores the text with expiry `now + ttl`, leaves every other key unchanged, and changes nothing on failure |
| `Cache.Incr` | log_api_system/cache.py:42 | INCR fails exactly on a live text value or a counter at the 64-bit maximum, and then changes nothing; otherwise it returns the live count plus one (1 for a missing or expired key), keeps a live key's expiry, gives a new key none, and changes no other key |
| `Cache.Expire` | log_api_system/cache.py:43-44 | EXPIRE leaves a missing or expired key alone, deletes a live key for a time that is not positive, and otherwise keeps the value and sets its expiry to `now + seconds`; no other key changes |
| `Cache.AllowStep` | log_api_system/cache.py:41-45 | `allow` raises the key's counter by exactly one and admits iff the new count is `<= limit`; it sets the expiry only when the count becomes 1 (a non-positive window deletes the key) and keeps it otherwise; no other key changes; it fails only on text or a full 64-bit counter |
| `Cache.SeriesInsideWindow` | log_api_system/cache.py:41-45 | while a window's counter stands at `c`, the i-th further call in that window is admitted iff `c + i + 1 <= limit` |
| `Cache.WindowAdmitsFirstLimit` | log_api_system/cache.py:41-45 | within one window that starts with the key absent, exactly the first `limit` calls are admitted and every later call is denied |
| `Cache.SeriesAfter` | log_api_system/cache.py:41-45 | after a series of `allow` calls, the store's clock reads the last call's time, and an empty series changes nothing |
| `Cache.InsideKeepsWindow` | log_api_system/cache.py:42-44 | calls inside a window raise its counter by one each and never move its expiry |
| `Cache.NextWindowAdmits` | log_api_system/cache.py:42-45 | after a window opened by a first call has run out, however many calls it saw (more than `limit` included), the key is gone and the next call is admitted again |
| `Cache.SetThenGet` | log_api_system/cache.py:35-39 | after `set(k, v, ttl)`, `get(k)` returns `v` until `ttl` seconds have elapsed and nothing afterwards; other keys read as before |
| `Cache.NoopGet` | log_api_system/cache.py:19-20 | `NoopCache.get` returns `None` for every key |
| `Cache.NoopAllow` | log_api_system/cache.py:25-26 | `NoopCache.allow` admits every call |
| `Cache.LineCacheKey` | log_api_system/cache.py:48-50 | the key is `"loglevel:"` followed by the digest of the line alone, with no mode |
| `Cache.LineCacheKeyInjective` | log_api_system/cache.py:48-50 | two lines share a key only if their digests are equal |
| `Cache.RedisCache.constructor` | log_api_system/cache.py:30-33 | the connection sees the store in its given state |
| `Cache.RedisCache.Get` | log_api_system/cache.py:35-36 | returns exactly `GetReply` of the current store: a value iff the key is live |
| `Cache.RedisCache.Set` | log_api_system/cache.py:38-39 | the reply and the new store are exactly those of `SetEx` |
| `Cache.RedisCache.Allow` | log_api_system/cache.py:41-45 | INCR, then EXPIRE only when the count is 1; the reply and the new store are exactly those of `AllowStep` |
| `App.SelectParser` | log_api_system/app.py:54 | mode `"plain"` selects the plain parser, and every other mode the JSON parser |
| `App.DispatchAll` | log_api_system/app.py:74 | the dispatch yields one outcome per line |
| `App.DispatchWithoutStore` | log_api_system/app.py:74 | without a store, the i-th outcome is the parser's outcome for the i-th line (order preserved) and the store is unchanged |
| `App.GatherFirstError` | log_api_system/app.py:74 | when line `k` is the first whose outcome raised, the gathered result is exactly that line's failure |
| `App.Gather` | log_api_system/app.py:74 | succeeds iff every line succeeded, with the levels in input order; otherwise it raises the failure of the first raising line |
| `App.BatchCounts` | log_api_system/app.py:74-80 | the response counts are the counter of the gathered levels, and there are none if any line raised |
| `App.BatchCountsMeaning` | log_api_system/app.py:76-78 | a successful batch's counts sum to the number of lines; the keys are exactly the levels that occur, none with count 0; each count is that level's number of lines |
| `App.CountLevels` | log_api_system/app.py:76-78 | the loop builds the counter of the levels, whose counts sum to their number |
| `App.DispatchAdvance` | log_api_system/app.py:91-92 | after `i` lines, one more `process_line` appends its outcome, and the dispatch of the remaining lines continues from the store it left |
| `App.Dispatch` | log_api_system/app.py:91-92 | applies `process_line` to every line in order; outcomes and store are those of `DispatchAll` |
| `App.Parse` | log_api_system/app.py:52-57 | `/parse` gives `Classify` of the line with the mode's parser and a ttl of 60 |
| `App.Batch` | log_api_system/app.py:59-80 | `/batch` returns `BatchCounts` of the in-order dispatch; on success the counts sum to the number of lines |
| `App.BatchThreads` | log_api_system/app.py:82-98 | `/batch_threads` has the same contract as `/batch`, so both give identical counts for the same lines and store |
| `App.CpuProcesses` | log_api_system/app.py:100-108 | `total` is the number of lines; `hashes` holds `min(3, n)` results, the first ones in input order |
| `App.RateLimitKeepsCachedLevels` | log_api_system/app.py:20-22 | the endpoints' rate-limit keys are not line keys, so admitting a request never disturbs a cached level |
| `App.PlainOutcomesFail` | log_api_system/core.py:14-15 | plain-text outcomes whose first short line is line `k` make the batch's counts fail with `IndexError` |
| `App.ShortLineFailsBatch` | log_api_system/core.py:14-15 | without a store, a plain batch whose first short line is line `k` fails as a whole with `IndexError` |
| `App.ExampleLineInfo` | log_api_system/core.py:13-17 | `"2026-01-30 12:01:05 INFO a"` parses to `INFO` |
| `App.ExampleLineError` | log_api_system/core.py:13-17 | `"2026-01-30 12:01:06 ERROR b"` parses to `ERROR` |
| `App.ExampleLineShort` | log_api_system/core.py:14-15 | `"bad line"` raises `IndexError` |

## Left out

- HTTP routing, the request models, and the `/` and `/health` handlers are not modelled. They are web plumbing.
- Concurrency is not modelled. This covers `asyncio.Semaphore`, `gather`, `to_thread`, `ThreadPoolExecutor` and `ProcessPoolExecutor`. Dispatch is a sequential, order-preserving map over the lines (`DispatchAll`).
- Interleaving between lines is not modelled. With real concurrency, two equal lines in one batch can both miss the cache. Sequentially, the second one hits.
- When several lines raise, `asyncio.gather` reports the first one to fail in time. The model reports the first one in input order, as `pool.map` does.
- The rate-limit wait loops of the batch endpoints are not modelled (`while not cache.allow(...): sleep`). They depend on timing. A handler is modelled from the point where its request has been admitted. `allow` itself is modelled.
- Building the Redis client, `ping`, and the import-time fallback to `NoopCache` are not modelled. They are network I/O. The caller chooses the cache (`CacheRef`).
- Network and store failures of GET, SETEX, INCR and EXPIRE are not modelled. Only the errors the commands themselves raise are.
- SHA-256, `json.loads` and `cpu_heavy` are uninterpreted parameters. They are foreign functions. The cost of the digest loop is not modelled.
- `App.BatchThreads`: after a failing line, the model's store holds the cache writes of every line of the batch. The thread pool behind `pool.map` cancels the lines it has not yet started once the failure is raised, so those lines are never classified or cached. Which lines had started depends on thread timing, which is not modelled. The returned failure is the same.
- The clock stands still inside every handler call and for the life of a `RedisCache` object. No method moves `now`, and `Classify`, `RunLines` and `DispatchAll` read every line at the same time. So nothing expires between the lines of one batch or between requests on one cache object. A cached level is never re-parsed after its 60 seconds. A rate window never closes, so after `limit` calls on one object `allow` denies for good. Wall time is outside the model. Time passing is stated only over `Store` values, through `At` (`Cache.SetThenGet`, `Cache.NextWindowAdmits`, `Core.TimeKeepsLevels`). An example of what this hides: a line cached as a level whose entry expires between two of its occurrences in one JSON-mode batch is re-parsed there, and that can raise.
- `Cache.Incr`: any text value gives `NotAnInteger`. Redis would accept a text holding a decimal integer. Counter keys are written only by `allow`, so this does not occur here.
- `Cache.SetEx`: Redis's upper bound on expire times is not modelled.
- JSON numbers keep only their literal text. No number ever equals a level string, so nothing else about numbers matters.
- Python dicts keep keys in insertion order. The counters here are maps without an order.
- Redis removes expired keys on its own schedule. Here they stay in the map but read as absent, which looks the same to every command used.
