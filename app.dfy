/**
 * The request handlers of log_api_system/app.py, without the web framework:
 * parser selection by mode, the per-line dispatch (a sequential,
 * order-preserving map of `process_line` over the lines), the counting loop
 * shared by `/batch` and `/batch_threads`, and the result of `/cpu_processes`.
 */
module App {
  import opened Wrappers
  import opened Counts
  import opened Cache
  import opened Core

  /** Requests admitted per key and window, and the window length in seconds. */
  const RateLimit: int := 100
  const RateWindow: int := 10
  const BatchRateKey: string := "ratelimit:log_api:/batch"
  const ThreadsRateKey: string := "ratelimit:log_api:/batch_threads"
  const CpuRateKey: string := "ratelimit:log_api:/cpu_processes"

  /** The time-to-live, in seconds, every handler gives its analyser. */
  const CacheTtl: int := 60

  /** `PlainTextParser()` for mode "plain" and `JSONTextParser()` for every other mode. */
  function SelectParser(mode: string, loads: string -> Option<JsonValue>): (p: Parser)
    ensures p.PlainText? <==> mode == "plain"
    ensures forall line ::
      ParseLevel(p, line) == if mode == "plain" then ParsePlain(line) else ParseJson(loads(line))
  {
    if mode == "plain" then PlainText else JsonText(loads)
  }

  /** Each line's outcome, in input order, and the store after all of them. */
  datatype Dispatched = Dispatched(outcomes: seq<Result<Level, Failure>>, after: Store)

  /**
   * The concurrent dispatch of `/batch` and `/batch_threads`, taken in input
   * order: every line is classified, whether or not an earlier one raised.
   * This is what `asyncio.gather` does for `/batch`. For `/batch_threads`,
   * `pool.map` stops at the first failing result and cancels the lines that
   * have not started, so there it over-approximates the cache writes.
   */
  function DispatchAll(classify: (Store, string) -> Step, s: Store, lines: seq<string>): (d: Dispatched)
    ensures |d.outcomes| == |lines|
    decreases |lines|
  {
    if lines == [] then Dispatched([], s)
    else
      var step := classify(s, lines[0]);
      var rest := DispatchAll(classify, step.after, lines[1..]);
      Dispatched([step.result] + rest.outcomes, rest.after)
  }

  /** Without a store each line's outcome is the parser's outcome for that line, in order. */
  lemma {:induction false} DispatchWithoutStore(
    p: Parser, cache: CacheRef, ttl: int, digest: string -> string, s: Store, lines: seq<string>)
    requires cache.NoCache? || cache.Noop?
    ensures var d := DispatchAll(LineStep(p, cache, ttl, digest), s, lines);
      d.after == s && forall i :: 0 <= i < |lines| ==> d.outcomes[i] == Parsed(p, lines[i])
    decreases |lines|
  {
    if lines != [] {
      var classify := LineStep(p, cache, ttl, digest);
      assert classify(s, lines[0]) == Step(Parsed(p, lines[0]), s) by {
        ClassifyWithoutStore(p, cache, ttl, digest, s, lines[0]);
      }
      DispatchWithoutStore(p, cache, ttl, digest, s, lines[1..]);
      var d := DispatchAll(classify, s, lines);
      var rest := DispatchAll(classify, s, lines[1..]);
      assert d.outcomes == [Parsed(p, lines[0])] + rest.outcomes;
      forall i | 0 <= i < |lines| ensures d.outcomes[i] == Parsed(p, lines[i]) {
        if i > 0 {
          assert lines[1..][i - 1] == lines[i];
        }
      }
    }
  }

  /**
   * `asyncio.gather` and `list(pool.map(...))`: all the levels in input order
   * when every line succeeded, otherwise the failure of the first line (in
   * input order) that raised.
   */
  function Gather(outcomes: seq<Result<Level, Failure>>): (r: Result<seq<Level>, Failure>)
    ensures r.Ok? <==> forall i :: 0 <= i < |outcomes| ==> outcomes[i].Ok?
    ensures r.Ok? ==>
      |r.value| == |outcomes| && forall i :: 0 <= i < |outcomes| ==> outcomes[i] == Ok(r.value[i])
    ensures r.Err? ==>
      exists i :: 0 <= i < |outcomes| && outcomes[i] == Err(r.error) && forall j :: 0 <= j < i ==> outcomes[j].Ok?
    decreases |outcomes|
  {
    if outcomes == [] then Ok([])
    else if outcomes[0].Err? then Err(outcomes[0].error)
    else
      var rest := Gather(outcomes[1..]);
      if rest.Err? then Err(rest.error) else Ok([outcomes[0].value] + rest.value)
  }

  /** The failure `Gather` reports is that of the first outcome that raised. */
  lemma {:induction false} GatherFirstError(outcomes: seq<Result<Level, Failure>>, k: nat)
    requires k < |outcomes| && outcomes[k].Err?
    requires forall j :: 0 <= j < k ==> outcomes[j].Ok?
    ensures Gather(outcomes) == Err(outcomes[k].error)
    decreases k
  {
    if k > 0 {
      GatherFirstError(outcomes[1..], k - 1);
    }
  }

  /** The `counts` of a `/batch` or `/batch_threads` response, or the failure it raises. */
  function BatchCounts(outcomes: seq<Result<Level, Failure>>): (r: Result<map<Level, nat>, Failure>)
    ensures r.Ok? <==> Gather(outcomes).Ok?
    ensures r.Ok? ==> r.value == CountsOf(Gather(outcomes).value)
  {
    var gathered := Gather(outcomes);
    if gathered.Err? then Err(gathered.error) else Ok(CountsOf(gathered.value))
  }

  /**
   * A successful batch's counts sum to the number of lines, have exactly the
   * levels that occur as keys (`None` included), none of them zero, and give
   * each level the number of lines classified under it.
   */
  lemma BatchCountsMeaning(outcomes: seq<Result<Level, Failure>>, level: Level)
    requires BatchCounts(outcomes).Ok?
    ensures var counts := BatchCounts(outcomes).value;
      var levels := Gather(outcomes).value;
      SumOver(counts) == |outcomes| &&
      (level in counts <==> Ok(level) in outcomes) &&
      (level in counts ==> counts[level] == multiset(levels)[level] >= 1)
  {
    var levels := Gather(outcomes).value;
    SumOfCounts(levels);
    CountsOfMeaning(levels, level);
    if Ok(level) in outcomes {
      var i :| 0 <= i < |outcomes| && outcomes[i] == Ok(level);
      assert levels[i] == level;
    }
    if level in levels {
      var i :| 0 <= i < |levels| && levels[i] == level;
      assert outcomes[i] == Ok(level);
    }
  }

  /**
   * The counting loop of `/batch` and `/batch_threads`: one counter entry per
   * distinct level, holding its number of occurrences.
   */
  method CountLevels(levels: seq<Level>) returns (counts: map<Level, nat>)
    ensures counts == CountsOf(levels)
    ensures SumOver(counts) == |levels|
  {
    counts := map[];
    for i := 0 to |levels|
      invariant counts == CountsOf(levels[..i])
    {
      var level := levels[i];
      counts := counts[level := (if level in counts then counts[level] else 0) + 1];
      CountsOfSnoc(levels[..i], level);
      assert levels[..i + 1] == levels[..i] + [level];
    }
    assert levels[..|levels|] == levels;
    SumOfCounts(levels);
  }

  /**
   * The dispatch after `i` lines: the outcomes so far, followed by what the
   * remaining lines give from the current store.
   */
  ghost predicate DispatchSoFar(classify: (Store, string) -> Step, s0: Store, lines: seq<string>, i: nat,
                                outcomes: seq<Result<Level, Failure>>, s: Store)
    requires i <= |lines|
  {
    var rest := DispatchAll(classify, s, lines[i..]);
    DispatchAll(classify, s0, lines) == Dispatched(outcomes + rest.outcomes, rest.after)
  }

  /** One more line dispatched: its outcome joins the others and the dispatch goes on from its store. */
  lemma DispatchAdvance(classify: (Store, string) -> Step, s0: Store, lines: seq<string>, i: nat,
                        outcomes: seq<Result<Level, Failure>>, s: Store, step: Step)
    requires i < |lines| && DispatchSoFar(classify, s0, lines, i, outcomes, s)
    requires step == classify(s, lines[i])
    ensures DispatchSoFar(classify, s0, lines, i + 1, outcomes + [step.result], step.after)
  {
    assert lines[i..][0] == lines[i] && lines[i..][1..] == lines[i + 1..];
    var rest := DispatchAll(classify, step.after, lines[i + 1..]);
    assert outcomes + ([step.result] + rest.outcomes) == (outcomes + [step.result]) + rest.outcomes;
  }

  /** The analyser's `process_line` applied to every line, in order. */
  method Dispatch(analyser: LogAnalyser, lines: seq<string>) returns (outcomes: seq<Result<Level, Failure>>)
    modifies CacheObjects(analyser.cache)
    ensures Dispatched(outcomes, CacheState(analyser.cache)) ==
      DispatchAll(LineStep(analyser.parser, analyser.cache, analyser.cacheTtl, analyser.digest),
                  old(CacheState(analyser.cache)), lines)
  {
    ghost var s0 := CacheState(analyser.cache);
    ghost var classify := LineStep(analyser.parser, analyser.cache, analyser.cacheTtl, analyser.digest);
    outcomes := [];
    assert lines[0..] == lines;
    for i := 0 to |lines|
      invariant DispatchSoFar(classify, s0, lines, i, outcomes, CacheState(analyser.cache))
    {
      ghost var before := CacheState(analyser.cache);
      var outcome := analyser.ProcessLine(lines[i]);
      DispatchAdvance(classify, s0, lines, i, outcomes, before, Step(outcome, CacheState(analyser.cache)));
      outcomes := outcomes + [outcome];
    }
    assert lines[|lines|..] == [];
  }

  /** `/parse`: one line through a fresh analyser with the mode's parser. */
  method Parse(mode: string, line: string, loads: string -> Option<JsonValue>,
               digest: string -> string, cache: CacheRef)
    returns (level: Result<Level, Failure>)
    modifies CacheObjects(cache)
    ensures Step(level, CacheState(cache)) ==
      Classify(SelectParser(mode, loads), cache, CacheTtl, digest, old(CacheState(cache)), line)
  {
    var parser := SelectParser(mode, loads);
    var analyser := new LogAnalyser(parser, cache, CacheTtl, digest);
    level := analyser.ProcessLine(line);
  }

  /** `/batch`, after admission: dispatch every line, gather, and count. */
  method Batch(mode: string, lines: seq<string>, loads: string -> Option<JsonValue>,
               digest: string -> string, cache: CacheRef)
    returns (r: Result<map<Level, nat>, Failure>)
    modifies CacheObjects(cache)
    ensures var d := DispatchAll(LineStep(SelectParser(mode, loads), cache, CacheTtl, digest), old(CacheState(cache)), lines);
      CacheState(cache) == d.after && r == BatchCounts(d.outcomes)
    ensures r.Ok? ==> SumOver(r.value) == |lines|
  {
    var parser := SelectParser(mode, loads);
    var analyser := new LogAnalyser(parser, cache, CacheTtl, digest);
    var outcomes := Dispatch(analyser, lines);
    var levels := Gather(outcomes);
    if levels.Err? {
      return Err(levels.error);
    }
    var counts := CountLevels(levels.value);
    r := Ok(counts);
  }

  /** `/batch_threads`, after admission: the same contract as `/batch`, on a thread pool. */
  method BatchThreads(mode: string, lines: seq<string>, loads: string -> Option<JsonValue>,
                      digest: string -> string, cache: CacheRef)
    returns (r: Result<map<Level, nat>, Failure>)
    modifies CacheObjects(cache)
    ensures var d := DispatchAll(LineStep(SelectParser(mode, loads), cache, CacheTtl, digest), old(CacheState(cache)), lines);
      CacheState(cache) == d.after && r == BatchCounts(d.outcomes)
    ensures r.Ok? ==> SumOver(r.value) == |lines|
  {
    var parser := SelectParser(mode, loads);
    var analyser := new LogAnalyser(parser, cache, CacheTtl, digest);
    var outcomes := Dispatch(analyser, lines);
    var levels := Gather(outcomes);
    if levels.Err? {
      return Err(levels.error);
    }
    var counts := CountLevels(levels.value);
    r := Ok(counts);
  }

  /** The response of `/cpu_processes`. */
  datatype CpuResponse = CpuResponse(hashes: seq<string>, total: nat)

  /**
   * `/cpu_processes`, after admission: `heavy` (the iterated SHA-256 of
   * `cpu_heavy`) on every line in order; the response carries the first
   * three results and the number of lines.
   */
  function CpuProcesses(heavy: string -> string, lines: seq<string>): (r: CpuResponse)
    ensures r.total == |lines|
    ensures |r.hashes| == if |lines| < 3 then |lines| else 3
    ensures forall i :: 0 <= i < |r.hashes| ==> r.hashes[i] == heavy(lines[i])
  {
    var results := seq(|lines|, i requires 0 <= i < |lines| => heavy(lines[i]));
    CpuResponse(results[..if |results| < 3 then |results| else 3], |results|)
  }

  /**
   * The endpoints' rate-limit keys are never line keys, so admitting requests
   * never disturbs a cached level.
   */
  lemma RateLimitKeepsCachedLevels(s: Store, key: string)
    requires key == BatchRateKey || key == ThreadsRateKey || key == CpuRateKey
    requires CachedLevels(s)
    ensures CachedLevels(AllowStep(s, key, RateLimit, RateWindow).after)
  {
    assert key[..|LinePrefix|] != LinePrefix by {
      assert key[1] == 'a' && LinePrefix[1] == 'o';
    }
    AllowKeepsLevels(s, key, RateLimit, RateWindow);
  }

  /** Plain-text outcomes, one per line, first raise at the short line `k`. */
  lemma PlainOutcomesFail(lines: seq<string>, outcomes: seq<Result<Level, Failure>>, k: nat)
    requires |outcomes| == |lines| && forall i :: 0 <= i < |lines| ==> outcomes[i] == Parsed(PlainText, lines[i])
    requires k < |lines| && |Tokens.Split(lines[k])| < 3
    requires forall j :: 0 <= j < k ==> |Tokens.Split(lines[j])| >= 3
    ensures BatchCounts(outcomes) == Err(ParseFailed(IndexError))
  {
    assert outcomes[k] == Parsed(PlainText, lines[k]);
    forall j | 0 <= j < k ensures outcomes[j].Ok? {
      assert outcomes[j] == Parsed(PlainText, lines[j]);
    }
    GatherFirstError(outcomes, k);
  }

  /**
   * Without a store (or with the fallback `NoopCache`), a plain batch whose
   * first line of fewer than three words is line `k` fails as a whole with
   * `IndexError`: the short line is not counted under a separate bucket.
   */
  lemma ShortLineFailsBatch(cache: CacheRef, digest: string -> string, s: Store, lines: seq<string>, k: nat)
    requires cache.NoCache? || cache.Noop?
    requires k < |lines| && |Tokens.Split(lines[k])| < 3
    requires forall j :: 0 <= j < k ==> |Tokens.Split(lines[j])| >= 3
    ensures BatchCounts(DispatchAll(LineStep(PlainText, cache, CacheTtl, digest), s, lines).outcomes) ==
      Err(ParseFailed(IndexError))
  {
    DispatchWithoutStore(PlainText, cache, CacheTtl, digest, s, lines);
    PlainOutcomesFail(lines, DispatchAll(LineStep(PlainText, cache, CacheTtl, digest), s, lines).outcomes, k);
  }

  /** The first line of a sample batch of three: a level. */
  lemma ExampleLineInfo()
    ensures ParsePlain("2026-01-30 12:01:05 INFO a") == Ok(Some("INFO"))
  {
    ExampleTokens();
    assert "2026-01-30 12:01:05 INFO a" == "2026-01-30" + " " + "12:01:05" + " " + "INFO" + " " + "a";
    PlainRoundTrip("2026-01-30", "12:01:05", "INFO", "a");
  }

  /** The second line of the sample batch: another level. */
  lemma ExampleLineError()
    ensures ParsePlain("2026-01-30 12:01:06 ERROR b") == Ok(Some("ERROR"))
  {
    ExampleTokens();
    assert "2026-01-30 12:01:06 ERROR b" == "2026-01-30" + " " + "12:01:06" + " " + "ERROR" + " " + "b";
    PlainRoundTrip("2026-01-30", "12:01:06", "ERROR", "b");
  }

  /** The third line of the sample batch, "bad line": too short, so it raises `IndexError`. */
  lemma ExampleLineShort()
    ensures ParsePlain("bad line") == Err(IndexError)
  {
    ExampleTokens();
    assert "bad line" == "bad" + " line";
    Tokens.SplitToken("bad", " line");
    assert " line"[1..] == "line";
    Tokens.SplitToken("line", "");
    assert "line" + "" == "line";
  }

  lemma ExampleTokens()
    ensures Tokens.IsToken("2026-01-30") && Tokens.IsToken("12:01:05") && Tokens.IsToken("12:01:06")
    ensures Tokens.IsToken("INFO") && Tokens.IsToken("ERROR") && Tokens.IsToken("bad") && Tokens.IsToken("line")
  {
  }
}
