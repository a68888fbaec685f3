/**
 * The classification core of log_api_system/core.py: the plain-text and
 * JSON level parsers, and `LogAnalyser`, which looks a line up in the cache,
 * parses it on a miss, writes the result back, and keeps a running count of
 * the levels it has produced.
 *
 * A Python exception is an `Err` result. A `None` level is `None`.
 */
module Core {
  import opened Wrappers
  import opened Tokens
  import opened Counts
  import opened Cache

  /** The levels both parsers recognise; anything else parses to `None`. */
  const Levels: set<string> := {"INFO", "WARNING", "ERROR"}

  /** What `parse_level` returns: one of `Levels`, or `None`. */
  type Level = Option<string>

  /** The exceptions a parser raises. */
  datatype ParseError =
    | IndexError       // a plain line with fewer than three words
    | JsonDecodeError  // `json.loads` rejects the line
    | AttributeError   // the decoded JSON is not an object, so it has no `.get`
    | UnhashableType   // the `level` field is a list or an object, which a set lookup rejects

  /** A decoded JSON document, as `json.loads` returns it. */
  datatype JsonValue =
    | JNull
    | JBool(b: bool)
    | JNumber(literal: string)
    | JString(s: string)
    | JArray(items: seq<JsonValue>)
    | JObject(fields: map<string, JsonValue>)

  /**
   * `PlainTextParser.parse_level`: the third whitespace-separated word when it
   * is a level, `None` when it is another word, and an error when the line has
   * fewer than three words. Any first two words are accepted.
   */
  function ParsePlain(line: string): (r: Result<Level, ParseError>)
    ensures r.Err? <==> |Split(line)| < 3
    ensures r.Err? ==> r.error == IndexError
    ensures r.Ok? ==> (r.value.Some? <==> Split(line)[2] in Levels)
    ensures r.Ok? && r.value.Some? ==> r.value.value == Split(line)[2]
  {
    var parts := Split(Strip(line));
    SplitStrip(line);
    if |parts| < 3 then Err(IndexError)
    else
      var level := parts[2];
      if level in Levels then Ok(Some(level)) else Ok(None)
  }

  /**
   * `JSONTextParser.parse_level` on the already-decoded document (`None` when
   * the line is not valid JSON): the `level` field when it is one of the
   * levels, and `None` when it is missing or holds any other hashable value.
   */
  function ParseJson(doc: Option<JsonValue>): (r: Result<Level, ParseError>)
    ensures doc.None? ==> r == Err(JsonDecodeError)
    ensures doc.Some? && !doc.value.JObject? ==> r == Err(AttributeError)
    ensures doc.Some? && doc.value.JObject? && "level" !in doc.value.fields ==> r == Ok(None)
    ensures doc.Some? && doc.value.JObject? && "level" in doc.value.fields ==>
      var v := doc.value.fields["level"];
      r == if v.JArray? || v.JObject? then Err(UnhashableType)
           else if v.JString? && v.s in Levels then Ok(Some(v.s))
           else Ok(None)
  {
    match doc
    case None => Err(JsonDecodeError)
    case Some(obj) =>
      if !obj.JObject? then Err(AttributeError)
      else if "level" !in obj.fields then Ok(None)
      else match obj.fields["level"]
        case JString(level) => if level in Levels then Ok(Some(level)) else Ok(None)
        case JArray(_) => Err(UnhashableType)
        case JObject(_) => Err(UnhashableType)
        case _ => Ok(None)
  }

  /** The two parser classes; the JSON one carries the decoder `json.loads` it uses. */
  datatype Parser = PlainText | JsonText(loads: string -> Option<JsonValue>)

  /** `parser.parse_level(line)`: only ever one of the levels, or `None`, or an error. */
  function ParseLevel(p: Parser, line: string): (r: Result<Level, ParseError>)
    ensures r.Ok? && r.value.Some? ==> r.value.value in Levels
  {
    match p
    case PlainText => ParsePlain(line)
    case JsonText(loads) => ParseJson(loads(line))
  }

  /**
   * A line written as two leading words (a date and a time, say), a level
   * word and any message, separated by single spaces, parses back to that
   * level; a different third word parses to `None`.
   */
  lemma PlainRoundTrip(date: string, time: string, level: string, message: string)
    requires IsToken(date) && IsToken(time) && IsToken(level)
    ensures ParsePlain(date + " " + time + " " + level + " " + message) ==
      if level in Levels then Ok(Some(level)) else Ok(None)
  {
    var afterLevel := " " + message;
    var afterTime := " " + (level + afterLevel);
    var afterDate := " " + (time + afterTime);
    assert date + " " + time + " " + level + " " + message == date + afterDate;
    SplitToken(level, afterLevel);
    assert Split(afterLevel) == Split(message) by { assert afterLevel[1..] == message; }
    SplitToken(time, afterTime);
    assert Split(afterTime) == Split(level + afterLevel) by { assert afterTime[1..] == level + afterLevel; }
    SplitToken(date, afterDate);
    assert Split(afterDate) == Split(time + afterTime) by { assert afterDate[1..] == time + afterTime; }
    assert Split(date + afterDate)[2] == level;
  }

  /** The cache a `LogAnalyser` is given: none at all, the no-op fallback, or a Redis store. */
  datatype CacheRef = NoCache | Noop | Redis(store: RedisCache)

  /** The objects a cache access may touch. */
  function CacheObjects(cache: CacheRef): set<object>
  {
    if cache.Redis? then {cache.store} else {}
  }

  /** The store behind a cache; without Redis there is none, and an empty one stands in. */
  ghost function CacheState(cache: CacheRef): Store
    reads CacheObjects(cache)
  {
    if cache.Redis? then cache.store.State() else Store(map[], 0)
  }

  /** What can make `process_line` raise. */
  datatype Failure = ParseFailed(parse: ParseError) | StoreFailed(store: StoreError)

  /** The outcome of `process_line` and the store it leaves behind. */
  datatype Step = Step(result: Result<Level, Failure>, after: Store)

  /**
   * `LogAnalyser.process_line`: with a cache, compute the line's key and
   * return the cached value on a hit; otherwise parse, and with a cache write
   * the level back under the key with the analyser's time-to-live.
   */
  function Classify(p: Parser, cache: CacheRef, ttl: int, digest: string -> string, s: Store, line: string)
    : (step: Step)
    ensures step.after.now == s.now
  {
    if cache.NoCache? then
      var level := ParseLevel(p, line);
      if level.Err? then Step(Err(ParseFailed(level.error)), s) else Step(Ok(level.value), s)
    else
      var key := LineCacheKey(digest, line);
      var cached := if cache.Noop? then NoopGet(key) else GetReply(s, key);
      if cached.Some? then Step(Ok(cached), s)
      else
        var level := ParseLevel(p, line);
        if level.Err? then Step(Err(ParseFailed(level.error)), s)
        else if cache.Noop? then Step(Ok(level.value), s)
        else
          var written := SetEx(s, key, level.value, ttl);
          if written.result.Err? then Step(Err(StoreFailed(written.result.error)), s)
          else Step(Ok(level.value), written.after)
  }

  /** `process_line` of an analyser with these settings, as a function of the store and the line. */
  function LineStep(p: Parser, cache: CacheRef, ttl: int, digest: string -> string): (Store, string) -> Step
  {
    (s: Store, line: string) => Classify(p, cache, ttl, digest, s, line)
  }

  /** The parser's own outcome, with its exception wrapped as a `Failure`. */
  function Parsed(p: Parser, line: string): Result<Level, Failure>
  {
    var level := ParseLevel(p, line);
    if level.Err? then Err(ParseFailed(level.error)) else Ok(level.value)
  }

  /**
   * Only a successful call with Redis changes the store, and then only under
   * the line's key.
   */
  lemma ClassifyFrame(p: Parser, cache: CacheRef, ttl: int, digest: string -> string, s: Store, line: string)
    ensures var step := Classify(p, cache, ttl, digest, s, line);
      step.after.entries - {LineCacheKey(digest, line)} == s.entries - {LineCacheKey(digest, line)}
    ensures var step := Classify(p, cache, ttl, digest, s, line);
      step.result.Err? || !cache.Redis? ==> step.after == s
  {
    if cache.Redis? {
      var key := LineCacheKey(digest, line);
      var level := ParseLevel(p, line);
      if GetReply(s, key).None? && level.Ok? {
        var written := SetEx(s, key, level.value, ttl);
        assert Classify(p, cache, ttl, digest, s, line) ==
          if written.result.Err? then Step(Err(StoreFailed(written.result.error)), s)
          else Step(Ok(level.value), written.after);
      }
    }
  }

  /** A level comes either from the parser or, with a cache, from a live cached entry. */
  lemma ClassifyOutcome(p: Parser, cache: CacheRef, ttl: int, digest: string -> string, s: Store, line: string)
    ensures var step := Classify(p, cache, ttl, digest, s, line);
      step.result.Ok? ==>
      step.result == Parsed(p, line) ||
      (!cache.NoCache? && step.result == Ok(GetReply(s, LineCacheKey(digest, line))))
  {
  }

  /** Without a cache, or with `NoopCache`, a line's level is the parser's and no store is touched. */
  lemma ClassifyWithoutStore(p: Parser, cache: CacheRef, ttl: int, digest: string -> string, s: Store, line: string)
    requires cache.NoCache? || cache.Noop?
    ensures Classify(p, cache, ttl, digest, s, line) == Step(Parsed(p, line), s)
  {
  }

  /**
   * On a hit the cached value is returned and the store is untouched,
   * whichever parser (and so whichever mode) the analyser has: the parser is
   * never consulted.
   */
  lemma ClassifyHit(p: Parser, q: Parser, store: RedisCache, ttl: int, digest: string -> string, s: Store, line: string)
    requires GetReply(s, LineCacheKey(digest, line)).Some?
    ensures Classify(p, Redis(store), ttl, digest, s, line) ==
      Step(Ok(GetReply(s, LineCacheKey(digest, line))), s)
    ensures Classify(p, Redis(store), ttl, digest, s, line) == Classify(q, Redis(store), ttl, digest, s, line)
  {
  }

  /**
   * On a miss the result is the parser's level, written under the line's key
   * for `ttl` seconds, and no other key changes. The Redis client refuses a
   * `None` level, so a line without a level fails on the write. When the
   * parser raises, `process_line` raises with it and nothing is cached.
   */
  lemma ClassifyMiss(p: Parser, store: RedisCache, ttl: int, digest: string -> string, s: Store, line: string)
    requires GetReply(s, LineCacheKey(digest, line)).None?
    ensures ParseLevel(p, line).Err? ==>
      Classify(p, Redis(store), ttl, digest, s, line) == Step(Err(ParseFailed(ParseLevel(p, line).error)), s)
    ensures ParseLevel(p, line).Ok? ==>
      var key := LineCacheKey(digest, line);
      var level := ParseLevel(p, line).value;
      var step := Classify(p, Redis(store), ttl, digest, s, line);
      if level.Some? && ttl > 0 then
        step.result == Ok(level) &&
        step.after == s.(entries := s.entries[key := Entry(Text(level.value), Some(s.now + ttl))])
      else
        step.result.Err? && step.after == s
  {
    var key := LineCacheKey(digest, line);
    var level := ParseLevel(p, line);
    if level.Ok? {
      var written := SetEx(s, key, level.value, ttl);
      assert Classify(p, Redis(store), ttl, digest, s, line) ==
        if written.result.Err? then Step(Err(StoreFailed(written.result.error)), s)
        else Step(Ok(level.value), written.after);
    }
  }

  /**
   * A line that has just been classified is classified the same way again
   * straight after, and the second call changes nothing. With Redis, after a
   * success the second call is a hit.
   */
  lemma ClassifyIdempotent(p: Parser, cache: CacheRef, ttl: int, digest: string -> string, s: Store, line: string)
    ensures var first := Classify(p, cache, ttl, digest, s, line);
      Classify(p, cache, ttl, digest, first.after, line) == first
    ensures var first := Classify(p, cache, ttl, digest, s, line);
      cache.Redis? && first.result.Ok? ==>
      GetReply(first.after, LineCacheKey(digest, line)) == first.result.value && first.result.value.Some?
  {
    var key := LineCacheKey(digest, line);
    var first := Classify(p, cache, ttl, digest, s, line);
    if first.result.Err? || !cache.Redis? || GetReply(s, key).Some? {
      assert first.after == s;
    } else {
      assert first.after.entries[key] == Entry(Text(first.result.value.value), Some(s.now + ttl));
      assert Live(first.after, key);
    }
  }

  /** The key is one under which `process_line` caches a level. */
  predicate IsLineKey(key: string)
  {
    |key| >= |LinePrefix| && key[..|LinePrefix|] == LinePrefix
  }

  /** Every live line key holds the text of a level. */
  ghost predicate CachedLevels(s: Store)
  {
    forall key :: IsLineKey(key) && Live(s, key) ==>
      s.entries[key].value.Text? && s.entries[key].value.text in Levels
  }

  /**
   * While the store holds only levels under line keys, `process_line` only
   * ever returns a level or `None`, and the store keeps holding only levels.
   */
  lemma ClassifyKeepsLevels(p: Parser, cache: CacheRef, ttl: int, digest: string -> string, s: Store, line: string)
    requires CachedLevels(s)
    ensures var step := Classify(p, cache, ttl, digest, s, line);
      (step.result.Ok? && step.result.value.Some? ==> step.result.value.value in Levels) &&
      CachedLevels(step.after)
  {
    var key := LineCacheKey(digest, line);
    assert IsLineKey(key);
    var step := Classify(p, cache, ttl, digest, s, line);
    forall k | IsLineKey(k) && Live(step.after, k)
      ensures step.after.entries[k].value.Text? && step.after.entries[k].value.text in Levels
    {
      if k != key {
        assert k in s.entries && step.after.entries[k] == s.entries[k];
        assert Live(s, k);
      }
    }
  }

  /** Time passing never puts a non-level under a line key. */
  lemma TimeKeepsLevels(s: Store, t: int)
    requires CachedLevels(s) && t >= s.now
    ensures CachedLevels(At(s, t))
  {
    forall k | IsLineKey(k) && Live(At(s, t), k)
      ensures At(s, t).entries[k].value.Text? && At(s, t).entries[k].value.text in Levels
    {
      assert Live(s, k);
    }
  }

  /** Rate limiting on a key that is not a line key leaves every cached level in place. */
  lemma AllowKeepsLevels(s: Store, key: string, limit: int, window: int)
    requires CachedLevels(s) && !IsLineKey(key)
    ensures CachedLevels(AllowStep(s, key, limit, window).after)
  {
    var after := AllowStep(s, key, limit, window).after;
    forall k | IsLineKey(k) && Live(after, k)
      ensures after.entries[k].value.Text? && after.entries[k].value.text in Levels
    {
      assert k != key;
      assert k in s.entries && after.entries[k] == s.entries[k];
      assert Live(s, k);
    }
  }

  /** The levels `process_lines` counts and, when a line raises, what it raised. */
  datatype Run = Run(levels: seq<Level>, failure: Option<Failure>, after: Store)

  /**
   * The `for` loop of `process_lines`: classify the lines in order, stopping
   * at the first one that raises. The levels are those counted before that.
   * `classify` is what `process_line` does to one line from a given store
   * (`LineStep` of the analyser's settings).
   */
  function RunLines(classify: (Store, string) -> Step, s: Store, lines: seq<string>): (run: Run)
    ensures |run.levels| <= |lines|
    ensures run.failure.None? ==> |run.levels| == |lines|
    decreases |lines|
  {
    if lines == [] then Run([], None, s)
    else
      var step := classify(s, lines[0]);
      if step.result.Err? then Run([], Some(step.result.error), step.after)
      else
        var rest := RunLines(classify, step.after, lines[1..]);
        Run([step.result.value] + rest.levels, rest.failure, rest.after)
  }

  /**
   * The loop of `process_lines` after `i` lines: the levels counted so far,
   * followed by what the remaining lines give from the current store.
   */
  ghost predicate RunSoFar(classify: (Store, string) -> Step, s0: Store,
                           lines: seq<string>, i: nat, done: seq<Level>, s: Store)
    requires i <= |lines|
  {
    var rest := RunLines(classify, s, lines[i..]);
    RunLines(classify, s0, lines) == Run(done + rest.levels, rest.failure, rest.after)
  }

  /** The first line of a non-empty run, classified from the store the run starts in. */
  lemma RunLinesFirst(classify: (Store, string) -> Step, s: Store, lines: seq<string>, step: Step)
    requires lines != [] && step == classify(s, lines[0])
    ensures step.result.Err? ==> RunLines(classify, s, lines) == Run([], Some(step.result.error), step.after)
    ensures step.result.Ok? ==>
      var rest := RunLines(classify, step.after, lines[1..]);
      RunLines(classify, s, lines) == Run([step.result.value] + rest.levels, rest.failure, rest.after)
  {
  }

  /** One more line classified without raising: its level is counted and the loop goes on. */
  lemma RunLinesAdvance(classify: (Store, string) -> Step, s0: Store,
                        lines: seq<string>, i: nat, done: seq<Level>, s: Store, step: Step)
    requires i < |lines| && RunSoFar(classify, s0, lines, i, done, s)
    requires step == classify(s, lines[i]) && step.result.Ok?
    ensures RunSoFar(classify, s0, lines, i + 1, done + [step.result.value], step.after)
  {
    assert lines[i..][0] == lines[i] && lines[i..][1..] == lines[i + 1..];
    RunLinesFirst(classify, s, lines[i..], step);
    var rest := RunLines(classify, step.after, lines[i + 1..]);
    assert done + ([step.result.value] + rest.levels) == (done + [step.result.value]) + rest.levels;
  }

  /** One more line classified, and it raises: the loop ends with that failure. */
  lemma RunLinesStop(classify: (Store, string) -> Step, s0: Store,
                     lines: seq<string>, i: nat, done: seq<Level>, s: Store, step: Step)
    requires i < |lines| && RunSoFar(classify, s0, lines, i, done, s)
    requires step == classify(s, lines[i]) && step.result.Err?
    ensures RunLines(classify, s0, lines) == Run(done, Some(step.result.error), step.after)
  {
    assert lines[i..][0] == lines[i];
    RunLinesFirst(classify, s, lines[i..], step);
    assert done + [] == done;
  }

  /**
   * `LogAnalyser`: a parser, an optional cache with a time-to-live, and the
   * running counter of every level it has counted so far.
   */
  class LogAnalyser {
    const parser: Parser
    const cache: CacheRef
    const cacheTtl: int
    /** The SHA-256 hex digest `line_cache_key` applies. */
    const digest: string -> string
    /** `self.counts`: level to number of lines counted under it. */
    var counts: map<Level, nat>
    /** Every level counted so far, in order. */
    ghost var history: seq<Level>

    ghost predicate Valid()
      reads this
    {
      counts == CountsOf(history)
    }

    constructor (parser: Parser, cache: CacheRef, cacheTtl: int, digest: string -> string)
      ensures Valid() && history == [] && counts == map[]
      ensures this.parser == parser && this.cache == cache && this.cacheTtl == cacheTtl
      ensures this.digest == digest
    {
      this.parser := parser;
      this.cache := cache;
      this.cacheTtl := cacheTtl;
      this.digest := digest;
      counts := map[];
      history := [];
    }

    /** `process_line`. */
    method ProcessLine(line: string) returns (r: Result<Level, Failure>)
      modifies CacheObjects(cache)
      ensures Step(r, CacheState(cache)) == Classify(parser, cache, cacheTtl, digest, old(CacheState(cache)), line)
    {
      var key: Option<string> := None;
      if !cache.NoCache? {
        key := Some(LineCacheKey(digest, line));
        var cached: Option<string>;
        if cache.Noop? {
          cached := NoopGet(key.value);
        } else {
          cached := cache.store.Get(key.value);
        }
        if cached.Some? {
          return Ok(cached);
        }
      }
      var level := ParseLevel(parser, line);
      if level.Err? {
        return Err(ParseFailed(level.error));
      }
      if key.Some? && cache.Redis? {
        // `NoopCache.set` does nothing, so only Redis is written to.
        var written := cache.store.Set(key.value, level.value, cacheTtl);
        if written.Err? {
          return Err(StoreFailed(written.error));
        }
      }
      r := Ok(level.value);
    }

    /** `self.counts[level] += 1` on the `defaultdict`. */
    method Tally(level: Level)
      requires Valid()
      modifies this
      ensures Valid() && history == old(history) + [level]
      ensures counts == Bump(old(counts), level)
    {
      counts := counts[level := (if level in counts then counts[level] else 0) + 1];
      CountsOfSnoc(history, level);
      history := history + [level];
    }

    /**
     * One pass of the loop in `process_lines`: process line `i` and count its
     * level, or stop with what it raised, leaving the counts as they were.
     */
    method ProcessNext(lines: seq<string>, i: nat, ghost s0: Store, ghost done: seq<Level>)
      returns (r: Result<Level, Failure>)
      requires i < |lines| && Valid()
      requires RunSoFar(LineStep(parser, cache, cacheTtl, digest), s0, lines, i, done, CacheState(cache))
      modifies this, CacheObjects(cache)
      ensures Valid()
      ensures r.Ok? ==>
        history == old(history) + [r.value] &&
        RunSoFar(LineStep(parser, cache, cacheTtl, digest), s0, lines, i + 1, done + [r.value], CacheState(cache))
      ensures r.Err? ==>
        history == old(history) &&
        RunLines(LineStep(parser, cache, cacheTtl, digest), s0, lines) == Run(done, Some(r.error), CacheState(cache))
    {
      ghost var before := CacheState(cache);
      r := ProcessLine(lines[i]);
      if r.Ok? {
        RunLinesAdvance(LineStep(parser, cache, cacheTtl, digest), s0, lines, i, done, before, Step(r, CacheState(cache)));
        Tally(r.value);
      } else {
        RunLinesStop(LineStep(parser, cache, cacheTtl, digest), s0, lines, i, done, before, Step(r, CacheState(cache)));
      }
    }

    /**
     * `process_lines`: count each line's level into the running counter and
     * return a copy of it. A line that raises ends the call, leaving the
     * counts of the lines before it in place. On success the counts sum to
     * the number of lines this analyser has counted so far.
     */
    method ProcessLines(lines: seq<string>) returns (r: Result<map<Level, nat>, Failure>)
      requires Valid()
      modifies this, CacheObjects(cache)
      ensures Valid()
      ensures var run := RunLines(LineStep(parser, cache, cacheTtl, digest), old(CacheState(cache)), lines);
        history == old(history) + run.levels && CacheState(cache) == run.after &&
        r == if run.failure.Some? then Err(run.failure.value) else Ok(counts)
      ensures r.Ok? ==> SumOver(r.value) == |history|
    {
      ghost var s0 := CacheState(cache);
      ghost var done: seq<Level> := [];
      assert lines[0..] == lines;
      var i := 0;
      while i < |lines|
        invariant 0 <= i <= |lines|
        invariant Valid() && history == old(history) + done
        invariant RunSoFar(LineStep(parser, cache, cacheTtl, digest), s0, lines, i, done, CacheState(cache))
      {
        var level := ProcessNext(lines, i, s0, done);
        if level.Err? {
          return Err(level.error);
        }
        done := done + [level.value];
        i := i + 1;
      }
      assert lines[|lines|..] == [];
      SumOfCounts(history);
      r := Ok(counts);
    }
  }
}
