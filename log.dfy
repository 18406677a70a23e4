/**
 * The `log` package: a process-wide logger over zap and the CheckErr helper,
 * which logs a non-nil error together with a rebuilt key/value list in which
 * a dangling key is paired with a placeholder and every *http.Response value
 * is replaced by its dump.
 */
module Log {
  import opened Go
  import opened Zap

  /** The value paired with a trailing key that has no partner. */
  const MissingValue: string := "<missing value>"
  /** The message of the nested CheckErr call made when a dump fails. */
  const DumpFailureMessage: string := "can't dump HTTP response"
  /** The prefix of the text that replaces a response whose dump failed. */
  const DumpErrorPrefix: string := "Error dumping response: "

  // ---------------------------------------------------------------------------
  // Logger construction

  /** The configuration NewLogger builds: development or production zap defaults, with the encoding set explicitly. */
  function ConfigFor(isDevelopment: bool): (c: Config)
    ensures c.level == (if isDevelopment then DebugLevel else InfoLevel)
    ensures c.encoding == (if isDevelopment then Console else Json)
    ensures c.development == isDevelopment
  {
    if isDevelopment then NewDevelopmentConfig().(encoding := Console)
    else NewProductionConfig().(encoding := Json)
  }

  /** The package's Logger: a wrapper around one sugared zap logger. */
  class Logger {
    const sugaredLogger: SugaredLogger

    constructor (sugaredLogger: SugaredLogger)
      ensures this.sugaredLogger == sugaredLogger
    {
      this.sugaredLogger := sugaredLogger;
    }
  }

  /**
   * NewLogger: builds a logger with ConfigFor(isDevelopment). Whether zap's
   * config.Build fails is not visible here; `buildError` says what it returns.
   */
  method NewLogger(isDevelopment: bool, buildError: Option<Error>) returns (logger: Logger?, err: Option<Error>)
    ensures err == buildError
    ensures buildError.Some? ==> logger == null
    ensures buildError.None? ==>
      && logger != null && fresh(logger) && fresh(logger.sugaredLogger)
      && logger.sugaredLogger.config == ConfigFor(isDevelopment)
      && logger.sugaredLogger.trace == []
  {
    var config := ConfigFor(isDevelopment);
    if buildError.Some? {
      return null, buildError;
    }
    var zapLogger := new SugaredLogger(config);
    logger := new Logger(zapLogger);
    err := None;
  }

  /** The package-level variables: the `once` guard and the global `logger`. */
  class Globals {
    var done: bool
    var logger: Logger?

    constructor ()
      ensures !done && logger == null
    {
      done := false;
      logger := null;
    }

    /**
     * InitLogger: the first call builds the global logger, and a build failure
     * panics ("failed to initialize logger"), reported here as `panicked`;
     * every later call does nothing.
     */
    method InitLogger(isDevelopment: bool, buildError: Option<Error>) returns (panicked: bool)
      modifies this
      ensures done
      ensures old(done) ==> logger == old(logger) && !panicked
      ensures !old(done) ==> panicked == buildError.Some?
      ensures !old(done) && buildError.Some? ==> logger == null
      ensures !old(done) && buildError.None? ==>
        && logger != null && fresh(logger) && fresh(logger.sugaredLogger)
        && logger.sugaredLogger.config == ConfigFor(isDevelopment)
        && logger.sugaredLogger.trace == []
    {
      panicked := false;
      if !done {
        done := true;
        var err;
        logger, err := NewLogger(isDevelopment, buildError);
        if err.Some? {
          panicked := true;
        }
      }
    }
  }

  // ---------------------------------------------------------------------------
  // httputil.DumpResponse as an oracle

  /** What httputil.DumpResponse(resp, true) returns: the dump, or an error. */
  datatype DumpResult = Dumped(text: string) | DumpFailed(err: Error)

  /**
   * The answer of the n-th DumpResponse call on a response. The attempt number
   * is part of the question because a dump that fails part-way through the body
   * leaves the response changed, so a second dump may answer differently.
   */
  type DumpOracle = (Response, nat) -> DumpResult

  /** `string(dump)`: the dump's text, or "" when DumpResponse returned a nil slice. */
  function DumpBytes(d: DumpResult): string
  {
    match d
    case Dumped(text) => text
    case DumpFailed(_) => ""
  }

  /** httputil.DumpResponse, answering from an oracle and counting its calls. */
  class ResponseDumper {
    const answer: DumpOracle
    var attempts: nat

    constructor (answer: DumpOracle)
      ensures this.answer == answer && attempts == 0
    {
      this.answer := answer;
      attempts := 0;
    }

    method DumpResponse(resp: Response) returns (d: DumpResult)
      modifies this
      ensures d == answer(resp, old(attempts)) && attempts == old(attempts) + 1
    {
      d := answer(resp, attempts);
      attempts := attempts + 1;
    }
  }

  // ---------------------------------------------------------------------------
  // The specification of CheckErr

  /**
   * How a CheckErr call ends: it returns its boolean, or it is still nested
   * more than `fuel` calls deep in dump-failure reports, which stands for the
   * unbounded recursion of the code when dumps keep failing.
   */
  datatype Outcome = Returned(ok: bool) | Exhausted

  /** A CheckErr call: how it ends, the records it hands to zap, in order, and how many dumps it makes. */
  datatype Run = Run(outcome: Outcome, records: seq<Record>, dumps: nat)

  /** The state after some pairs of the rebuild loop. */
  datatype Walk = Walk(rebuilt: seq<Value>, records: seq<Record>, dumps: nat, exhausted: bool)

  /** The number of iterations of the step-by-2 loop over n arguments: ⌈n/2⌉. */
  function Pairs(n: nat): nat
  {
    (n + 1) / 2
  }

  /** Pair p exists while its key's index 2p is inside the list. */
  lemma PairsExceed(n: nat, p: nat)
    requires 2 * p < n
    ensures p < Pairs(n)
  {
  }

  /** The loop stops after Pairs(n) iterations. */
  lemma PairsReached(n: nat, p: nat)
    requires n <= 2 * p <= n + 1
    ensures p == Pairs(n)
  {
  }

  /** The key of pair k of an argument list. */
  function KeyOf(s: seq<Value>, k: nat): Value
    requires 2 * k < |s|
  {
    s[2 * k]
  }

  /** The value of pair k of an argument list, or the placeholder when the key is the last argument. */
  function ValueOf(s: seq<Value>, k: nat): Value
    requires 2 * k < |s|
  {
    if 2 * k + 1 < |s| then s[2 * k + 1] else Str(MissingValue)
  }

  /**
   * CheckErr(err, panic, message, kvs...) where the dumps it makes are the
   * oracle's answers number `attempt`, `attempt` + 1, ...
   */
  function Check(err: Option<Error>, panic: bool, message: string, kvs: seq<Value>,
                 dump: DumpOracle, attempt: nat, fuel: nat): Run
    decreases fuel, if err.None? then 0 else 3, 0
  {
    match err
    case None => Run(Returned(false), [], 0)
    case Some(e) =>
      var w := WalkPairs(kvs, Pairs(|kvs|), dump, attempt, fuel);
      if w.exhausted then Run(Exhausted, w.records, w.dumps)
      else
        var args := [Slice([Str("error"), ErrorValue(e)] + w.rebuilt)];
        Run(Returned(true),
            (if panic then w.records + [Record(PanicLevel, message, args)] else w.records) + [Record(ErrorLevel, message, args)],
            w.dumps)
  }

  /** The first p iterations of CheckErr's rebuild loop over kvs. */
  function WalkPairs(kvs: seq<Value>, p: nat, dump: DumpOracle, attempt: nat, fuel: nat): Walk
    requires p <= Pairs(|kvs|)
    decreases fuel, 2, p
  {
    if p == 0 then Walk([], [], 0, false)
    else
      var w := WalkPairs(kvs, p - 1, dump, attempt, fuel);
      if w.exhausted then w
      else Then(w, Substitute(KeyOf(kvs, p - 1), ValueOf(kvs, p - 1), dump, attempt + w.dumps, fuel))
  }

  /** The loop state after `w` followed by one more iteration that did `s`. */
  function Then(w: Walk, s: Walk): Walk
  {
    Walk(w.rebuilt + s.rebuilt, w.records + s.records, w.dumps + s.dumps, s.exhausted)
  }

  /**
   * One iteration of the rebuild loop on the pair (key, value), its first dump
   * being the oracle's answer number `at`: the pair as rebuilt, the records of
   * the nested call, the dumps made, and whether the iteration was cut short.
   */
  function Substitute(key: Value, value: Value, dump: DumpOracle, at: nat, fuel: nat): Walk
    decreases fuel, 1, 0
  {
    if !value.HttpResponse? then Walk([key, value], [], 0, false)
    else
      var d := dump(value.resp, at);
      var dumpErr: Option<Error> := if d.Dumped? then None else Some(d.err);
      if fuel == 0 && dumpErr.Some? then Walk([], [], 1, true)
      else
        var nested := Check(dumpErr, false, DumpFailureMessage, [Str("response"), value], dump, at + 1,
                            if dumpErr.None? then fuel else fuel - 1);
        if nested.outcome.Exhausted? then Walk([], nested.records, 1 + nested.dumps, true)
        else
          var text := if nested.outcome.ok then DumpErrorPrefix + ErrorText(dumpErr) else DumpBytes(d);
          Walk([key, Str(text)], nested.records, 1 + nested.dumps, false)
  }

  /** Once the loop is cut short, it stays cut short with nothing more done. */
  lemma {:induction false} WalkExhaustedStays(kvs: seq<Value>, p: nat, q: nat, dump: DumpOracle, attempt: nat, fuel: nat)
    requires p <= q <= Pairs(|kvs|)
    requires WalkPairs(kvs, p, dump, attempt, fuel).exhausted
    ensures WalkPairs(kvs, q, dump, attempt, fuel) == WalkPairs(kvs, p, dump, attempt, fuel)
  {
    if q > p {
      WalkExhaustedStays(kvs, p, q - 1, dump, attempt, fuel);
    }
  }

  /** One more iteration of the loop: pair p substituted, its first dump being the next answer. */
  lemma WalkStep(kvs: seq<Value>, p: nat, dump: DumpOracle, attempt: nat, fuel: nat, w: Walk)
    requires p < Pairs(|kvs|) && w == WalkPairs(kvs, p, dump, attempt, fuel) && !w.exhausted
    ensures WalkPairs(kvs, p + 1, dump, attempt, fuel)
         == Then(w, Substitute(KeyOf(kvs, p), ValueOf(kvs, p), dump, attempt + w.dumps, fuel))
  {
  }

  /** A call whose loop ran to the end logs the rebuilt slice after what the loop logged. */
  lemma CheckDone(e: Error, panic: bool, message: string, kvs: seq<Value>, dump: DumpOracle, attempt: nat, fuel: nat,
                  w: Walk, args: seq<Value>)
    requires w == WalkPairs(kvs, Pairs(|kvs|), dump, attempt, fuel) && !w.exhausted
    requires args == [Slice([Str("error"), ErrorValue(e)] + w.rebuilt)]
    ensures Check(Some(e), panic, message, kvs, dump, attempt, fuel)
         == Run(Returned(true),
                (if panic then w.records + [Record(PanicLevel, message, args)] else w.records) + [Record(ErrorLevel, message, args)],
                w.dumps)
  {
  }

  // ---------------------------------------------------------------------------
  // CheckErr

  /**
   * CheckErr(err, panic, message, keysAndValues...) on the global logger
   * `logger`, with httputil.DumpResponse answered by `dumper`. The nested
   * reports of failed dumps may go `fuel` calls deep.
   */
  method CheckErr(logger: Logger, dumper: ResponseDumper, err: Option<Error>, panic: bool, message: string,
                  keysAndValues: seq<Value>, fuel: nat) returns (o: Outcome)
    modifies logger.sugaredLogger, dumper
    decreases fuel, if err.None? then 0 else 3
    ensures var run := Check(err, panic, message, keysAndValues, dumper.answer, old(dumper.attempts), fuel);
      && o == run.outcome
      && dumper.attempts == old(dumper.attempts) + run.dumps
      && logger.sugaredLogger.trace == old(logger.sugaredLogger.trace) + run.records
  {
    if err.None? {
      return Returned(false);
    }
    var sugared := logger.sugaredLogger;
    ghost var attempt0, trace0 := dumper.attempts, sugared.trace;
    ghost var w := WalkPairs(keysAndValues, Pairs(|keysAndValues|), dumper.answer, attempt0, fuel);
    var newKeysAndValues, cutShort := Rebuild(logger, dumper, keysAndValues, fuel);
    if cutShort {
      return Exhausted;
    }
    newKeysAndValues := [Str("error"), ErrorValue(err.value)] + newKeysAndValues;
    CheckDone(err.value, panic, message, keysAndValues, dumper.answer, attempt0, fuel, w, [Slice(newKeysAndValues)]);
    ghost var before := w.records;
    if panic {
      sugared.Emit(PanicLevel, message, [Slice(newKeysAndValues)]);
      TraceAppend(trace0, w.records, [Record(PanicLevel, message, [Slice(newKeysAndValues)])]);
      before := w.records + [Record(PanicLevel, message, [Slice(newKeysAndValues)])];
    }
    assert sugared.trace == trace0 + before;
    sugared.Emit(ErrorLevel, message, [Slice(newKeysAndValues)]);
    TraceAppend(trace0, before, [Record(ErrorLevel, message, [Slice(newKeysAndValues)])]);
    o := Returned(true);
  }

  /**
   * CheckErr's rebuild loop: the pairs of keysAndValues, stepping by 2, each
   * value substituted by SubstitutePair. `cutShort` is set when a nested report
   * ran out of fuel, and the loop then stops where it was.
   */
  method Rebuild(logger: Logger, dumper: ResponseDumper, keysAndValues: seq<Value>, fuel: nat)
      returns (newKeysAndValues: seq<Value>, cutShort: bool)
    modifies logger.sugaredLogger, dumper
    decreases fuel, 2
    ensures var w := WalkPairs(keysAndValues, Pairs(|keysAndValues|), dumper.answer, old(dumper.attempts), fuel);
      && cutShort == w.exhausted
      && (!cutShort ==> newKeysAndValues == w.rebuilt)
      && dumper.attempts == old(dumper.attempts) + w.dumps
      && logger.sugaredLogger.trace == old(logger.sugaredLogger.trace) + w.records
  {
    var sugared := logger.sugaredLogger;
    ghost var attempt0, trace0 := dumper.attempts, sugared.trace;
    newKeysAndValues := [];
    var i := 0;
    ghost var p, w := 0, Walk([], [], 0, false);
    while i < |keysAndValues|
      invariant i == 2 * p && i <= |keysAndValues| + 1 && p <= Pairs(|keysAndValues|)
      invariant w == WalkPairs(keysAndValues, p, dumper.answer, attempt0, fuel) && !w.exhausted
      invariant newKeysAndValues == w.rebuilt
      invariant dumper.attempts == attempt0 + w.dumps
      invariant sugared.trace == trace0 + w.records
    {
      PairsExceed(|keysAndValues|, p);
      var key := keysAndValues[i];
      var value := Str(MissingValue);
      if i + 1 < |keysAndValues| {
        value := keysAndValues[i + 1];
      }
      assert key == KeyOf(keysAndValues, p) && value == ValueOf(keysAndValues, p);
      WalkStep(keysAndValues, p, dumper.answer, attempt0, fuel, w);
      ghost var s := Substitute(key, value, dumper.answer, dumper.attempts, fuel);
      var pair;
      pair, cutShort := SubstitutePair(logger, dumper, key, value, fuel);
      TraceAppend(trace0, w.records, s.records);
      w, p := Then(w, s), p + 1;
      assert w == WalkPairs(keysAndValues, p, dumper.answer, attempt0, fuel);
      assert dumper.attempts == attempt0 + w.dumps && sugared.trace == trace0 + w.records;
      if cutShort {
        WalkExhaustedStays(keysAndValues, p, Pairs(|keysAndValues|), dumper.answer, attempt0, fuel);
        return;
      }
      newKeysAndValues := newKeysAndValues + pair;
      i := i + 2;
    }
    PairsReached(|keysAndValues|, p);
    cutShort := false;
  }

  /**
   * The body of CheckErr's rebuild loop for one pair: a response value is
   * dumped, a failed dump is reported by a nested CheckErr call, and the value
   * is replaced by the dump's text or the error's. `pair` is what the loop
   * appends; `cutShort` is set when the nested report ran out of fuel.
   */
  method SubstitutePair(logger: Logger, dumper: ResponseDumper, key: Value, value: Value, fuel: nat)
      returns (pair: seq<Value>, cutShort: bool)
    modifies logger.sugaredLogger, dumper
    decreases fuel, 1
    ensures var s := Substitute(key, value, dumper.answer, old(dumper.attempts), fuel);
      && pair == s.rebuilt
      && cutShort == s.exhausted
      && dumper.attempts == old(dumper.attempts) + s.dumps
      && logger.sugaredLogger.trace == old(logger.sugaredLogger.trace) + s.records
  {
    if !value.HttpResponse? {
      return [key, value], false;
    }
    var dump := dumper.DumpResponse(value.resp);
    var dumpErr: Option<Error> := if dump.Dumped? then None else Some(dump.err);
    if fuel == 0 && dumpErr.Some? {
      return [], true;
    }
    var nested := CheckErr(logger, dumper, dumpErr, false, DumpFailureMessage, [Str("response"), value],
                           if dumpErr.None? then fuel else fuel - 1);
    if nested.Exhausted? {
      return [], true;
    }
    if nested.ok {
      pair := [key, Str(DumpErrorPrefix + ErrorText(dumpErr))];
    } else {
      pair := [key, Str(DumpBytes(dump))];
    }
    cutShort := false;
  }
}
