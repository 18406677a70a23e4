/**
 * What a call of the `log` package's CheckErr logs, stated against reference
 * definitions independent of the rebuild loop: the rebuilt key/value list pair
 * by pair, the placeholder of a trailing key, the list of a call without
 * responses, the levels of every record, and the reporting of failed dumps,
 * including the unbounded nesting when dumps keep failing.
 */
module LogProperties {
  import opened Go
  import opened Zap
  import opened Log

  /** The text that replaces a response: its dump, or the dump's error after the prefix. */
  function DumpText(d: DumpResult): string
  {
    match d
    case Dumped(text) => text
    case DumpFailed(e) => DumpErrorPrefix + e.text
  }

  /** A value as it is logged: a response becomes the text of the dump answered as number `at`; anything else is kept. */
  function Replaced(v: Value, dump: DumpOracle, at: nat): Value
  {
    if v.HttpResponse? then Str(DumpText(dump(v.resp, at))) else v
  }

  /**
   * Pair `k` of kvs appears, as it is logged, as pair `k + offset` of `out`:
   * the key as given and the value replaced, the dump being the oracle's
   * answer after those made for the pairs before it.
   */
  ghost predicate PairLogged(out: seq<Value>, offset: nat, kvs: seq<Value>, k: nat, dump: DumpOracle, attempt: nat, fuel: nat)
  {
    && 2 * k < |kvs| && k <= Pairs(|kvs|) && 2 * (k + offset) < |out|
    && KeyOf(out, k + offset) == KeyOf(kvs, k)
    && ValueOf(out, k + offset) == Replaced(ValueOf(kvs, k), dump, attempt + WalkPairs(kvs, k, dump, attempt, fuel).dumps)
  }

  /** The first p pairs of kvs appear, as they are logged, as the first p pairs of `out`. */
  ghost predicate PairsLogged(out: seq<Value>, kvs: seq<Value>, p: nat, dump: DumpOracle, attempt: nat, fuel: nat)
  {
    forall k :: 0 <= k < p ==> PairLogged(out, 0, kvs, k, dump, attempt, fuel)
  }

  /** The arguments logged by a CheckErr(e, ..., kvs...) call: "error" and e, then every pair of kvs as it is logged. */
  ghost predicate LoggedArgs(e: Error, kvs: seq<Value>, dump: DumpOracle, attempt: nat, fuel: nat, items: seq<Value>)
  {
    && |items| == 2 + 2 * Pairs(|kvs|)
    && items[0] == Str("error")
    && items[1] == ErrorValue(e)
    && forall k :: 0 <= k < Pairs(|kvs|) ==> PairLogged(items, 1, kvs, k, dump, attempt, fuel)
  }

  /**
   * A nil error returns false and neither logs nor dumps; a non-nil one
   * returns true unless the nested reports run out of fuel.
   */
  lemma CheckOutcome(err: Option<Error>, panic: bool, message: string, kvs: seq<Value>, dump: DumpOracle, attempt: nat, fuel: nat)
    ensures var run := Check(err, panic, message, kvs, dump, attempt, fuel);
      && (err.None? <==> run.outcome == Returned(false))
      && (err.None? ==> run.records == [] && run.dumps == 0)
      && (err.Some? ==> run.outcome in {Returned(true), Exhausted})
  {
  }

  /** A dump that does not fail the report is the dump's text; a failed one is the error's text. */
  lemma SubstitutedPair(key: Value, value: Value, dump: DumpOracle, at: nat, fuel: nat)
    requires !Substitute(key, value, dump, at, fuel).exhausted
    ensures Substitute(key, value, dump, at, fuel).rebuilt == [key, Replaced(value, dump, at)]
    ensures !value.HttpResponse? ==> Substitute(key, value, dump, at, fuel) == Walk([key, value], [], 0, false)
  {
    if value.HttpResponse? {
      var d := dump(value.resp, at);
      if d.DumpFailed? {
        var nested := Check(Some(d.err), false, DumpFailureMessage, [Str("response"), value], dump, at + 1, fuel - 1);
        assert nested.outcome == Returned(true);
      }
    }
  }

  /** A complete pair of `out` stays where it is when more arguments follow. */
  lemma PairLoggedExtended(out: seq<Value>, extra: seq<Value>, offset: nat, kvs: seq<Value>, k: nat,
                           dump: DumpOracle, attempt: nat, fuel: nat)
    requires PairLogged(out, offset, kvs, k, dump, attempt, fuel) && 2 * (k + offset) + 1 < |out|
    ensures PairLogged(out + extra, offset, kvs, k, dump, attempt, fuel)
  {
    assert KeyOf(out + extra, k + offset) == KeyOf(out, k + offset);
    assert ValueOf(out + extra, k + offset) == ValueOf(out, k + offset);
  }

  /** After p iterations the rebuilt list holds p pairs: each key as given, each value replaced. */
  lemma {:induction false} WalkRebuilt(kvs: seq<Value>, p: nat, dump: DumpOracle, attempt: nat, fuel: nat)
    requires p <= Pairs(|kvs|) && !WalkPairs(kvs, p, dump, attempt, fuel).exhausted
    ensures var w := WalkPairs(kvs, p, dump, attempt, fuel);
      |w.rebuilt| == 2 * p && PairsLogged(w.rebuilt, kvs, p, dump, attempt, fuel)
  {
    if p > 0 {
      var w0 := WalkPairs(kvs, p - 1, dump, attempt, fuel);
      assert !w0.exhausted;
      WalkRebuilt(kvs, p - 1, dump, attempt, fuel);
      PairsExceed(|kvs|, p - 1) by { assert 2 * (p - 1) < |kvs|; }
      WalkStep(kvs, p - 1, dump, attempt, fuel, w0);
      var s := Substitute(KeyOf(kvs, p - 1), ValueOf(kvs, p - 1), dump, attempt + w0.dumps, fuel);
      SubstitutedPair(KeyOf(kvs, p - 1), ValueOf(kvs, p - 1), dump, attempt + w0.dumps, fuel);
      RebuiltExtended(w0.rebuilt, s.rebuilt, kvs, p, dump, attempt, fuel);
    }
  }

  /** Appending the key and the replaced value of pair p - 1 to the first p - 1 logged pairs logs p pairs. */
  lemma RebuiltExtended(prev: seq<Value>, pair: seq<Value>, kvs: seq<Value>, p: nat, dump: DumpOracle, attempt: nat, fuel: nat)
    requires 0 < p <= Pairs(|kvs|) && 2 * (p - 1) < |kvs|
    requires |prev| == 2 * (p - 1)
    requires PairsLogged(prev, kvs, p - 1, dump, attempt, fuel)
    requires |pair| == 2 && pair[0] == KeyOf(kvs, p - 1)
    requires pair[1] == Replaced(ValueOf(kvs, p - 1), dump, attempt + WalkPairs(kvs, p - 1, dump, attempt, fuel).dumps)
    ensures |prev + pair| == 2 * p
    ensures PairsLogged(prev + pair, kvs, p, dump, attempt, fuel)
  {
    forall k | 0 <= k < p
      ensures PairLogged(prev + pair, 0, kvs, k, dump, attempt, fuel)
    {
      if k < p - 1 {
        PairLoggedExtended(prev, pair, 0, kvs, k, dump, attempt, fuel);
      }
    }
  }

  /**
   * A CheckErr call with a non-nil error that returns logs, last, one Error
   * record whose single argument is the rebuilt list, preceded by a Panic
   * record with the same argument when `panic` is set.
   */
  lemma CheckLogsRebuilt(e: Error, panic: bool, message: string, kvs: seq<Value>, dump: DumpOracle, attempt: nat, fuel: nat)
    requires Check(Some(e), panic, message, kvs, dump, attempt, fuel).outcome.Returned?
    ensures var run := Check(Some(e), panic, message, kvs, dump, attempt, fuel);
      && run.outcome == Returned(true)
      && |run.records| >= (if panic then 2 else 1)
      && var last := run.records[|run.records| - 1];
      && last.level == ErrorLevel && last.message == message
      && |last.args| == 1 && last.args[0].Slice?
      && LoggedArgs(e, kvs, dump, attempt, fuel, last.args[0].items)
      && (panic ==> run.records[|run.records| - 2] == last.(level := PanicLevel))
  {
    var w := WalkPairs(kvs, Pairs(|kvs|), dump, attempt, fuel);
    WalkRebuilt(kvs, Pairs(|kvs|), dump, attempt, fuel);
    var items := [Str("error"), ErrorValue(e)] + w.rebuilt;
    forall k | 0 <= k < Pairs(|kvs|)
      ensures PairLogged(items, 1, kvs, k, dump, attempt, fuel)
    {
      assert PairLogged(w.rebuilt, 0, kvs, k, dump, attempt, fuel);
      assert KeyOf(items, k + 1) == KeyOf(w.rebuilt, k) && ValueOf(items, k + 1) == ValueOf(w.rebuilt, k);
    }
    assert LoggedArgs(e, kvs, dump, attempt, fuel, items);
  }

  /**
   * A trailing key is logged with the placeholder value; with an even number
   * of arguments no placeholder is added.
   */
  lemma TrailingKeyPadded(e: Error, panic: bool, message: string, kvs: seq<Value>, dump: DumpOracle, attempt: nat, fuel: nat)
    requires Check(Some(e), panic, message, kvs, dump, attempt, fuel).outcome.Returned?
    ensures var run := Check(Some(e), panic, message, kvs, dump, attempt, fuel);
      && |run.records| >= 1
      && var items := run.records[|run.records| - 1].args[0].items;
      && |items| == 2 + |kvs| + |kvs| % 2
      && (|kvs| % 2 == 1 ==> items[|items| - 2] == kvs[|kvs| - 1] && items[|items| - 1] == Str(MissingValue))
  {
    CheckLogsRebuilt(e, panic, message, kvs, dump, attempt, fuel);
    var run := Check(Some(e), panic, message, kvs, dump, attempt, fuel);
    var items := run.records[|run.records| - 1].args[0].items;
    if |kvs| % 2 == 1 {
      assert PairLogged(items, 1, kvs, Pairs(|kvs|) - 1, dump, attempt, fuel);
    }
  }

  /** No argument is a response. */
  predicate NoResponses(kvs: seq<Value>)
  {
    forall i :: 0 <= i < |kvs| ==> !kvs[i].HttpResponse?
  }

  /** The arguments with the placeholder appended after a trailing key. */
  function Padded(kvs: seq<Value>): (r: seq<Value>)
    ensures |r| == 2 * Pairs(|kvs|)
  {
    if |kvs| % 2 == 1 then kvs + [Str(MissingValue)] else kvs
  }

  lemma {:induction false} WalkWithoutResponses(kvs: seq<Value>, p: nat, dump: DumpOracle, attempt: nat, fuel: nat)
    requires NoResponses(kvs) && p <= Pairs(|kvs|)
    ensures WalkPairs(kvs, p, dump, attempt, fuel) == Walk(Padded(kvs)[..2 * p], [], 0, false)
  {
    if p > 0 {
      WalkWithoutResponses(kvs, p - 1, dump, attempt, fuel);
      PairsExceed(|kvs|, p - 1) by { assert 2 * (p - 1) < |kvs|; }
      var padded := Padded(kvs);
      assert ValueOf(kvs, p - 1) == padded[2 * p - 1];
      assert padded[..2 * (p - 1)] == padded[..2 * p][..2 * (p - 1)];
      assert padded[..2 * p] == padded[..2 * (p - 1)] + [KeyOf(kvs, p - 1), ValueOf(kvs, p - 1)];
    }
  }

  /**
   * Without responses, CheckErr dumps nothing and logs the arguments as given,
   * a trailing key padded, after "error" and the error.
   */
  lemma WithoutResponses(e: Error, panic: bool, message: string, kvs: seq<Value>, dump: DumpOracle, attempt: nat, fuel: nat)
    requires NoResponses(kvs)
    ensures var args := [Slice([Str("error"), ErrorValue(e)] + Padded(kvs))];
      Check(Some(e), panic, message, kvs, dump, attempt, fuel)
        == Run(Returned(true),
               (if panic then [Record(PanicLevel, message, args)] else []) + [Record(ErrorLevel, message, args)],
               0)
  {
    WalkWithoutResponses(kvs, Pairs(|kvs|), dump, attempt, fuel);
    assert Padded(kvs)[..2 * Pairs(|kvs|)] == Padded(kvs);
  }

  /** Every dump answer is an error. */
  ghost predicate AlwaysFails(dump: DumpOracle)
  {
    forall r: Response, n: nat :: dump(r, n).DumpFailed?
  }

  /** Every dump answer is a dump. */
  ghost predicate NeverFails(dump: DumpOracle)
  {
    forall r: Response, n: nat :: dump(r, n).Dumped?
  }

  /**
   * The report of a failed dump logs the same response again, so when dumps
   * keep failing the reports nest without end: no fuel is enough.
   */
  lemma {:induction false} FailedDumpReportNeverReturns(e: Error, r: Response, dump: DumpOracle, at: nat, fuel: nat)
    requires AlwaysFails(dump)
    decreases fuel
    ensures Check(Some(e), false, DumpFailureMessage, [Str("response"), HttpResponse(r)], dump, at, fuel).outcome == Exhausted
  {
    var s := Substitute(Str("response"), HttpResponse(r), dump, at, fuel);
    assert WalkPairs([Str("response"), HttpResponse(r)], 1, dump, at, fuel) == Then(Walk([], [], 0, false), s);
    var d := dump(r, at);
    assert d.DumpFailed?;
    if fuel > 0 {
      FailedDumpReportNeverReturns(d.err, r, dump, at + 1, fuel - 1);
    }
  }

  /** When dumps keep failing, a CheckErr call given a response value never returns. */
  lemma FailingDumpNeverReturns(e: Error, panic: bool, message: string, kvs: seq<Value>, k: nat,
                                dump: DumpOracle, attempt: nat, fuel: nat)
    requires AlwaysFails(dump)
    requires 2 * k + 1 < |kvs| && kvs[2 * k + 1].HttpResponse?
    ensures Check(Some(e), panic, message, kvs, dump, attempt, fuel).outcome == Exhausted
  {
    PairsExceed(|kvs|, k);
    var w := WalkPairs(kvs, k, dump, attempt, fuel);
    if w.exhausted {
      WalkExhaustedStays(kvs, k, Pairs(|kvs|), dump, attempt, fuel);
    } else {
      WalkStep(kvs, k, dump, attempt, fuel, w);
      var at := attempt + w.dumps;
      var r := kvs[2 * k + 1].resp;
      var d := dump(r, at);
      assert d.DumpFailed?;
      if fuel > 0 {
        FailedDumpReportNeverReturns(d.err, r, dump, at + 1, fuel - 1);
      }
      WalkExhaustedStays(kvs, k + 1, Pairs(|kvs|), dump, attempt, fuel);
    }
  }

  lemma {:induction false} WalkWithSucceedingDumps(kvs: seq<Value>, p: nat, dump: DumpOracle, attempt: nat, fuel: nat)
    requires NeverFails(dump) && p <= Pairs(|kvs|)
    ensures !WalkPairs(kvs, p, dump, attempt, fuel).exhausted && WalkPairs(kvs, p, dump, attempt, fuel).records == []
  {
    if p > 0 {
      WalkWithSucceedingDumps(kvs, p - 1, dump, attempt, fuel);
      PairsExceed(|kvs|, p - 1) by { assert 2 * (p - 1) < |kvs|; }
      var w0 := WalkPairs(kvs, p - 1, dump, attempt, fuel);
      var value := ValueOf(kvs, p - 1);
      var s := Substitute(KeyOf(kvs, p - 1), value, dump, attempt + w0.dumps, fuel);
      assert WalkPairs(kvs, p, dump, attempt, fuel) == Then(w0, s);
      if value.HttpResponse? {
        assert dump(value.resp, attempt + w0.dumps).Dumped?;
        var nested := Check(None, false, DumpFailureMessage, [Str("response"), value], dump, attempt + w0.dumps + 1, fuel);
        assert nested == Run(Returned(false), [], 0);
      }
    }
  }

  /** When every dump succeeds, CheckErr returns whatever the fuel and logs only its own records. */
  lemma SucceedingDumpsLogOnlyTheReport(e: Error, panic: bool, message: string, kvs: seq<Value>,
                                         dump: DumpOracle, attempt: nat, fuel: nat)
    requires NeverFails(dump)
    ensures var run := Check(Some(e), panic, message, kvs, dump, attempt, fuel);
      run.outcome == Returned(true) && |run.records| == (if panic then 2 else 1)
  {
    WalkWithSucceedingDumps(kvs, Pairs(|kvs|), dump, attempt, fuel);
  }

  /** A failed dump is reported by an Error record, and the response is logged as the error's text. */
  lemma FailedDumpReported(key: Value, r: Response, dump: DumpOracle, at: nat, fuel: nat, e: Error)
    requires dump(r, at) == DumpFailed(e)
    requires !Substitute(key, HttpResponse(r), dump, at, fuel).exhausted
    ensures var s := Substitute(key, HttpResponse(r), dump, at, fuel);
      && s.rebuilt == [key, Str(DumpErrorPrefix + e.text)]
      && |s.records| >= 1
      && var last := s.records[|s.records| - 1];
      && last.level == ErrorLevel && last.message == DumpFailureMessage
      && |last.args| == 1 && last.args[0].Slice? && |last.args[0].items| == 4
      && last.args[0].items[..3] == [Str("error"), ErrorValue(e), Str("response")]
  {
    SubstitutedPair(key, HttpResponse(r), dump, at, fuel);
    CheckLogsRebuilt(e, false, DumpFailureMessage, [Str("response"), HttpResponse(r)], dump, at + 1, fuel - 1);
    var nested := Check(Some(e), false, DumpFailureMessage, [Str("response"), HttpResponse(r)], dump, at + 1, fuel - 1);
    var items := nested.records[|nested.records| - 1].args[0].items;
    assert PairLogged(items, 1, [Str("response"), HttpResponse(r)], 0, dump, at + 1, fuel - 1);
  }

  // ---------------------------------------------------------------------------
  // Levels

  /** Every record of a call is at Error level, or at Panic level when the call's flag is set. */
  lemma {:induction false} CheckLevels(err: Option<Error>, panic: bool, message: string, kvs: seq<Value>,
                                       dump: DumpOracle, attempt: nat, fuel: nat)
    decreases fuel, if err.None? then 0 else 3, 0
    ensures forall x :: x in Check(err, panic, message, kvs, dump, attempt, fuel).records ==>
      x.level == ErrorLevel || (panic && x.level == PanicLevel)
    ensures err.Some? ==> forall x :: x in WalkPairs(kvs, Pairs(|kvs|), dump, attempt, fuel).records ==> x.level == ErrorLevel
  {
    if err.Some? {
      WalkLevels(kvs, Pairs(|kvs|), dump, attempt, fuel);
    }
  }

  /** Every record of the nested reports made by the loop is at Error level. */
  lemma {:induction false} WalkLevels(kvs: seq<Value>, p: nat, dump: DumpOracle, attempt: nat, fuel: nat)
    requires p <= Pairs(|kvs|)
    decreases fuel, 2, p
    ensures forall x :: x in WalkPairs(kvs, p, dump, attempt, fuel).records ==> x.level == ErrorLevel
  {
    if p > 0 {
      WalkLevels(kvs, p - 1, dump, attempt, fuel);
      var w := WalkPairs(kvs, p - 1, dump, attempt, fuel);
      if !w.exhausted {
        SubstituteLevels(KeyOf(kvs, p - 1), ValueOf(kvs, p - 1), dump, attempt + w.dumps, fuel);
      }
    }
  }

  lemma {:induction false} SubstituteLevels(key: Value, value: Value, dump: DumpOracle, at: nat, fuel: nat)
    decreases fuel, 1, 0
    ensures forall x :: x in Substitute(key, value, dump, at, fuel).records ==> x.level == ErrorLevel
  {
    if value.HttpResponse? {
      var d := dump(value.resp, at);
      if d.DumpFailed? && fuel > 0 {
        CheckLevels(Some(d.err), false, DumpFailureMessage, [Str("response"), value], dump, at + 1, fuel - 1);
      }
    }
  }

  /** Error and Panic are above both thresholds NewLogger can choose, so every record of a call is written. */
  lemma ReportsAlwaysWritten(isDevelopment: bool, err: Option<Error>, panic: bool, message: string, kvs: seq<Value>,
                             dump: DumpOracle, attempt: nat, fuel: nat)
    ensures var records := Check(err, panic, message, kvs, dump, attempt, fuel).records;
      Kept(ConfigFor(isDevelopment).level, records) == records
  {
    CheckLevels(err, panic, message, kvs, dump, attempt, fuel);
    KeptAllEnabled(ConfigFor(isDevelopment).level, Check(err, panic, message, kvs, dump, attempt, fuel).records);
  }

  // ---------------------------------------------------------------------------
  // Fuel

  /**
   * A call that returns with some fuel returns the same with one more: once a
   * call returns, its result does not depend on the fuel.
   */
  lemma {:induction false} CheckMoreFuel(err: Option<Error>, panic: bool, message: string, kvs: seq<Value>,
                                         dump: DumpOracle, attempt: nat, fuel: nat)
    decreases fuel, if err.None? then 0 else 3, 0
    requires Check(err, panic, message, kvs, dump, attempt, fuel).outcome.Returned?
    ensures Check(err, panic, message, kvs, dump, attempt, fuel + 1) == Check(err, panic, message, kvs, dump, attempt, fuel)
  {
    if err.Some? {
      WalkMoreFuel(kvs, Pairs(|kvs|), dump, attempt, fuel);
    }
  }

  lemma {:induction false} WalkMoreFuel(kvs: seq<Value>, p: nat, dump: DumpOracle, attempt: nat, fuel: nat)
    requires p <= Pairs(|kvs|)
    requires !WalkPairs(kvs, p, dump, attempt, fuel).exhausted
    decreases fuel, 2, p
    ensures WalkPairs(kvs, p, dump, attempt, fuel + 1) == WalkPairs(kvs, p, dump, attempt, fuel)
  {
    if p > 0 {
      var w := WalkPairs(kvs, p - 1, dump, attempt, fuel);
      assert !w.exhausted;
      PairsExceed(|kvs|, p - 1) by { assert 2 * (p - 1) < |kvs|; }
      var s := Substitute(KeyOf(kvs, p - 1), ValueOf(kvs, p - 1), dump, attempt + w.dumps, fuel);
      assert WalkPairs(kvs, p, dump, attempt, fuel) == Then(w, s);
      WalkMoreFuel(kvs, p - 1, dump, attempt, fuel);
      SubstituteMoreFuel(KeyOf(kvs, p - 1), ValueOf(kvs, p - 1), dump, attempt + w.dumps, fuel);
      assert WalkPairs(kvs, p, dump, attempt, fuel + 1) == Then(w, s);
    }
  }

  lemma {:induction false} SubstituteMoreFuel(key: Value, value: Value, dump: DumpOracle, at: nat, fuel: nat)
    requires !Substitute(key, value, dump, at, fuel).exhausted
    decreases fuel, 1, 0
    ensures Substitute(key, value, dump, at, fuel + 1) == Substitute(key, value, dump, at, fuel)
  {
    if value.HttpResponse? {
      var d := dump(value.resp, at);
      if d.DumpFailed? && fuel > 0 {
        CheckMoreFuel(Some(d.err), false, DumpFailureMessage, [Str("response"), value], dump, at + 1, fuel - 1);
      }
    }
  }

  /** Any amount of extra fuel leaves a returned call's outcome, records and dumps unchanged. */
  lemma {:induction false} FuelIrrelevantOnceReturned(err: Option<Error>, panic: bool, message: string, kvs: seq<Value>,
                                                      dump: DumpOracle, attempt: nat, fuel: nat, more: nat)
    requires Check(err, panic, message, kvs, dump, attempt, fuel).outcome.Returned?
    ensures Check(err, panic, message, kvs, dump, attempt, fuel + more) == Check(err, panic, message, kvs, dump, attempt, fuel)
  {
    if more > 0 {
      FuelIrrelevantOnceReturned(err, panic, message, kvs, dump, attempt, fuel, more - 1);
      CheckMoreFuel(err, panic, message, kvs, dump, attempt, fuel + more - 1);
    }
  }
}
