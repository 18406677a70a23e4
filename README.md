# go-libs logging facade, in Dafny

This project models the two logging packages of go-libs, `log` and `golog`.
Each package wraps one zap `SugaredLogger` in a process-wide `Logger`, and each
has a `CheckErr` helper that reports a non-nil error.

- `Go` (go.dfy) holds the values that cross Go's `interface{}` arguments: strings, errors, `*http.Response` values, other values and slices.
- `Zap` (zap.dfy) holds what the packages need of zap:
  - the seven levels and their order;
  - the development and production configurations;
  - the log record;
  - a `SugaredLogger` class. Its ghost `trace` is every record handed to it. `Written()` is the part of the trace its level threshold lets through. What zap then does with a record's arguments is not modelled.
- `Log` (log.dfy) models `log/log.go`:
  - `NewLogger`'s choice of configuration and the once-only `InitLogger`.
  - `CheckErr`, as an imperative method:
    - it rebuilds the key/value list two arguments at a time;
    - a trailing key gets `"<missing value>"`;
    - every `*http.Response` value is replaced by its dump (`httputil.DumpResponse`);
    - a failed dump is reported by a nested `CheckErr` call, and the response is then replaced by `"Error dumping response: " + err`;
    - it puts `"error", err` in front;
    - it emits a Panic record when asked, then an Error record.
  - The method is proved against the functional specification `Check` / `WalkPairs` / `Substitute`.
  - The loop is the method `Rebuild`, and its body is the method `SubstitutePair`. The three methods call each other in the order the Go function runs the same code inline.
  - `httputil.DumpResponse` is an oracle object, `ResponseDumper`. It answers the n-th dump with `answer(resp, n)`: a dump that fails part-way leaves the response changed, so a second dump of the same response may answer differently.
- `LogProperties` (log_properties.dfy) states what `log.CheckErr` logs against reference definitions:
  - the rebuilt list, pair by pair;
  - the placeholder;
  - the list of a call without responses;
  - the levels of every record, and that every record gets through either threshold;
  - how failed dumps are reported.
- `Golog` (golog.dfy) models `golog/golog.go`:
  - `NewLogger`, `InitLogger` and `CheckErr`. golog/golog.go:21-27 holds its own copy of the configuration choice in log/log.go:24-30. The two are identical, so the model deliberately keeps one definition, `Log.ConfigFor`, and `Golog` imports it; the Go package does not depend on `log`. `CheckErr` reports the error as one formatted message `message + ": " + err`, preceded by a DPanic record when asked.
  - Lemmas taken from the package's tests: which levels each configuration writes, and the `TestCheckErr` scenario.

Three behaviours of the code are kept as written:

- **One argument.** `log.CheckErr` hands the rebuilt list to `Panicw`/`Errorw` as ONE argument, a slice. It is not spread into key/value pairs, although the comments say it is (log/log.go:145, log/log.go:148). The model's records carry `[Slice(items)]`.
- **Failed dumps recurse without end.** The nested report of a failed dump passes the same response again (log/log.go:131), so a dump that keeps failing recurses without end. The model bounds the depth of non-nil nested calls by a `fuel` parameter. A call that would need more fuel ends `Exhausted`. `LogProperties.FailingDumpNeverReturns` proves that, when every dump fails, a call given a response value is `Exhausted` for every fuel: the Go call never returns.
- **Levels and order.** A failed dump is reported at Error level, by that nested `CheckErr`, not at Warn level. With the panic flag, the Panic record comes before the Error record.

## Model

| member | source | states |
|---|---|---|
| Zap.Kept | golog/golog_test.go:34-40 | the records a threshold lets through are exactly those at or above it, never more than given, and a first record that passes comes first |
| Zap.KeptAppend | golog/golog_test.go:34-40 | filtering records handed over in two parts is filtering each part, one after the other: the records that pass keep their order |
| Zap.SugaredLogger.Emit | log/log.go:144-148 | a `Panicw`/`Errorw`/`Errorf`/`DPanicf` call hands zap one record, appended to the trace; `Written()`, the trace filtered by level, grows by it exactly when it is at or above the threshold |
| Log.ConfigFor | log/log.go:24-30 | development: Debug threshold, console encoding; production: Info threshold, JSON encoding |
| Log.NewLogger | log/log.go:21-38 | a build error is returned with a nil logger; otherwise a fresh logger with that configuration and an empty trace |
| Log.Globals.InitLogger | log/log.go:40-48 | only the first call builds the global logger, and panics if the build fails; later calls change nothing |
| Log.ResponseDumper.DumpResponse | log/log.go:130 | the n-th dump is the oracle's answer number n, and the count goes up by one |
| Log.WalkExhaustedStays | log/log.go:121-139 | once a nested report has run out of fuel, later iterations change nothing |
| Log.CheckErr | log/log.go:115-152 | its result, the dumps it makes and the records it hands to zap are exactly those of the specification `Check`, nested calls included |
| Log.Rebuild | log/log.go:118-139 | the loop's rebuilt list, dumps and nested records are those of all ⌈n/2⌉ iterations, or it stops where a nested report ran out of fuel |
| Log.SubstitutePair | log/log.go:122-138 | one iteration: a non-response pair is copied; a response is dumped, a failed dump is reported by a nested call, and the value becomes the dump's or the error's text |
| LogProperties.CheckOutcome | log/log.go:116-151 | nil error ⟺ returns false, and then nothing is logged or dumped; a non-nil error returns true unless it runs out of fuel |
| LogProperties.SubstitutedPair | log/log.go:129-138 | the rebuilt pair is the key and the value replaced: a response becomes its dump text on success and "Error dumping response: " + err on failure, never the empty string of a nil dump |
| LogProperties.WalkRebuilt | log/log.go:121-139 | after p iterations the list has 2p elements; pair k is the input's key k, in order, with value k replaced |
| LogProperties.CheckLogsRebuilt | log/log.go:142-149 | a non-nil error logs last one Error record with the message and the rebuilt list as its single argument: length 2 + 2⌈n/2⌉, "error" and err first, every input pair after them; with panic the record before it is the same at Panic level |
| LogProperties.TrailingKeyPadded | log/log.go:124-127 | the logged list has n + 2 + (n mod 2) elements; with n odd the last key is followed by "<missing value>" |
| LogProperties.WithoutResponses | log/log.go:121-149 | without responses nothing is dumped, and the records carry "error", err and the padded input list unchanged |
| LogProperties.FailedDumpReportNeverReturns | log/log.go:130-131 | when every dump fails, the nested report of a failed dump never returns, whatever the fuel |
| LogProperties.FailingDumpNeverReturns | log/log.go:129-131 | when every dump fails, a call with a response value never returns, whatever the fuel |
| LogProperties.SucceedingDumpsLogOnlyTheReport | log/log.go:129-134 | when every dump succeeds, a non-nil error returns true even with no fuel and logs only its own one or two records |
| LogProperties.FailedDumpReported | log/log.go:130-132 | a failed dump adds a nested Error record "can't dump HTTP response" whose list starts "error", the dump's error, "response", and the value becomes "Error dumping response: " + err |
| LogProperties.CheckLevels | log/log.go:144-148 | every record of a call is at Error level, or at Panic level when its own flag is set; every record of the nested reports made by the loop is at Error level, so nested reports never panic |
| LogProperties.CheckMoreFuel | log/log.go:115-152 | a call that returns with some fuel returns the same outcome, records and dumps with one more: once a call returns, its result does not depend on the fuel. A call that never returns in Go is one that is `Exhausted` for every fuel (`FailingDumpNeverReturns`) |
| LogProperties.WalkMoreFuel | log/log.go:121-139 | loop iterations that were not cut short are the same with one more unit of fuel |
| LogProperties.SubstituteMoreFuel | log/log.go:122-138 | an iteration that was not cut short is the same with one more unit of fuel |
| LogProperties.FuelIrrelevantOnceReturned | log/log.go:115-152 | once a call returns, any extra fuel leaves its outcome, records and dumps unchanged |
| LogProperties.ReportsAlwaysWritten | log/log.go:144-148 | under either threshold NewLogger chooses, every record a call hands to zap passes the level filter |
| Golog.NewLogger | golog/golog.go:18-35 | a build error is returned with a nil logger; otherwise a fresh logger with an empty trace and the configuration `Log.ConfigFor` describes, which golog/golog.go:21-27 chooses in the same way |
| Golog.Globals.InitLogger | golog/golog.go:37-45 | only the first call builds the global logger, and panics if the build fails; later calls change nothing |
| Golog.CheckErr | golog/golog.go:112-121 | returns whether the error is non-nil, and appends exactly the records `Reports` names |
| Golog.ReportsOfCheckErr | golog/golog.go:113-118 | nothing is reported ⟺ the error is nil; otherwise the last record is Error "message: err" with no arguments, preceded with panic by a DPanic record of the same text |
| Golog.ReportsWritten | golog/golog.go:114-117 | under either threshold NewLogger chooses, the reports pass the level filter, after what passed before |
| Golog.DebugWrittenOnlyInDevelopment | golog/golog_test.go:76-97 | a Debug record is written by the development logger and dropped by the production one |
| Golog.InfoWrittenInBothModes | golog/golog_test.go:49-73 | an Info record such as "key", "value" is written by both loggers |
| Golog.CheckErrScenario | golog/golog_test.go:100-112 | on a development logger, a nil error gives false, `assert.AnError` gives true, and the only record written is the Error record starting "Error happened" |

## Left out

- The forwarding functions and `GetLogger` are not modelled: `Info`, `Debug`, `Warn`, `Error`, `Fatal`, `Panic` and their `f` forms (log/log.go:50-112, golog/golog.go:47-109). They only delegate to zap.
- zap itself is reduced to a level threshold and a trace of records. Encoders, sinks, `Sync`, and caller and stack annotation are not modelled. So the JSON rendering of `"key": "value"` is not modelled; the package's own test writes through a console encoder anyway (golog/golog_test.go:36).
- `fmt` formatting (`%v`, `%s`) is not modelled: an error's and a value's text are opaque strings.
- Go.ErrorText: `%v` of an error (log/log.go:132) is modelled as its text, and `<nil>` for nil.
- Zap.SugaredLogger.Written: zap's handling of a record's arguments is not modelled. `Errorw`/`Panicw` given the lone slice of `log.CheckErr` treat it as a key without a value: zap logs a separate record "Ignored key without a value." (at Error level, or at DPanic level in older zap versions, which panics on a development logger) and writes the message without the list. `Written()` is the records handed to zap that pass the level filter, not what the sink finally prints.
- The HTTP/1.x wire format of `httputil.DumpResponse` (section 3 of RFC 9112) is not modelled: the dump is an oracle answer.
- Log.Globals.InitLogger: models `sync.Once` as a flag, with no concurrent callers.
- Golog.Globals.InitLogger: models `sync.Once` as a flag, with no concurrent callers.
- Log.CheckErr: `Panicw` is a record at Panic level here, and the call goes on. In Go it panics after writing, so the Error record is not reached unless the panic is recovered.
- Log.CheckErr: non-termination is modelled by `fuel`. Nested reports of failed dumps may go `fuel` calls deep, and a call that needs more ends `Exhausted`. In Go it recurses until the stack overflows.
- Log.CheckErr: the global logger is a non-null parameter. A call before `InitLogger` dereferences a nil pointer in Go and is not modelled. Neither is a typed nil `*http.Response` value, on which `DumpResponse` panics.
- Log.CheckErr: the loop and its body are the separate methods `Rebuild` and `SubstitutePair`, not inline code. The dumps, the nested calls and the records come in the same order.
- Golog.CheckErr: `DPanicf` is a record at DPanic level here. In Go it panics after writing when the logger is in development mode.
- Golog.CheckErr: the global logger is a non-null parameter, as in `Log.CheckErr`.
- The test harness's buffer setup is not modelled (golog/golog_test.go:12-46). Its scenarios are stated on the loggers `Log.ConfigFor` configures.
