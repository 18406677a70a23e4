/**
 * The `golog` package: the same process-wide zap facade as `log`, with a
 * CheckErr that reports an error as one formatted message, preceded by a
 * DPanic record when asked to panic.
 */
module Golog {
  import opened Go
  import opened Zap
  import Log

  /** The package's Logger: a wrapper around one sugared zap logger. */
  class Logger {
    const sugaredLogger: SugaredLogger

    constructor (sugaredLogger: SugaredLogger)
      ensures this.sugaredLogger == sugaredLogger
    {
      this.sugaredLogger := sugaredLogger;
    }
  }

  /**
   * NewLogger: builds a logger with the configuration the `log` package's
   * NewLogger chooses, Log.ConfigFor(isDevelopment). Whether zap's
   * config.Build fails is not visible here; `buildError` says what it returns.
   */
  method NewLogger(isDevelopment: bool, buildError: Option<Error>) returns (logger: Logger?, err: Option<Error>)
    ensures err == buildError
    ensures buildError.Some? ==> logger == null
    ensures buildError.None? ==>
      && logger != null && fresh(logger) && fresh(logger.sugaredLogger)
      && logger.sugaredLogger.config == Log.ConfigFor(isDevelopment)
      && logger.sugaredLogger.trace == []
  {
    var config := Log.ConfigFor(isDevelopment);
    if buildError.Some? {
      return null, buildError;
    }
    var zapLogger := new SugaredLogger(config);
    logger := new Logger(zapLogger);
    err := None;
  }

  /** The package-level variables: the `once` guard and the global `logger`. */
  class Globals {
    var done: bool
    var logger: Logger?

    constructor ()
      ensures !done && logger == null
    {
      done := false;
      logger := null;
    }

    /**
     * InitLogger: the first call builds the global logger, and a build failure
     * panics ("failed to initialize logger"), reported here as `panicked`;
     * every later call does nothing.
     */
    method InitLogger(isDevelopment: bool, buildError: Option<Error>) returns (panicked: bool)
      modifies this
      ensures done
      ensures old(done) ==> logger == old(logger) && !panicked
      ensures !old(done) ==> panicked == buildError.Some?
      ensures !old(done) && buildError.Some? ==> logger == null
      ensures !old(done) && buildError.None? ==>
        && logger != null && fresh(logger) && fresh(logger.sugaredLogger)
        && logger.sugaredLogger.config == Log.ConfigFor(isDevelopment)
        && logger.sugaredLogger.trace == []
    {
      panicked := false;
      if !done {
        done := true;
        var err;
        logger, err := NewLogger(isDevelopment, buildError);
        if err.Some? {
          panicked := true;
        }
      }
    }
  }

  /** fmt.Sprintf("%s: %v", message, err) for a non-nil error. */
  function Formatted(message: string, e: Error): string
  {
    message + ": " + e.text
  }

  /** The records a CheckErr(err, message, panic) call hands to zap, in order. */
  function Reports(err: Option<Error>, message: string, panic: bool): seq<Record>
  {
    match err
    case None => []
    case Some(e) =>
      (if panic then [Record(DPanicLevel, Formatted(message, e), [])] else []) + [Record(ErrorLevel, Formatted(message, e), [])]
  }

  /**
   * CheckErr(err, message, panic) on the global logger `logger`: reports a
   * non-nil error and says whether there was one.
   */
  method CheckErr(logger: Logger, err: Option<Error>, message: string, panic: bool) returns (b: bool)
    modifies logger.sugaredLogger
    ensures b == err.Some?
    ensures logger.sugaredLogger.trace == old(logger.sugaredLogger.trace) + Reports(err, message, panic)
  {
    if err.Some? {
      if panic {
        logger.sugaredLogger.Emit(DPanicLevel, Formatted(message, err.value), []);
      }
      logger.sugaredLogger.Emit(ErrorLevel, Formatted(message, err.value), []);
      return true;
    }
    return false;
  }

  /**
   * A call reports nothing exactly when the error is nil; otherwise its last
   * record is the Error record "message: err", and with `panic` a DPanic
   * record of the same text comes first.
   */
  lemma ReportsOfCheckErr(err: Option<Error>, message: string, panic: bool)
    ensures Reports(err, message, panic) == [] <==> err.None?
    ensures err.Some? ==>
      var r := Reports(err, message, panic);
      && |r| == (if panic then 2 else 1)
      && r[|r| - 1].level == ErrorLevel
      && r[|r| - 1].message == message + ": " + err.value.text
      && r[|r| - 1].args == []
      && (panic ==> r[0] == r[1].(level := DPanicLevel))
  {
  }

  /** Error and DPanic are above both thresholds NewLogger can choose, so every report is written. */
  lemma {:induction false} ReportsWritten(isDevelopment: bool, trace: seq<Record>, err: Option<Error>, message: string, panic: bool)
    ensures Kept(Log.ConfigFor(isDevelopment).level, trace + Reports(err, message, panic))
         == Kept(Log.ConfigFor(isDevelopment).level, trace) + Reports(err, message, panic)
  {
    var reports := Reports(err, message, panic);
    KeptAppend(Log.ConfigFor(isDevelopment).level, trace, reports);
    KeptAllEnabled(Log.ConfigFor(isDevelopment).level, reports);
  }

  /** A Debug record is written by a development logger and dropped by a production one. */
  lemma DebugWrittenOnlyInDevelopment(isDevelopment: bool, trace: seq<Record>, message: string, args: seq<Value>)
    ensures Kept(Log.ConfigFor(isDevelopment).level, trace + [Record(DebugLevel, message, args)])
         == Kept(Log.ConfigFor(isDevelopment).level, trace) + (if isDevelopment then [Record(DebugLevel, message, args)] else [])
  {
    KeptAppend(Log.ConfigFor(isDevelopment).level, trace, [Record(DebugLevel, message, args)]);
  }

  /** An Info record is written by both loggers. */
  lemma InfoWrittenInBothModes(isDevelopment: bool, trace: seq<Record>, message: string, args: seq<Value>)
    ensures Kept(Log.ConfigFor(isDevelopment).level, trace + [Record(InfoLevel, message, args)])
         == Kept(Log.ConfigFor(isDevelopment).level, trace) + [Record(InfoLevel, message, args)]
  {
    KeptAppend(Log.ConfigFor(isDevelopment).level, trace, [Record(InfoLevel, message, args)]);
  }

  /** The text of testify's assert.AnError. */
  const AnErrorText: string := "assert.AnError general error for testing"

  /**
   * The CheckErr scenario on a fresh development logger: a nil error gives
   * false, then a non-nil one gives true, and the only record written is the
   * Error record whose text starts with the message.
   */
  method CheckErrScenario() returns (first: bool, second: bool, logger: Logger)
    ensures !first && second
    ensures logger.sugaredLogger.Written() == [Record(ErrorLevel, "Error happened: " + AnErrorText, [])]
    ensures "Error happened" <= logger.sugaredLogger.Written()[0].message
  {
    var zapLogger := new SugaredLogger(Log.ConfigFor(true));
    logger := new Logger(zapLogger);
    first := CheckErr(logger, None, "No error", false);
    second := CheckErr(logger, Some(Error(AnErrorText)), "Error happened", false);
    assert zapLogger.trace == [] + Reports(Some(Error(AnErrorText)), "Error happened", false);
    assert "Error happened" + ": " == "Error happened: ";
    assert Formatted("Error happened", Error(AnErrorText)) == "Error happened: " + AnErrorText;
    ReportsWritten(true, [], Some(Error(AnErrorText)), "Error happened", false);
  }
}
