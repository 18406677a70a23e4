/**
 * The part of the zap logging library the facade relies on: levels, the two
 * stock configurations, and a sugared logger reduced to a level threshold and
 * the trace of records it lets through.
 */
module Zap {
  import opened Go

  /** zap's levels, in increasing severity. */
  datatype Level = DebugLevel | InfoLevel | WarnLevel | ErrorLevel | DPanicLevel | PanicLevel | FatalLevel

  /** zap's numeric level values (zapcore.DebugLevel is -1, FatalLevel is 5). */
  function Rank(level: Level): int
  {
    match level
    case DebugLevel => -1
    case InfoLevel => 0
    case WarnLevel => 1
    case ErrorLevel => 2
    case DPanicLevel => 3
    case PanicLevel => 4
    case FatalLevel => 5
  }

  /** A logger whose threshold is `threshold` writes records of `level`. */
  predicate Enabled(threshold: Level, level: Level)
  {
    Rank(threshold) <= Rank(level)
  }

  datatype Encoding = Console | Json

  datatype Config = Config(level: Level, encoding: Encoding, development: bool)

  /** zap.NewDevelopmentConfig: Debug threshold, console encoding. */
  function NewDevelopmentConfig(): Config
  {
    Config(DebugLevel, Console, true)
  }

  /** zap.NewProductionConfig: Info threshold, JSON encoding. */
  function NewProductionConfig(): Config
  {
    Config(InfoLevel, Json, false)
  }

  /** One log call as handed to zap: its level, its message and its arguments. */
  datatype Record = Record(level: Level, message: string, args: seq<Value>)

  /** The records, in order, that a logger with threshold `threshold` writes. */
  function Kept(threshold: Level, records: seq<Record>): (r: seq<Record>)
    ensures |r| <= |records|
    ensures forall x :: x in r <==> x in records && Enabled(threshold, x.level)
    ensures records != [] && Enabled(threshold, records[0].level) ==> r != [] && r[0] == records[0]
  {
    if records == [] then []
    else (if Enabled(threshold, records[0].level) then [records[0]] else []) + Kept(threshold, records[1..])
  }

  /** Filtering a trace piecewise is filtering it whole. */
  lemma {:induction false} KeptAppend(threshold: Level, a: seq<Record>, b: seq<Record>)
    ensures Kept(threshold, a + b) == Kept(threshold, a) + Kept(threshold, b)
  {
    if a == [] {
      assert a + b == b;
    } else {
      assert (a + b)[0] == a[0] && (a + b)[1..] == a[1..] + b;
      KeptAppend(threshold, a[1..], b);
    }
  }

  /**
   * Proof aid: handing over a and then b hands over a + b. Callers that emit
   * two records in a row use it to regroup the trace.
   */
  lemma TraceAppend(trace: seq<Record>, a: seq<Record>, b: seq<Record>)
    ensures trace + a + b == trace + (a + b)
  {
  }

  /** A trace whose every record is at or above the threshold is written unchanged. */
  lemma {:induction false} KeptAllEnabled(threshold: Level, records: seq<Record>)
    requires forall x :: x in records ==> Enabled(threshold, x.level)
    ensures Kept(threshold, records) == records
  {
    if records != [] {
      KeptAllEnabled(threshold, records[1..]);
    }
  }

  /**
   * A zap SugaredLogger, seen through the records handed to it (`trace`) and
   * the ones among them its level threshold lets through (`Written`). What zap
   * then makes of a record's arguments is not modelled.
   */
  class SugaredLogger {
    const config: Config
    ghost var trace: seq<Record>

    constructor (config: Config)
      ensures this.config == config && trace == []
    {
      this.config := config;
      trace := [];
    }

    /** The records handed to zap that pass its level filter, in order. */
    ghost function Written(): seq<Record>
      reads this
    {
      Kept(config.level, trace)
    }

    /** Infow, Errorw, Panicw, Errorf, DPanicf, ...: one record handed to zap. */
    method Emit(level: Level, message: string, args: seq<Value>)
      modifies this
      ensures trace == old(trace) + [Record(level, message, args)]
      ensures Written() == old(Written()) + Kept(config.level, [Record(level, message, args)])
    {
      trace := trace + [Record(level, message, args)];
      KeptAppend(config.level, old(trace), [Record(level, message, args)]);
    }
  }
}
