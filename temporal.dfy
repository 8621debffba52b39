/**
 * The Temporal adapter of internal/log/temporal.go: it turns Temporal's
 * variadic keyvals into log fields and forwards each call to the wrapped
 * Logger at the same level.
 */
module Temporal {
  import opened LogModel

  const UnknownKey: string := "unknown"

  /** An element of a keyvals list: a log field, a nested []interface{}, or any other value. */
  datatype KeyVal = FieldArg(field: Field) | SliceArg(elems: seq<KeyVal>) | OtherArg(description: string)

  /** A field handed to the Logger: passed through, or zap.Any(key, value). */
  datatype LogField = Passed(field: Field) | AnyField(key: string, value: KeyVal)

  /** The conversion of one element: a Field passes through, anything else becomes Any("unknown", v). */
  function Convert(kv: KeyVal): (f: LogField)
    ensures kv.FieldArg? <==> f.Passed?
    ensures kv.FieldArg? ==> f.field == kv.field
    ensures !kv.FieldArg? ==> f.key == UnknownKey && f.value == kv
  {
    match kv
    case FieldArg(field) => Passed(field)
    case _ => AnyField(UnknownKey, kv)
  }

  /** One call forwarded to the Logger. */
  datatype LogCall = LogCall(level: Level, msg: string, fields: seq<LogField>)

  /** The wrapped *Logger, recording the calls it receives. */
  class Logger {
    ghost var calls: seq<LogCall>

    constructor ()
      ensures calls == []
    {
      calls := [];
    }

    method Debug(msg: string, fields: seq<LogField>)
      modifies this`calls
      ensures calls == old(calls) + [LogCall(DebugLevel, msg, fields)]
    {
      calls := calls + [LogCall(DebugLevel, msg, fields)];
    }

    method Info(msg: string, fields: seq<LogField>)
      modifies this`calls
      ensures calls == old(calls) + [LogCall(InfoLevel, msg, fields)]
    {
      calls := calls + [LogCall(InfoLevel, msg, fields)];
    }

    method Warn(msg: string, fields: seq<LogField>)
      modifies this`calls
      ensures calls == old(calls) + [LogCall(WarnLevel, msg, fields)]
    {
      calls := calls + [LogCall(WarnLevel, msg, fields)];
    }

    method Error(msg: string, fields: seq<LogField>)
      modifies this`calls
      ensures calls == old(calls) + [LogCall(ErrorLevel, msg, fields)]
    {
      calls := calls + [LogCall(ErrorLevel, msg, fields)];
    }
  }

  class TemporalLogger {
    const logger: Logger

    /** NewTemporalLogger */
    constructor (logger: Logger)
      ensures this.logger == logger
    {
      this.logger := logger;
    }

    /** fields: one converted field per element, in order; no elements give no fields. */
    method Fields(keyvals: seq<KeyVal>) returns (fields: seq<LogField>)
      ensures |fields| == |keyvals|
      ensures forall i :: 0 <= i < |keyvals| ==> fields[i] == Convert(keyvals[i])
    {
      fields := [];
      var i := 0;
      while i < |keyvals|
        invariant i <= |keyvals| && |fields| == i
        invariant forall j :: 0 <= j < i ==> fields[j] == Convert(keyvals[j])
      {
        if !keyvals[i].FieldArg? {
          fields := fields + [AnyField(UnknownKey, keyvals[i])];
          i := i + 1;
          continue;
        }
        fields := fields + [Passed(keyvals[i].field)];
        i := i + 1;
      }
    }

    /*
     * The level methods pass `keyvals` itself, not `keyvals...`, so Fields
     * sees one element, the whole slice, and the Logger always receives the
     * single field Any("unknown", keyvals), even for no keyvals at all.
     */

    method Debug(msg: string, keyvals: seq<KeyVal>)
      modifies logger`calls
      ensures logger.calls == old(logger.calls) + [LogCall(DebugLevel, msg, [AnyField(UnknownKey, SliceArg(keyvals))])]
    {
      var fields := Fields([SliceArg(keyvals)]);
      assert fields == [Convert(SliceArg(keyvals))];
      logger.Debug(msg, fields);
    }

    method Info(msg: string, keyvals: seq<KeyVal>)
      modifies logger`calls
      ensures logger.calls == old(logger.calls) + [LogCall(InfoLevel, msg, [AnyField(UnknownKey, SliceArg(keyvals))])]
    {
      var fields := Fields([SliceArg(keyvals)]);
      assert fields == [Convert(SliceArg(keyvals))];
      logger.Info(msg, fields);
    }

    method Warn(msg: string, keyvals: seq<KeyVal>)
      modifies logger`calls
      ensures logger.calls == old(logger.calls) + [LogCall(WarnLevel, msg, [AnyField(UnknownKey, SliceArg(keyvals))])]
    {
      var fields := Fields([SliceArg(keyvals)]);
      assert fields == [Convert(SliceArg(keyvals))];
      logger.Warn(msg, fields);
    }

    method Error(msg: string, keyvals: seq<KeyVal>)
      modifies logger`calls
      ensures logger.calls == old(logger.calls) + [LogCall(ErrorLevel, msg, [AnyField(UnknownKey, SliceArg(keyvals))])]
    {
      var fields := Fields([SliceArg(keyvals)]);
      assert fields == [Convert(SliceArg(keyvals))];
      logger.Error(msg, fields);
    }
  }
}
