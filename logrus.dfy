/**
 * The part of the logrus logger that the error-reporting layer relies on.
 * Only what the layer observes is kept: an entry is a set of fields, layering
 * fields onto an entry yields a new entry, and emitting at a level appends a
 * record to the process-wide sink; a Fatal emission ends the process.
 * Formatting, output, level filtering and hooks are not modelled.
 */
module Logrus {
  import opened GoValues

  /** The values that the layer stores in `log.Fields` (a `map[string]interface{}`). */
  datatype FieldValue = IntV(i: int) | StrV(s: string) | StrListV(items: seq<string>)

  type Fields = map<string, FieldValue>

  datatype Level = ErrorLevel | WarnLevel | FatalLevel

  /** One emitted log line: its level, the entry's fields and the logged argument. */
  datatype Record = Record(level: Level, data: Fields, message: Option<ErrorValue>)

  /** The process-wide output of the logger. */
  class Sink {
    var records: seq<Record>
    var terminated: bool

    constructor ()
      ensures records == [] && !terminated
    {
      records := [];
      terminated := false;
    }

    /** Writes one record; nothing is written once the process has exited. */
    method Emit(r: Record)
      requires !terminated
      modifies this
      ensures records == old(records) + [r]
      ensures !terminated
    {
      records := records + [r];
    }

    /** The `os.Exit` that follows a Fatal emission. */
    method Exit()
      modifies this
      ensures records == old(records)
      ensures terminated
    {
      terminated := true;
    }
  }

  /** A `*log.Entry`: the fields attached so far. */
  datatype LogEntry = LogEntry(data: Fields) {

    /**
     * Assumed behaviour of logrus' `Entry.WithFields`: a new entry whose fields
     * are the old ones with `f` layered on top (on a key collision `f` wins).
     */
    function WithFields(f: Fields): (r: LogEntry)
      ensures r.data.Keys == data.Keys + f.Keys
      ensures forall k :: k in f ==> r.data[k] == f[k]
      ensures forall k :: k in data && k !in f ==> r.data[k] == data[k]
    {
      LogEntry(data + f)
    }

    method Error(sink: Sink, err: Option<ErrorValue>)
      requires !sink.terminated
      modifies sink
      ensures sink.records == old(sink.records) + [Record(ErrorLevel, data, err)]
      ensures !sink.terminated
    {
      sink.Emit(Record(ErrorLevel, data, err));
    }

    method Warn(sink: Sink, err: Option<ErrorValue>)
      requires !sink.terminated
      modifies sink
      ensures sink.records == old(sink.records) + [Record(WarnLevel, data, err)]
      ensures !sink.terminated
    {
      sink.Emit(Record(WarnLevel, data, err));
    }

    /** Emits at Fatal level, then the process exits. */
    method Fatal(sink: Sink, err: Option<ErrorValue>)
      requires !sink.terminated
      modifies sink
      ensures sink.records == old(sink.records) + [Record(FatalLevel, data, err)]
      ensures sink.terminated
    {
      sink.Emit(Record(FatalLevel, data, err));
      sink.Exit();
    }
  }

  /** The entry behind logrus' package-level functions: the standard logger, no fields. */
  function Standard(): LogEntry
  {
    LogEntry(map[])
  }

  /** Package-level `log.WithFields`. */
  function WithFields(f: Fields): (r: LogEntry)
    ensures r.data == f
  {
    Standard().WithFields(f)
  }

  /** Package-level `log.Error`. */
  method Error(sink: Sink, err: Option<ErrorValue>)
    requires !sink.terminated
    modifies sink
    ensures sink.records == old(sink.records) + [Record(ErrorLevel, map[], err)]
    ensures !sink.terminated
  {
    Standard().Error(sink, err);
  }
}
