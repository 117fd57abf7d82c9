/**
 * The package-level functions of onerror.go: the same four operations as the
 * scoped Entry, acting on the standard logger, and the wrapper constructor
 * WithEntry. Each contract is the Entry method's contract applied to
 * StandardEntry(), the entry with no fields of its own.
 */
module OnError {
  import opened GoValues
  import opened Logrus
  import opened FieldBuilders
  import opened Http
  import Entries

  method LogHTTP(sink: Sink, err: Option<ErrorValue>, r: Response?, isError: bool, doNotCloseBody: bool)
    returns (result: Option<ErrorValue>)
    requires !sink.terminated
    modifies sink, r
    ensures result == Entries.LogHTTPOutcome(Entries.StandardEntry(), err, r, isError, doNotCloseBody, old(BodyText(r))).returned
    ensures sink.records ==
      old(sink.records) + Entries.LogHTTPOutcome(Entries.StandardEntry(), err, r, isError, doNotCloseBody, old(BodyText(r))).emitted
    ensures !sink.terminated
    ensures r != null ==>
      r.closeCount == old(r.closeCount) + Entries.LogHTTPOutcome(Entries.StandardEntry(), err, r, isError, doNotCloseBody, old(BodyText(r))).bodyCloses
    ensures r != null ==> r.unread == if err.None? && isError then "" else old(r.unread)
  {
    if err.Some? {
      if r != null {
        var f := BuildStatusFields(r.statusCode, r.status, []);
        var s := Logrus.WithFields(f);
        s.Error(sink, err);
      } else {
        Logrus.Error(sink, err);
      }
      return err;
    } else if r != null && isError {
      var msg := r.ReadAll();
      var f := BuildStatusFields(r.statusCode, r.status, [msg]);
      var s := Logrus.WithFields(f);
      s.Error(sink, err);
      if !doNotCloseBody {
        // the deferred close, run as the call returns
        r.Close();
      }
      return Some(ErrorValue(Entries.HttpErrorText(r.status, msg)));
    }
    return None;
  }

  method Log(sink: Sink, err: Option<ErrorValue>, file: string, line: int)
    requires !sink.terminated
    modifies sink
    ensures err.None? ==> sink.records == old(sink.records)
    ensures err.Some? ==>
      sink.records == old(sink.records) + [Record(ErrorLevel, Entries.StandardEntry().WithCaller(file, line).Data(), err)]
    ensures !sink.terminated
  {
    if err.Some? {
      var wc := Entries.WithCaller(file, line);
      wc.inner.Error(sink, err);
    }
  }

  method Panic(sink: Sink, err: Option<ErrorValue>, file: string, line: int)
    requires !sink.terminated
    modifies sink
    ensures err.None? ==> sink.records == old(sink.records) && !sink.terminated
    ensures err.Some? ==> sink.records == old(sink.records) + [
        Record(ErrorLevel, Entries.StandardEntry().WithCaller(file, line).Data(), err),
        Record(FatalLevel, Entries.StandardEntry().WithCaller(file, line).Data(), err)
      ]
    ensures err.Some? ==> sink.terminated
  {
    if err.Some? {
      var wc := Entries.WithCaller(file, line);
      wc.inner.Error(sink, err);
      wc.inner.Fatal(sink, err);
    }
  }

  /**
   * Package-level Warn as written: `withCaller` returns the scoped `*Entry`,
   * whose own `Warn` is called, from onerror.go line 59, and recurses from
   * there. `depth` is the stack frames left. Nothing is ever emitted.
   */
  method WarnAsWritten(sink: Sink, err: Option<ErrorValue>, file: string, line: int, depth: nat)
    returns (end: Entries.WarnEnd)
    ensures err.None? <==> end == Entries.Returned
    ensures err.Some? <==> end == Entries.StackExhausted
  {
    if err.None? {
      return Entries.Returned;
    }
    if depth == 0 {
      return Entries.StackExhausted;
    }
    var wc := Entries.WithCaller(file, line);
    end := wc.WarnAsWritten(sink, err, "onerror.go", 59, depth - 1);
  }

  /** Package-level Warn as evidently intended: the scoped Warn on the standard entry. */
  method Warn(sink: Sink, err: Option<ErrorValue>, file: string, line: int)
    requires !sink.terminated
    modifies sink
    ensures err.None? ==> sink.records == old(sink.records)
    ensures err.Some? ==>
      sink.records == old(sink.records) + [Record(WarnLevel, Entries.StandardEntry().WithCaller(file, line).Data(), err)]
    ensures !sink.terminated
  {
    if err.Some? {
      var wc := Entries.WithCaller(file, line);
      wc.inner.Warn(sink, err);
    }
  }

  /** Wraps a caller-supplied logrus entry; its fields are kept exactly, nothing is added. */
  function WithEntry(e: LogEntry): (r: Entries.Entry)
    ensures r.Data() == e.data
  {
    Entries.Entry(e)
  }

  /**
   * The records of the package-level Log, Warn and Panic carry exactly the
   * caller's location: "caller" is the file, "callerLine" the line, nothing else.
   */
  lemma GlobalCallerRecord(file: string, line: int)
    ensures Entries.StandardEntry().WithCaller(file, line).Data().Keys == {CallerKey, CallerLineKey}
    ensures Entries.StandardEntry().WithCaller(file, line).Data()[CallerKey] == StrV(file)
    ensures Entries.StandardEntry().WithCaller(file, line).Data()[CallerLineKey] == IntV(line)
  {
  }

  /**
   * The package-level LogHTTP with a Go error and a response logs exactly the
   * status code and text; with a Go error and no response, no field at all.
   */
  lemma GlobalLogHTTPFields(err: Option<ErrorValue>, r: Response?, isError: bool, doNotCloseBody: bool, body: string)
    requires err.Some?
    ensures var o := Entries.LogHTTPOutcome(Entries.StandardEntry(), err, r, isError, doNotCloseBody, body);
      o.returned == err && |o.emitted| == 1 &&
      o.emitted[0].data == (if r == null then map[] else StatusBase(r.statusCode, r.status))
  {
  }
}
