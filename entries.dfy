/**
 * The scoped `Entry` of entry.go: a wrapper around a logrus entry that layers
 * caller and status fields onto the fields it already carries, and the four
 * dispatch operations (LogHTTP, Log, Panic, Warn) bound to it.
 *
 * The caller location that `runtime.Caller(1)` would report is passed in as
 * `file` and `line`; the verdict of `httpstatus.IsError(r)` is passed in as
 * `isError`.
 */
module Entries {
  import opened GoValues
  import opened Logrus
  import opened FieldBuilders
  import opened Http

  /** The text of the error made for an HTTP failure that came without a Go error. */
  function HttpErrorText(status: string, body: string): string
  {
    "ERROR: " + status + "\n\t" + body
  }

  /** What one LogHTTP call does: its result, the records it emits, how often it closes the body. */
  /**
   * How a call ends: it returns to its caller, or the goroutine's stack runs out
   * and the Go runtime ends the process.
   */
  datatype WarnEnd = Returned | StackExhausted

  datatype HttpOutcome = HttpOutcome(returned: Option<ErrorValue>, emitted: seq<Record>, bodyCloses: nat)

  datatype Entry = Entry(inner: LogEntry) {

    function Data(): Fields
    {
      inner.data
    }

    /** A new entry with `f` layered over this entry's fields; this entry is left as it is. */
    function WithFields(f: Fields): (r: Entry)
      ensures r.Data().Keys == Data().Keys + f.Keys
      ensures forall k :: k in f ==> r.Data()[k] == f[k]
      ensures forall k :: k in Data() && k !in f ==> r.Data()[k] == Data()[k]
    {
      Entry(inner.WithFields(f))
    }

    function WithCaller(file: string, line: int): (r: Entry)
      ensures r.Data().Keys == Data().Keys + {CallerKey, CallerLineKey}
      ensures r.Data()[CallerKey] == StrV(file) && r.Data()[CallerLineKey] == IntV(line)
      ensures forall k :: k in Data() && k != CallerKey && k != CallerLineKey ==> r.Data()[k] == Data()[k]
    {
      WithFields(CallerFields(file, line))
    }

    function WithStatus(statusCode: int, status: string, msgs: seq<string>): (r: Entry)
      ensures StatusCodeKey in r.Data() && r.Data()[StatusCodeKey] == IntV(statusCode)
      ensures StatusKey in r.Data() && r.Data()[StatusKey] == StrV(status)
      ensures r.Data().Keys == Data().Keys + StatusFields(statusCode, status, msgs).Keys
      ensures forall k :: k in StatusFields(statusCode, status, msgs) ==> r.Data()[k] == StatusFields(statusCode, status, msgs)[k]
      ensures forall k :: k in Data() && k !in StatusFields(statusCode, status, msgs) ==> k in r.Data() && r.Data()[k] == Data()[k]
    {
      StatusFieldsBase(statusCode, status, msgs);
      WithFields(StatusFields(statusCode, status, msgs))
    }

    /**
     * LogHTTP: a Go error is logged (with the response status when there is a
     * response) and handed back; an error-classified response without a Go error
     * is logged with its body and turned into a new error; otherwise nothing.
     */
    method LogHTTP(sink: Sink, err: Option<ErrorValue>, r: Response?, isError: bool, doNotCloseBody: bool)
      returns (result: Option<ErrorValue>)
      requires !sink.terminated
      modifies sink, r
      ensures result == LogHTTPOutcome(this, err, r, isError, doNotCloseBody, old(BodyText(r))).returned
      ensures sink.records == old(sink.records) + LogHTTPOutcome(this, err, r, isError, doNotCloseBody, old(BodyText(r))).emitted
      ensures !sink.terminated
      ensures r != null ==>
        r.closeCount == old(r.closeCount) + LogHTTPOutcome(this, err, r, isError, doNotCloseBody, old(BodyText(r))).bodyCloses
      ensures r != null ==> r.unread == if err.None? && isError then "" else old(r.unread)
    {
      if err.Some? {
        if r != null {
          var f := BuildStatusFields(r.statusCode, r.status, []);
          var s := WithFields(f);
          s.inner.Error(sink, err);
        } else {
          inner.Error(sink, err);
        }
        return err;
      } else if r != null && isError {
        var msg := r.ReadAll();
        var f := BuildStatusFields(r.statusCode, r.status, [msg]);
        var s := WithFields(f);
        s.inner.Error(sink, err);
        if !doNotCloseBody {
          // the deferred close, run as the call returns
          r.Close();
        }
        return Some(ErrorValue(HttpErrorText(r.status, msg)));
      }
      return None;
    }

    /** Log: a non-nil error is emitted at Error level with the caller's location. */
    method Log(sink: Sink, err: Option<ErrorValue>, file: string, line: int)
      requires !sink.terminated
      modifies sink
      ensures err.None? ==> sink.records == old(sink.records)
      ensures err.Some? ==> sink.records == old(sink.records) + [Record(ErrorLevel, WithCaller(file, line).Data(), err)]
      ensures !sink.terminated
    {
      if err.Some? {
        var wc := WithCaller(file, line);
        wc.inner.Error(sink, err);
      }
    }

    /** Panic: a non-nil error is emitted at Error level, then at Fatal level, and the process ends. */
    method Panic(sink: Sink, err: Option<ErrorValue>, file: string, line: int)
      requires !sink.terminated
      modifies sink
      ensures err.None? ==> sink.records == old(sink.records) && !sink.terminated
      ensures err.Some? ==> sink.records == old(sink.records) + [
          Record(ErrorLevel, WithCaller(file, line).Data(), err),
          Record(FatalLevel, WithCaller(file, line).Data(), err)
        ]
      ensures err.Some? ==> sink.terminated
    {
      if err.Some? {
        var wc := WithCaller(file, line);
        wc.inner.Error(sink, err);
        wc.inner.Fatal(sink, err);
      }
    }

    /**
     * Warn as written. `Entry` declares its own `Warn`, which hides logrus'
     * promoted one, so the selector `WithCaller(file, line).Warn(err)` names this
     * very method again: each call with a non-nil error makes one more call,
     * now from entry.go line 65, and never reaches logrus. `depth` is the stack
     * frames left; when none are left the Go runtime stops the process with a
     * stack overflow. The sink is not in the frame: nothing is ever emitted.
     */
    method WarnAsWritten(sink: Sink, err: Option<ErrorValue>, file: string, line: int, depth: nat)
      returns (end: WarnEnd)
      ensures err.None? <==> end == Returned
      ensures err.Some? <==> end == StackExhausted
      decreases depth
    {
      if err.None? {
        return Returned;
      }
      if depth == 0 {
        return StackExhausted;
      }
      var wc := WithCaller(file, line);
      end := wc.WarnAsWritten(sink, err, "entry.go", 65, depth - 1);
    }

    /**
     * Warn as evidently intended: a non-nil error is emitted at Warn level with
     * the caller's location, through the embedded logrus entry.
     */
    method Warn(sink: Sink, err: Option<ErrorValue>, file: string, line: int)
      requires !sink.terminated
      modifies sink
      ensures err.None? ==> sink.records == old(sink.records)
      ensures err.Some? ==> sink.records == old(sink.records) + [Record(WarnLevel, WithCaller(file, line).Data(), err)]
      ensures !sink.terminated
    {
      if err.Some? {
        var wc := WithCaller(file, line);
        wc.inner.Warn(sink, err);
      }
    }
  }

  /**
   * The decision LogHTTP takes, branch by branch; `body` is what reading the
   * response body yields at the time of the call.
   */
  function LogHTTPOutcome(e: Entry, err: Option<ErrorValue>, r: Response?, isError: bool, doNotCloseBody: bool, body: string): HttpOutcome
  {
    if err.Some? then
      if r != null then
        HttpOutcome(err, [Record(ErrorLevel, e.WithStatus(r.statusCode, r.status, []).Data(), err)], 0)
      else
        HttpOutcome(err, [Record(ErrorLevel, e.Data(), err)], 0)
    else if r != null && isError then
      HttpOutcome(Some(ErrorValue(HttpErrorText(r.status, body))),
                  [Record(ErrorLevel, e.WithStatus(r.statusCode, r.status, [body]).Data(), err)],
                  if doNotCloseBody then 0 else 1)
    else
      HttpOutcome(None, [], 0)
  }

  /* ---------- the process-wide helpers of entry.go ---------- */

  /** The entry behind the package-level functions: the standard logger, no fields of its own. */
  function StandardEntry(): (e: Entry)
    ensures e.Data() == map[]
  {
    Entry(Logrus.Standard())
  }

  /** Package-level withCaller: exactly the caller fields, on the standard logger. */
  function WithCaller(file: string, line: int): (r: Entry)
    ensures r.Data() == CallerFields(file, line)
    ensures r == StandardEntry().WithCaller(file, line)
  {
    Entry(Logrus.WithFields(CallerFields(file, line)))
  }

  /** Package-level withStatus: exactly the status fields, on the standard logger. */
  function WithStatus(statusCode: int, status: string, msgs: seq<string>): (r: Entry)
    ensures r.Data() == StatusFields(statusCode, status, msgs)
    ensures r == StandardEntry().WithStatus(statusCode, status, msgs)
  {
    Entry(Logrus.WithFields(StatusFields(statusCode, status, msgs)))
  }

  /* ---------- what LogHTTP promises ---------- */

  /**
   * A Go error is always handed back unchanged and logged once at Error level,
   * whatever the response's classification; with a response the record carries
   * its status code and text, without one only the entry's own fields.
   * The body is never closed on this path.
   */
  lemma LogHTTPReturnsGivenError(e: Entry, err: Option<ErrorValue>, r: Response?, isError: bool, doNotCloseBody: bool, body: string)
    requires err.Some?
    ensures var o := LogHTTPOutcome(e, err, r, isError, doNotCloseBody, body);
      o.returned == err && o.bodyCloses == 0 &&
      |o.emitted| == 1 && o.emitted[0].level == ErrorLevel && o.emitted[0].message == err
    ensures r == null ==> LogHTTPOutcome(e, err, r, isError, doNotCloseBody, body).emitted[0].data == e.Data()
    ensures r != null ==>
      var d := LogHTTPOutcome(e, err, r, isError, doNotCloseBody, body).emitted[0].data;
      d.Keys == e.Data().Keys + {StatusCodeKey, StatusKey} &&
      d[StatusCodeKey] == IntV(r.statusCode) && d[StatusKey] == StrV(r.status) &&
      forall k :: k in e.Data() && k != StatusCodeKey && k != StatusKey ==> d[k] == e.Data()[k]
  {
  }

  /**
   * An error-classified response without a Go error: the new error's text is
   * "ERROR: <status>", a newline, a tab and the body read; one Error record carries
   * the status and the body under "error" (as a one-element list), and no
   * "msg(<n>)" key; the logged argument is the nil error; the body is closed
   * exactly once unless the caller opted out.
   */
  lemma LogHTTPSynthesisesError(e: Entry, r: Response, doNotCloseBody: bool, body: string)
    ensures var o := LogHTTPOutcome(e, None, r, true, doNotCloseBody, body);
      o.returned == Some(ErrorValue("ERROR: " + r.status + "\n\t" + body)) &&
      |o.emitted| == 1 && o.emitted[0].level == ErrorLevel && o.emitted[0].message == None &&
      o.bodyCloses == (if doNotCloseBody then 0 else 1)
    ensures var d := LogHTTPOutcome(e, None, r, true, doNotCloseBody, body).emitted[0].data;
      d.Keys == e.Data().Keys + {StatusCodeKey, StatusKey, ErrorKey} &&
      d[ErrorKey] == StrListV([body]) && d[StatusCodeKey] == IntV(r.statusCode) && d[StatusKey] == StrV(r.status) &&
      (forall k :: k in e.Data() && k != StatusCodeKey && k != StatusKey && k != ErrorKey ==> d[k] == e.Data()[k]) &&
      forall i :: MsgKey(i) in d ==> MsgKey(i) in e.Data() && d[MsgKey(i)] == e.Data()[MsgKey(i)]
  {
  }

  /** No Go error and no error-classified response: nil, nothing logged, body untouched. */
  lemma LogHTTPSilent(e: Entry, r: Response?, isError: bool, doNotCloseBody: bool, body: string)
    requires r == null || !isError
    ensures LogHTTPOutcome(e, None, r, isError, doNotCloseBody, body) == HttpOutcome(None, [], 0)
  {
  }

  /**
   * LogHTTP returns nil exactly when it logs nothing, which is exactly when there
   * is neither a Go error nor an error-classified response; it closes the body
   * at most once, and exactly once only on the synthesised-error path without opt-out.
   */
  lemma LogHTTPCases(e: Entry, err: Option<ErrorValue>, r: Response?, isError: bool, doNotCloseBody: bool, body: string)
    ensures var o := LogHTTPOutcome(e, err, r, isError, doNotCloseBody, body);
      (o.returned.None? <==> err.None? && (r == null || !isError)) &&
      (o.emitted == [] <==> o.returned.None?) &&
      |o.emitted| <= 1 &&
      o.bodyCloses <= 1 &&
      (o.bodyCloses == 1 <==> err.None? && r != null && isError && !doNotCloseBody)
  {
  }

  /**
   * Reading drains the body: a second LogHTTP on the same error-classified
   * response reads nothing, so it logs "error" as [""] and its error text
   * ends in an empty second line.
   */
  method LogHTTPTwice(sink: Sink, e: Entry, r: Response, doNotCloseBody: bool)
    returns (first: Option<ErrorValue>, second: Option<ErrorValue>)
    requires !sink.terminated
    modifies sink, r
    ensures first == Some(ErrorValue(HttpErrorText(r.status, old(r.Readable()))))
    ensures second == Some(ErrorValue(HttpErrorText(r.status, "")))
    ensures |sink.records| == |old(sink.records)| + 2
    ensures var d := sink.records[|sink.records| - 1].data; ErrorKey in d && d[ErrorKey] == StrListV([""])
  {
    first := e.LogHTTP(sink, None, r, true, doNotCloseBody);
    second := e.LogHTTP(sink, None, r, true, doNotCloseBody);
    LogHTTPSynthesisesError(e, r, doNotCloseBody, "");
  }
}
