# onerror — a Dafny model

`onerror` is a small error-reporting layer over the logrus logger. Before an
error is logged it attaches structured fields: the caller's source location,
or the status of an HTTP response and its body. It can also turn an HTTP
failure response into a Go error. The layer has two bindings that mirror each
other:

- the package-level functions `LogHTTP`, `Log`, `Panic` and `Warn` of
  onerror.go act on logrus' standard logger;
- the methods of the scoped `Entry` in entry.go act on a caller-supplied
  logrus entry. `WithEntry` builds such an entry, and `WithFields` derives a
  new one from it.

`Warn` in both bindings does not do what its siblings do: as written it never
reaches logrus (see "## Findings"). The model carries both the code as written
and the evidently intended Warn.

The model has six modules:

- `GoValues` (go_values.dfy) holds Go's own values at the layer's interface:
  `Option`, for a value that may be `nil`, and `ErrorValue`, a Go `error`.

- `Logrus` (logrus.dfy) holds what the layer relies on from logrus. `log.Fields`
  values are `IntV | StrV | StrListV`. A `LogEntry` holds its fields, and its
  `WithFields` returns a new entry with the new fields layered on top, the new
  field winning on a shared key. This is logrus' documented behaviour; its
  code is not part of this model. The process-wide output is a `Sink` object
  with the emitted `records` (level, fields, logged argument) and a
  `terminated` flag that a Fatal emission sets.
- `FieldBuilders` (field_builders.dfy) holds `callerFields` and
  `statusFields`. `StatusFields` is the specification function.
  `BuildStatusFields` is the source's loop, which inserts `"msg(<i+1>)"` keys
  one by one, and it is proved to compute the same map. `strconv.Itoa` is
  modelled as `DecimalString`, proved to round-trip through `ParseDecimal`.
  That makes the `"msg(<n>)"` keys pairwise distinct.
- `Http` (http.dfy) holds the response: a status code, a status text, the part
  of the body stream not read yet, and a count of `Body.Close()` calls.
  `io.ReadAll` drains the stream, and a closed body yields nothing more, so a
  second LogHTTP on the same response reads an empty body.
- `Entries` (entries.dfy) holds the scoped `Entry`, its field-layering
  functions, its four dispatch methods and the package-level
  `withCaller`/`withStatus` helpers of entry.go. `LogHTTPOutcome` states
  LogHTTP's four-way decision: the returned error, the emitted records and the
  number of body closes. The lemmas next to it state what each branch promises.
- `OnError` (onerror.dfy) holds the package-level functions. Each one is
  specified by the same contract as the `Entry` method, applied to
  `StandardEntry()`, the entry with no fields of its own.

Inputs the code gets from its environment become parameters:

- `file` and `line` stand for what `runtime.Caller(1)` reports;
- `isError` stands for the verdict of `httpstatus.IsError(r)`;
- a nil `error` is `None`.

Once the process has exited, no code runs. So every dispatch operation
requires `!sink.terminated`, and nothing can be emitted after a Fatal record.

In the error-classified-response branch (entry.go:37, onerror.go:31), the code
logs the nil `err` as the record's argument, not the status text. The model
follows the code: that record's `message` is `None`.

## Model

| member | source | states |
|---|---|---|
| `FieldBuilders.CallerFields` | entry.go:84-89 | exactly the keys "caller" ↦ file and "callerLine" ↦ line |
| `FieldBuilders.DecimalString` | entry.go:100 | the `strconv.Itoa` rendering of a message index: at least one character, only decimal digits, a leading '0' exactly for zero |
| `FieldBuilders.ParseDecimalString` | entry.go:100 | the decimal rendering round-trips: parsing it gives the number back |
| `FieldBuilders.DecimalStringInjective` | entry.go:100 | distinct numbers render to distinct strings |
| `FieldBuilders.MsgKey` | entry.go:100 | a message key is "msg(", then one or more decimal digits, then ")" |
| `FieldBuilders.MsgKeyInjective` | entry.go:99-101 | "msg(i)" and "msg(j)" are the same key if and only if i = j, so the loop never overwrites a key it inserted |
| `FieldBuilders.MsgKeyNotFixed` | entry.go:92-101 | no "msg(n)" key coincides with "statusCode", "status" or "error" |
| `FieldBuilders.MsgFieldsLookup` | entry.go:99-101 | after the loop, "msg(i)" holds the i-th message, in input order |
| `FieldBuilders.MsgFieldsKey` | entry.go:99-101 | every key the loop inserts is "msg(i)" for a position i of the messages |
| `FieldBuilders.MsgFieldsSize` | entry.go:99-101 | the loop inserts exactly one key per message |
| `FieldBuilders.MsgFieldsContents` | entry.go:99-101 | the three facts above together: the keys are exactly "msg(1)" to "msg(n)", and each holds its message |
| `FieldBuilders.StatusFields` | entry.go:91-104 | statusFields as a function: the two status keys, then "error" ↦ the one-element list for one message, or the "msg(i)" fields for several; its properties are the lemmas below |
| `FieldBuilders.BuildStatusFields` | entry.go:91-104 | the loop that builds the map in place yields exactly `StatusFields` for every input |
| `FieldBuilders.StatusFieldsBase` | entry.go:92-95 | "statusCode" ↦ the code and "status" ↦ the text are present whatever messages are passed |
| `FieldBuilders.StatusFieldsNoMessage` | entry.go:91-103 | with no extra message these are the only two keys |
| `FieldBuilders.StatusFieldsOneMessage` | entry.go:96-97 | with one message the only added key is "error", holding the one-element list `[msg]`; no "msg(n)" key |
| `FieldBuilders.StatusFieldsManyLookup` | entry.go:98-101 | with n > 1 messages "msg(i)" ↦ the i-th message for every 1 ≤ i ≤ n |
| `FieldBuilders.StatusFieldsManyKeys` | entry.go:98-101 | with n > 1 messages every key is "statusCode", "status" or some "msg(i)"; "error" is absent |
| `FieldBuilders.StatusFieldsManySize` | entry.go:98-101 | with n > 1 messages the map has n + 2 keys |
| `FieldBuilders.StatusFieldsExamples` | entry.go:91-104 | `statusFields(200, "OK", "a")` is {statusCode: 200, status: "OK", error: ["a"]}; with "a", "b" it is {statusCode, status, "msg(1)": "a", "msg(2)": "b"} |
| `Logrus.LogEntry.WithFields` | entry.go:71 | assumed logrus layering: keys are the union, the new fields win, the old ones are kept elsewhere |
| `Logrus.WithFields` | entry.go:108 | `log.WithFields(f)` on the standard logger carries exactly `f` |
| `Logrus.LogEntry.Fatal` | entry.go:57 | a Fatal record is appended and then the process is terminated |
| `Logrus.Error` | onerror.go:19 | `log.Error(err)` appends one Error record with no fields |
| `Http.Response.ReadAll` | entry.go:33-35 | `io.ReadAll` returns what is still readable (nothing once closed) and leaves the stream drained |
| `Http.Response.Close` | entry.go:30 | each `Body.Close()` adds one to the close count and reads nothing |
| `Entries.Entry.WithFields` | entry.go:69-72 | the new entry layers `f` over this entry's fields; on a shared key `f` wins, other keys are kept |
| `Entries.Entry.WithCaller` | entry.go:74-77 | adds "caller" ↦ file and "callerLine" ↦ line, and keeps every other field of the entry |
| `Entries.Entry.WithStatus` | entry.go:79-82 | "statusCode" and "status" are present with the response's values; every key the builder sets ("error", "msg(i)" included) holds the builder's value; the keys are the entry's plus the status fields'; fields the builder does not set are kept |
| `Entries.Entry.LogHTTP` | entry.go:20-41 | the result, the records appended to the sink and the body closes are those of `LogHTTPOutcome` for the body text readable at the call; the body is drained exactly on the error-classified path; the process is not terminated |
| `Entries.Entry.Log` | entry.go:44-49 | nil: nothing emitted; otherwise exactly one Error record with the caller fields layered on the entry, argument `err` |
| `Entries.Entry.Panic` | entry.go:52-59 | nil: nothing emitted, no termination; otherwise an Error record, then a Fatal record with the same caller-enriched fields, then termination |
| `Entries.Entry.WarnAsWritten` | entry.go:62-67 | as written: a nil error returns; a non-nil error recurses into the same method until the stack is exhausted, and nothing is ever emitted, since the sink is outside its frame |
| `Entries.Entry.Warn` | entry.go:62-67 | as evidently intended: nil: nothing emitted; otherwise exactly one Warn record with the caller fields layered on the entry |
| `Entries.LogHTTPOutcome` | entry.go:20-41 | LogHTTP's four-way decision as a function of the entry, the error, the response, the classification, the opt-out and the body text read; its properties are the LogHTTP lemmas below |
| `Entries.LogHTTPTwice` | entry.go:28-38 | a second LogHTTP on the same error-classified response reads an empty body: it logs "error" ↦ [""] and returns "ERROR: " + status + "\n\t" |
| `Entries.StandardEntry` | onerror.go:19 | the standard logger's entry has no fields |
| `Entries.WithCaller` | entry.go:106-109 | the package-level helper carries exactly the caller fields, and equals the `Entry` method applied to the standard entry |
| `Entries.WithStatus` | entry.go:111-114 | the package-level helper carries exactly the status fields, and equals the `Entry` method applied to the standard entry |
| `Entries.LogHTTPReturnsGivenError` | entry.go:21-27 | a non-nil error is returned unchanged, whatever the classification, with one Error record carrying `err`; with a response it adds exactly "statusCode" and "status", without one the entry's fields only; no body close |
| `Entries.LogHTTPSynthesisesError` | entry.go:28-38 | nil error and an error-classified response: returns an error with text "ERROR: " + status + "\n\t" + body; one Error record whose argument is the nil error, adding exactly "statusCode", "status" and "error" ↦ [body read], keeping the entry's other fields, and no "msg(n)" key; one body close unless `doNotCloseBody`, otherwise none |
| `Entries.LogHTTPSilent` | entry.go:28-40 | nil error and no error-classified response: returns nil, emits nothing, closes nothing |
| `Entries.LogHTTPCases` | entry.go:20-41 | returns nil if and only if there is no error and no error-classified response, and emits a record exactly when it does not return nil; at most one record and at most one close, and a close happens if and only if the body is read and the caller did not opt out |
| `OnError.LogHTTP` | onerror.go:14-35 | the same result, records, body closes and body draining as `Entry.LogHTTP` on the standard entry |
| `OnError.Log` | onerror.go:38-43 | the same records as `Entry.Log` on the standard entry |
| `OnError.Panic` | onerror.go:46-53 | the same records and termination as `Entry.Panic` on the standard entry: Error strictly before Fatal, then termination |
| `OnError.WarnAsWritten` | onerror.go:56-61 | as written: a nil error returns; a non-nil error enters the scoped Warn as written and ends in stack exhaustion, emitting nothing |
| `OnError.Warn` | onerror.go:56-61 | as evidently intended: the same records as `Entry.Warn` on the standard entry |
| `OnError.WithEntry` | onerror.go:64-66 | the wrapper's fields are exactly the given entry's fields, nothing added |
| `OnError.GlobalCallerRecord` | onerror.go:40-41 | the package-level records carry exactly "caller" ↦ file and "callerLine" ↦ line |
| `OnError.GlobalLogHTTPFields` | onerror.go:15-21 | with an error, the package-level LogHTTP logs exactly {statusCode, status} when there is a response and no field when there is none, and returns the error |

## Left out

- The logrus back end: formatting, output, level filtering, hooks and the time/context fields of an entry. Emission appends a `Record` to the sink. `WithFields`' right-biased union is an assumption about logrus, whose code is not part of this model.
- The `os.Exit` inside `Fatal`. It is modelled by setting `terminated`. No dispatch operation can run after it, because each one requires `!sink.terminated`.
- `runtime.Caller(1)`. The caller's file and line are parameters.
- The goroutine's stack size. The frames left before the Go runtime's stack overflow are the parameter `depth` of the as-written Warn members; the overflow itself, which ends the process outside logrus, is their `StackExhausted` result.
- `httpstatus.IsError`, which comes from another package. Its verdict is the parameter `isError`.
- `io.ReadAll` and the body stream. The stream is the string `Response.unread`: a read returns all of it and leaves it empty, and a read after `Close` returns nothing. A read that fails part-way is not modelled separately: `unread` stands for the bytes that arrive before the stream ends or fails. The read error is ignored, as in the source.
- A nil `*log.Entry`. `WithEntry(nil)` returns a wrapper whose later methods panic on the nil dereference; a `LogEntry` value here cannot be nil, so that panic is not modelled.
- The `defer` mechanism. The close is performed once, after the record is emitted and before the method returns, on the branch that schedules it.
- Go's `%v` rendering. The only formatted values are strings, so the error text is plain concatenation. A logged nil error renders as `<nil>` in logrus; here it is the `None` argument of the record.
- Field values that the layer never produces, such as arbitrary `interface{}` values in a caller-supplied entry. Fields are limited to integers, strings and string lists.
- `FieldBuilders.DecimalString`: renders only non-negative numbers. `strconv.Itoa` is only called on `i+1 ≥ 1` here, so its treatment of negative numbers is not modelled.
- Concurrent use of a shared logger. Copy-on-write isolation holds by construction, because entries are immutable values and `WithFields` returns a new one.

## Findings

| source | as written | input that shows it | evidently intended | confidence | as-written member | corrected member |
|---|---|---|---|---|---|---|
| entry.go:65 | `e.withCaller(file, line).Warn(err)`: `withCaller` returns the package's `*Entry`, whose declared `Warn` hides the embedded logrus `Warn`, so the method calls itself without end | `entry.Warn(errors.New("x"))` on any `*Entry`: no Warn record, then a fatal stack overflow | log the error at Warn level with the caller fields, as `Log` does at Error level through the embedded entry | high, not executed | `Entries.Entry.WarnAsWritten` | `Entries.Entry.Warn` |
| onerror.go:59 | `withCaller(file, line).Warn(err)` calls the same `(*Entry).Warn`, so it recurses likewise | `onerror.Warn(errors.New("x"))`: no Warn record, then a fatal stack overflow | log the error at Warn level on the standard logger with the caller fields | high, not executed | `OnError.WarnAsWritten` | `OnError.Warn` |
