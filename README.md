# testhttpserver, modelled in Dafny

`testhttpserver` is a one-file Go diagnostic HTTP server (`main.go`). It serves one of
three responders: a fixed text, the host name, or a file server. Every request goes
through a logging middleware. `main` then waits for either a listener error or SIGINT/SIGTERM,
and that event decides how the process ends.

This project models the logic under that plumbing:

- `wrappers.dfy` (module `Wrappers`): `Option` and `Result`, used for the error returns of
  the library calls.
- `output.dfy` (module `Output`): the process's observable output as one ordered trace.
  The trace records status codes sent to a client and lines written to standard output.
  The response writer and the logger both append to it, so the order of the two can be stated.
- `slog_model.dfy` (module `Slog`): slog attribute values and their kinds. It also holds the
  `dropEmpty` ReplaceAttr hook, the JSON handler's rule that an empty attribute is not written
  (`Render`), and the logger as a class whose `lines` grow by one per `Info`/`Error` call.
- `http_model.dfy` (module `Http`): the header map (`map<string, seq<string>>`) with
  `Get`/`Set`, and the request as a class whose `header` field is reassigned in place. It also
  holds the client's response writer and `wrapResponseWriter` as a class. The wrapper has the
  real `statusCode` field, a reference to the writer it wraps, and a ghost list of the codes
  written through it. `Valid()` ties the field to the last of those codes, or to 200 when
  none was written.
- `middleware.dfy` (module `Middleware`): `loggerHandler` covers request-ID resolution, the
  eight-attribute "request" line, and the handler itself. The handler is an imperative method
  over the request, the writer and the logger. `HandleAsWritten` is the pure function that
  specifies it.
- `lifecycle.dfy` (module `Lifecycle`): the `TEXT` default and the startup switch. It also
  holds the shutdown decision as a state machine over `Running`, `ShuttingDown` and
  `Stopped(exitCode)`, plus `main` as imperative methods proved against that state machine.

The request handler as written passes the client's writer `w` to the inner handler, not the
wrapper (main.go:140). So `wrap.statusCode` keeps its initial 200, and every request is logged
with `status_code` 200. The model keeps this behaviour: `LoggerHandler` and `AsWrittenLogs200`
state it. The wrapper exists only to capture the status (main.go:120-128, 137), and its
field is what the line reports (main.go:149). So the inner handler is evidently meant to write
through it. The discrepancy is recorded under Findings together with a corrected handler.

## Model

| member | source | states |
|---|---|---|
| `Slog.DropEmpty` | main.go:48-53 | A string-kind attribute whose value is "" becomes the zero attribute. Every other attribute, including integers equal to 0, is returned unchanged. |
| `Slog.DropEmptyIdempotent` | main.go:48-53 | Applying the hook twice equals applying it once. The hook's output is empty exactly when the input was a blank string or already empty. |
| `Slog.Render` | main.go:54 | The attributes the JSON handler writes after `dropEmpty` are never more than those passed. |
| `Slog.RenderKeeps` | main.go:48-54 | An attribute is written iff it was passed and is neither a blank string nor empty; it is written unchanged. |
| `Slog.RenderAppend` | main.go:54 | Rendering keeps the order of the attributes: rendering a concatenation concatenates the renderings. |
| `Slog.RenderClean` | main.go:48-54 | Attributes that are neither blank strings nor empty pass through rendering untouched. |
| `Slog.RenderIdempotent` | main.go:48-54 | Rendering already rendered attributes changes nothing. |
| `Slog.LookupRender` | main.go:48-54 | With distinct non-empty keys, a key keeps its value in the written record, unless the value is the empty string, in which case the key is absent. |
| `Slog.Logger.Info` | main.go:54 | Each Info call appends exactly one INFO line holding the rendered attributes. |
| `Slog.Logger.Error` | main.go:54 | Each Error call appends exactly one ERROR line holding the rendered attributes. |
| `Http.Get` | main.go:132 | Header.Get returns the first value under the key, or "" when the key is missing or has no values. |
| `Http.Set` | main.go:135 | Header.Set replaces the key's values with exactly the one given, which `Get` then returns. Every other key keeps its values. |
| `Http.ReplayLast` | main.go:125-128 | Last write wins: after a series of writes the status field holds the last code. It holds its initial value when nothing was written. |
| `Http.ResponseWriter.WriteHeader` | main.go:127 | A code that net/http accepts (100 to 999) is sent to the client. It is appended both to the writer's own list and to the shared output trace. |
| `Http.WrapResponseWriter.constructor` | main.go:137 | A new wrapper wraps the given writer, holds status 200 and has recorded no writes. |
| `Http.WrapResponseWriter.WriteHeader` | main.go:125-128 | The field becomes the code. The same code is appended to what the inner writer was sent and to the output trace. The field still equals the last code written. |
| `Middleware.ResolveRequestId` | main.go:132-136 | A non-empty first `X-Request-Id` is adopted and the header map is left unchanged. Otherwise the fresh ID is adopted and the key then holds exactly `[fresh]`. Either way `Get` on the new header returns the ID, and no other key changes. |
| `Middleware.ResolveIdempotent` | main.go:132-136 | Resolving an already-resolved request again keeps its ID and header, whatever fresh ID is offered. |
| `Middleware.RequestKeysDistinct` | main.go:144-151 | The eight keys of the "request" line are pairwise different. |
| `Middleware.RequestRecord` | main.go:143-152 | The "request" attributes are, in order: request_id, duration_ms, method, path, query, status_code, referer, user_agent. Their keys are distinct. |
| `Middleware.RequestLineNumbers` | main.go:143-152 | The written line always holds duration_ms and status_code with their values, because integers are never blanked. |
| `Middleware.RequestLineStrings` | main.go:143-152 | Each string field of the written line holds its value when non-empty and is absent when empty. |
| `Middleware.AsWrittenLogs200` | main.go:137-149 | As written, the logged status_code is 200 for every request, whatever codes the inner handler sends to the client. |
| `Middleware.LoggedRequestId` | main.go:132-144 | The logged request_id is the caller's non-empty `X-Request-Id` verbatim, with headers unchanged. Without one it is the fresh ID, which the request's header then also carries. |
| `Middleware.AsWrittenMisreports404` | main.go:140 | On a handler that sends 404, the line as written says 200. |
| `Middleware.IntendedLogsLastStatus` | main.go:137-149 | With the handler given the wrapper, the logged status is the last code written to the writer, or 200 when none was. |
| `Middleware.ServeHTTP` | main.go:140 | The inner handler's status codes reach the writer it is given, in call order. They appear on the output trace in the same order. |
| `Middleware.ServeHTTPWrapped` | main.go:125-128 | Writing through the wrapper forwards every code, in order, to the inner writer and the output trace. Afterwards the wrapper holds the last of them (replayed over its old value). |
| `Middleware.AdoptRequestId` | main.go:132-136 | The request's header is changed in place exactly as `ResolveRequestId` says. The ID returned is the one it resolves. |
| `Middleware.LogRequest` | main.go:143-152 | Exactly one line is appended, `RequestLine` of the request's current state, and it is also recorded on the output trace. |
| `Middleware.LoggerHandler` | main.go:130-153 | One invocation leaves the header as `ResolveRequestId` says and sends the handler's codes to the client. It appends exactly one "request" line, with status 200 (`HandleAsWritten`). On the shared output trace, every status code the handler sends comes before that line. |
| `Middleware.LoggerHandlerIntended` | main.go:130-153 | The corrected invocation: the same, including the order on the trace, except that the line carries the last status written through the wrapper (`HandleIntended`). |
| `Lifecycle.ResponseText` | main.go:59-62 | The hello body is TEXT when non-empty and "hello" otherwise, so it is never empty. |
| `Lifecycle.SelectMode` | main.go:57-91 | `-hello` wins over `-hostname`, and with neither the file server is used. Only the chosen branch's OS call can fail startup. An ERROR line is logged exactly when startup fails. |
| `Lifecycle.SelectHandler` | main.go:56-91 | The switch yields a handler exactly when `SelectMode` serves, and that handler is the mode `SelectMode` chose. It logs exactly that mode's line, which is the one event added to the output trace. |
| `Lifecycle.Step` | main.go:103-117 | Once stopped, nothing changes and nothing is logged. From a live state, exit 0 is reached only by a shutdown without error, with "bye" logged. Any stop logs exactly one line and exits with 0 or 1. |
| `Lifecycle.RunFromStopped` | main.go:103-117 | A stopped process stays stopped and logs nothing more, whatever events follow. |
| `Lifecycle.CleanExitIffBye` | main.go:103-117 | From a live state, after any events, the process has exited 0 iff "bye" was logged. Any stop is with status 0 or 1. |
| `Lifecycle.ListenErrorIsFatal` | main.go:104-107 | A listener error logs "failed to listen" and exits 1, whatever follows. No "bye" is logged. |
| `Lifecycle.SignalOutcome` | main.go:108-117 | A signal logs "catch signal". A shutdown error then logs "failed to shutdown" and exits 1. A clean shutdown logs "bye" and exits 0. |
| `Lifecycle.SelectedStops` | main.go:103-117 | Whichever event the select receives, the process stops. |
| `Lifecycle.ServeUntilStopped` | main.go:93-117 | After "start", the selected event yields exactly the state machine's lines and its exit status. The output trace grows by one numbered event per line. |
| `Lifecycle.CleanExitIff` | main.go:57-117 | The process exits 0 iff startup succeeded, a signal was caught and shutdown returned no error. Exactly then "bye" is logged. Every other ending exits 1. |
| `Lifecycle.RunMain` | main.go:56-117 | `main` after flag parsing logs exactly `MainOutcome`'s lines and exits with its status. The output trace grows by one numbered event per line. |

## Left out

- UUID generation (`uuid.New`): a foreign call. The fresh ID is a parameter. Lemmas that need a non-empty ID ask for one.
- Time measurement (`time.Now`, `time.Since`, `Milliseconds`): the clock is foreign. The duration is a natural-number parameter.
- JSON encoding, the `time`/`level`/`msg` attributes the handler adds itself, and standard output: library I/O. A line is a level, a message and its rendered attributes. The messages are all non-empty, so `dropEmpty` never removes `msg`.
- slog value kinds other than String, Int64 and Any (with its nil zero value): the server does not log others.
- The `net/http` server, `ListenAndServe`, `Shutdown` and its 5-second deadline: network I/O. The listener's error and the shutdown's result are inputs.
- The response bodies (`io.WriteString`), `ServeMux` routing and `http.FileServer`: library code. The inner handler is modelled only by the status codes it writes, in order.
- Middleware.LoggerHandler: the inner handler is assumed to return normally. In Go a panic in it (main.go:140) skips the "request" line, because log.Info is not deferred (main.go:143). The model has no panics. It admits only status codes net/http accepts (100 to 999), since a code outside that range makes WriteHeader panic.
- The wrapper's embedded `Write` and `Header` methods: they pass straight through and are not observed.
- net/http's own handling of superfluous `WriteHeader` calls: library code. `sent` records every call.
- The goroutine, the channels, `signal.Notify` and the race inside `select`: concurrency. The event the select receives first is an input (`Selected`). Ordering between concurrent requests' lines and "bye" is not modelled.
- Flag parsing and the usage text (main.go:28-46): library code. The parsed flags are an input.
- `os.Getenv`, `os.Hostname` and `filepath.Abs`: OS calls. Their results are inputs (`Host`).
- `os.Exit`: modelled as returning the exit status. `defer cancel()` has no observable effect here.
- Canonicalisation of header keys: keys are taken to be canonical already.
- The log sink's internal locking: concurrency.

## Findings

| source | as written | input that shows it | evidently intended | confidence | as-written member | corrected member |
|---|---|---|---|---|---|---|
| main.go:140 | The inner handler is called with `w`, not `wrap`. `wrap.statusCode` therefore stays 200, and every request is logged with status_code 200. | an inner handler that writes status 404 | call the inner handler with `wrap`, so the logged status is the last status written (200 if none) | high; not executed | `Middleware.AsWrittenMisreports404` | `Middleware.IntendedLogsLastStatus` |
