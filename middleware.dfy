/** `loggerHandler` from main.go: the request-ID resolution, the status
    wrapper, and the one "request" line logged per request. */
module Middleware {
  import opened Wrappers
  import opened Slog
  import opened Http
  import opened Output

  /** The header that carries the request ID. */
  const HeaderRequestID := "X-Request-Id"

  /** The ID a request is logged under, and the header map it leaves behind. */
  datatype Resolution = Resolution(id: string, header: Header)

  /** Request-ID resolution: a non-empty first `X-Request-Id` value is adopted
      and the headers are left alone; otherwise the fresh ID is adopted and
      `Set` under that key, replacing whatever values were there. Either way
      the ID can be read back from the header by the inner handler, and no
      other key is touched. */
  function ResolveRequestId(h: Header, freshId: string): (r: Resolution)
    ensures Get(r.header, HeaderRequestID) == r.id
    ensures Get(h, HeaderRequestID) != "" ==> r.id == Get(h, HeaderRequestID) && r.header == h
    ensures r.header.Keys == h.Keys + {HeaderRequestID}
    ensures Get(h, HeaderRequestID) == "" ==> r.id == freshId && r.header[HeaderRequestID] == [freshId]
    ensures forall k :: k in h && k != HeaderRequestID ==> r.header[k] == h[k]
  {
    var id := Get(h, HeaderRequestID);
    if id == "" then Resolution(freshId, Set(h, HeaderRequestID, freshId)) else Resolution(id, h)
  }

  /** Once resolved with a non-empty fresh ID, a request keeps its ID: a second
      resolution adopts it and changes nothing, whatever ID it is offered. */
  lemma ResolveIdempotent(h: Header, freshId: string, freshId2: string)
    requires freshId != ""
    ensures ResolveRequestId(ResolveRequestId(h, freshId).header, freshId2) == ResolveRequestId(h, freshId)
  {
  }

  /** The keys of the "request" line, in the order they are passed to log.Info. */
  const RequestKeys := ["request_id", "duration_ms", "method", "path", "query", "status_code", "referer", "user_agent"]

  /** No two keys of the "request" line are equal. Only "request_id" and
      "referer" share a first letter, and their lengths differ. */
  lemma RequestKeysDistinct()
    ensures forall i, j :: 0 <= i < j < |RequestKeys| ==> RequestKeys[i] != RequestKeys[j]
  {
    var firsts := "rdmpqsru";
    assert forall i :: 0 <= i < |RequestKeys| ==> RequestKeys[i][0] == firsts[i];
    forall i, j | 0 <= i < j < |RequestKeys| ensures RequestKeys[i] != RequestKeys[j] {
      if firsts[i] == firsts[j] {
        assert i == 0 && j == 6;
        assert |RequestKeys[i]| != |RequestKeys[j]|;
      }
    }
  }

  /** The attributes passed to log.Info("request", ...): eight, in a fixed
      order, the duration and the status of kind Int64, the rest strings. */
  function RequestRecord(id: string, durationMs: int, req: Incoming, status: int): (rec: seq<Attr>)
    ensures Keys(rec) == RequestKeys
    ensures DistinctKeys(rec)
  {
    RequestKeysDistinct();
    [ Attr("request_id", StringValue(id)),
      Attr("duration_ms", Int64Value(durationMs)),
      Attr("method", StringValue(req.httpMethod)),
      Attr("path", StringValue(req.path)),
      Attr("query", StringValue(req.rawQuery)),
      Attr("status_code", Int64Value(status)),
      Attr("referer", StringValue(req.Referer())),
      Attr("user_agent", StringValue(req.UserAgent())) ]
  }

  /** The line written for one request. */
  function RequestLine(id: string, durationMs: int, req: Incoming, status: int): Line {
    Emit(LevelInfo, "request", RequestRecord(id, durationMs, req, status))
  }

  /** The written "request" line always carries the duration and the status:
      integers are never blanked, whatever their value. */
  lemma RequestLineNumbers(id: string, durationMs: int, req: Incoming, status: int)
    ensures var attrs := RequestLine(id, durationMs, req, status).attrs;
      && Lookup(attrs, "duration_ms") == Some(Int64Value(durationMs))
      && Lookup(attrs, "status_code") == Some(Int64Value(status))
  {
    var rec := RequestRecord(id, durationMs, req, status);
    RecordFieldWritten(rec, 1, "duration_ms", Int64Value(durationMs));
    RecordFieldWritten(rec, 5, "status_code", Int64Value(status));
  }

  /** The written "request" line carries each string field under its key
      exactly when the string is non-empty. */
  lemma RequestLineStrings(id: string, durationMs: int, req: Incoming, status: int)
    ensures var attrs := RequestLine(id, durationMs, req, status).attrs;
      && Lookup(attrs, "request_id") == Written(Some(StringValue(id)))
      && Lookup(attrs, "method") == Written(Some(StringValue(req.httpMethod)))
      && Lookup(attrs, "path") == Written(Some(StringValue(req.path)))
      && Lookup(attrs, "query") == Written(Some(StringValue(req.rawQuery)))
      && Lookup(attrs, "referer") == Written(Some(StringValue(req.Referer())))
      && Lookup(attrs, "user_agent") == Written(Some(StringValue(req.UserAgent())))
  {
    var rec := RequestRecord(id, durationMs, req, status);
    RecordFieldWritten(rec, 0, "request_id", StringValue(id));
    RecordFieldWritten(rec, 2, "method", StringValue(req.httpMethod));
    RecordFieldWritten(rec, 3, "path", StringValue(req.path));
    RecordFieldWritten(rec, 4, "query", StringValue(req.rawQuery));
    RecordFieldWritten(rec, 6, "referer", StringValue(req.Referer()));
    RecordFieldWritten(rec, 7, "user_agent", StringValue(req.UserAgent()));
  }

  /** One attribute of a record with distinct keys, as written. */
  lemma RecordFieldWritten(rec: seq<Attr>, i: nat, key: string, value: Value)
    requires DistinctKeys(rec)
    requires i < |rec| && rec[i] == Attr(key, value) && key != ""
    ensures Lookup(Render(rec), key) == Written(Some(value))
  {
    LookupAt(rec, i);
    LookupRender(rec, key);
  }

  /** What one invocation of the middleware leaves behind: the request's
      header map, the status codes written to the client's writer, and the line
      logged. */
  datatype Outcome = Outcome(header: Header, sent: seq<int>, line: Line)

  /** The middleware as main.go writes it. `codes` are the status codes the
      inner handler writes. The inner handler is given the client's writer,
      not the wrapper, so the wrapper keeps its initial 200 and that is what
      is logged. */
  function HandleAsWritten(req: Incoming, freshId: string, codes: seq<int>, durationMs: nat): Outcome {
    var res := ResolveRequestId(req.header, freshId);
    Outcome(res.header, codes, RequestLine(res.id, durationMs, req.(header := res.header), StatusOK))
  }

  /** The middleware as the wrapper is evidently meant to be used: the inner
      handler writes through the wrapper, which captures the last status. */
  function HandleIntended(req: Incoming, freshId: string, codes: seq<int>, durationMs: nat): Outcome {
    var res := ResolveRequestId(req.header, freshId);
    Outcome(res.header, codes, RequestLine(res.id, durationMs, req.(header := res.header), Replay(codes, StatusOK)))
  }

  /** As written, every request is logged with status_code 200, whatever
      status codes the inner handler sends. */
  lemma AsWrittenLogs200(req: Incoming, freshId: string, codes: seq<int>, durationMs: nat)
    ensures var o := HandleAsWritten(req, freshId, codes, durationMs);
      && o.sent == codes
      && Lookup(o.line.attrs, "status_code") == Some(Int64Value(200))
      && Lookup(o.line.attrs, "duration_ms") == Some(Int64Value(durationMs))
  {
    var res := ResolveRequestId(req.header, freshId);
    RequestLineNumbers(res.id, durationMs, req.(header := res.header), StatusOK);
  }

  /** The logged request_id is the caller's non-empty `X-Request-Id` value
      verbatim; without one it is the fresh ID, which the inner handler also
      finds in the request's header. */
  lemma LoggedRequestId(req: Incoming, freshId: string, codes: seq<int>, durationMs: nat)
    requires freshId != ""
    ensures var o := HandleAsWritten(req, freshId, codes, durationMs);
      var supplied := Get(req.header, HeaderRequestID);
      && (supplied != "" ==> Lookup(o.line.attrs, "request_id") == Some(StringValue(supplied)) && o.header == req.header)
      && (supplied == "" ==> Lookup(o.line.attrs, "request_id") == Some(StringValue(freshId)) && Get(o.header, HeaderRequestID) == freshId)
  {
    var res := ResolveRequestId(req.header, freshId);
    RequestLineStrings(res.id, durationMs, req.(header := res.header), StatusOK);
  }

  /** The discrepancy, on one input: the handler sends 404, the line says 200. */
  lemma AsWrittenMisreports404(req: Incoming, freshId: string, durationMs: nat)
    ensures var o := HandleAsWritten(req, freshId, [404], durationMs);
      o.sent == [404] && Lookup(o.line.attrs, "status_code") == Some(Int64Value(200))
  {
    AsWrittenLogs200(req, freshId, [404], durationMs);
  }

  /** With the wrapper in use, the logged status is the last code written to
      the writer, or 200 when the handler wrote none. (net/http sends only the
      first of several codes to the client.) */
  lemma IntendedLogsLastStatus(req: Incoming, freshId: string, codes: seq<int>, durationMs: nat)
    ensures var o := HandleIntended(req, freshId, codes, durationMs);
      && o.sent == codes
      && Lookup(o.line.attrs, "status_code") == Some(Int64Value(if codes == [] then 200 else codes[|codes| - 1]))
  {
    var res := ResolveRequestId(req.header, freshId);
    ReplayLast(codes, StatusOK);
    RequestLineNumbers(res.id, durationMs, req.(header := res.header), Replay(codes, StatusOK));
  }

  /** The inner handler, which is not part of this model, stands for the
      status codes it writes, in order, to the writer it is given. */
  method ServeHTTP(w: ResponseWriter, codes: seq<int>)
    requires forall c :: c in codes ==> ValidCode(c)
    modifies w, w.trace
    ensures w.sent == old(w.sent) + codes
    ensures w.trace.events == old(w.trace.events) + StatusEvents(codes)
  {
    for i := 0 to |codes|
      invariant w.sent == old(w.sent) + codes[..i]
      invariant w.trace.events == old(w.trace.events) + StatusEvents(codes[..i])
    {
      w.WriteHeader(codes[i]);
      assert StatusEvents(codes[..i + 1]) == StatusEvents(codes[..i]) + [StatusSent(codes[i])];
    }
    assert codes[..|codes|] == codes;
  }

  /** The same inner handler, given the wrapper instead of the client's writer. */
  method ServeHTTPWrapped(wrap: WrapResponseWriter, codes: seq<int>)
    requires wrap.Valid()
    requires forall c :: c in codes ==> ValidCode(c)
    modifies wrap, wrap.inner, wrap.inner.trace
    ensures wrap.Valid()
    ensures wrap.statusCode == Replay(codes, old(wrap.statusCode))
    ensures wrap.written == old(wrap.written) + codes
    ensures wrap.inner.sent == old(wrap.inner.sent) + codes
    ensures wrap.inner.trace.events == old(wrap.inner.trace.events) + StatusEvents(codes)
  {
    for i := 0 to |codes|
      invariant wrap.Valid()
      invariant wrap.statusCode == Replay(codes[..i], old(wrap.statusCode))
      invariant wrap.written == old(wrap.written) + codes[..i]
      invariant wrap.inner.sent == old(wrap.inner.sent) + codes[..i]
      invariant wrap.inner.trace.events == old(wrap.inner.trace.events) + StatusEvents(codes[..i])
    {
      wrap.WriteHeader(codes[i]);
      ReplayLast(codes[..i + 1], old(wrap.statusCode));
      assert StatusEvents(codes[..i + 1]) == StatusEvents(codes[..i]) + [StatusSent(codes[i])];
    }
    assert codes[..|codes|] == codes;
  }

  /** The first half of the middleware: the request ID is read from the
      header and, when missing or empty, replaced by the fresh one in place. */
  method AdoptRequestId(r: Request, freshId: string) returns (requestId: string)
    modifies r`header
    ensures var res := ResolveRequestId(old(r.header), freshId);
      requestId == res.id && r.header == res.header
  {
    requestId := Get(r.header, HeaderRequestID);
    if requestId == "" {
      requestId := freshId;
      r.header := Set(r.header, HeaderRequestID, requestId);
    }
  }

  /** The last step of the middleware: the one "request" line. */
  method LogRequest(log: Logger, r: Request, requestId: string, msec: nat, status: int)
    modifies log, log.trace
    ensures log.lines == old(log.lines) + [RequestLine(requestId, msec, r.View(), status)]
    ensures log.trace.events == old(log.trace.events) + [LineLogged(|old(log.lines)|)]
  {
    log.Info("request", [
      Attr("request_id", StringValue(requestId)),
      Attr("duration_ms", Int64Value(msec)),
      Attr("method", StringValue(r.httpMethod)),
      Attr("path", StringValue(r.path)),
      Attr("query", StringValue(r.rawQuery)),
      Attr("status_code", Int64Value(status)),
      Attr("referer", StringValue(r.View().Referer())),
      Attr("user_agent", StringValue(r.View().UserAgent()))
    ]);
  }

  /** One invocation of the handler `loggerHandler` returns, as written.
      `freshId` is the ID uuid.New would supply and `durationMs` the time the
      inner handler took, in whole milliseconds. The writer and the logger
      share one trace, on which the handler's status codes come first and the
      "request" line last. */
  method LoggerHandler(log: Logger, w: ResponseWriter, r: Request, freshId: string, codes: seq<int>, durationMs: nat)
    requires w.trace == log.trace
    requires forall c :: c in codes ==> ValidCode(c)
    modifies log, w, r`header, log.trace
    ensures var o := HandleAsWritten(old(r.View()), freshId, codes, durationMs);
      && r.header == o.header
      && w.sent == old(w.sent) + o.sent
      && log.lines == old(log.lines) + [o.line]
      && log.trace.events == old(log.trace.events) + StatusEvents(o.sent) + [LineLogged(|old(log.lines)|)]
  {
    var requestId := AdoptRequestId(r, freshId);
    var wrap := new WrapResponseWriter(w);

    ServeHTTP(w, codes);
    LogRequest(log, r, requestId, durationMs, wrap.statusCode);
  }

  /** The corrected handler: the inner handler is given the wrapper, so the
      line carries the last status code written to the writer. */
  method LoggerHandlerIntended(log: Logger, w: ResponseWriter, r: Request, freshId: string, codes: seq<int>, durationMs: nat)
    requires w.trace == log.trace
    requires forall c :: c in codes ==> ValidCode(c)
    modifies log, w, r`header, log.trace
    ensures var o := HandleIntended(old(r.View()), freshId, codes, durationMs);
      && r.header == o.header
      && w.sent == old(w.sent) + o.sent
      && log.lines == old(log.lines) + [o.line]
      && log.trace.events == old(log.trace.events) + StatusEvents(o.sent) + [LineLogged(|old(log.lines)|)]
  {
    var requestId := AdoptRequestId(r, freshId);
    var wrap := new WrapResponseWriter(w);

    ServeHTTPWrapped(wrap, codes);
    LogRequest(log, r, requestId, durationMs, wrap.statusCode);
  }
}
