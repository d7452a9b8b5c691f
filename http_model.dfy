/** The pieces of net/http the middleware touches: a request's header map,
    the request itself, the client-facing response writer, and the
    status-capturing `wrapResponseWriter` defined in main.go. */
module Http {
  import opened Output

  /** http.Header: each key maps to its list of values. Keys are taken to be
      in canonical form already. */
  type Header = map<string, seq<string>>

  /** http.StatusOK, the status a response has when no code is written. */
  const StatusOK := 200

  /** Header.Get: the first value stored under the key, or "" when the key is
      missing or has no values. */
  function Get(h: Header, key: string): (v: string)
    ensures v != "" ==> key in h && |h[key]| > 0 && v == h[key][0]
    ensures key in h && |h[key]| > 0 ==> v == h[key][0]
  {
    if key in h && |h[key]| > 0 then h[key][0] else ""
  }

  /** Header.Set: the key's values are replaced by the single given value;
      every other key keeps its values. */
  function Set(h: Header, key: string, value: string): (r: Header)
    ensures r.Keys == h.Keys + {key}
    ensures r[key] == [value] && Get(r, key) == value
    ensures forall k :: k in h && k != key ==> r[k] == h[k]
  {
    h[key := [value]]
  }

  /** A request as the logger reads it: method, URL path, raw query, headers. */
  datatype Incoming = Incoming(httpMethod: string, path: string, rawQuery: string, header: Header) {
    /** r.Referer(): the first "Referer" header value, or "". */
    function Referer(): string {
      Get(header, "Referer")
    }

    /** r.UserAgent(): the first "User-Agent" header value, or "". */
    function UserAgent(): string {
      Get(header, "User-Agent")
    }
  }

  /** *http.Request, with the fields the logger reads. Only `header` is ever
      changed, by the middleware, in place. */
  class Request {
    var httpMethod: string   // r.Method
    var path: string         // r.URL.Path
    var rawQuery: string     // r.URL.RawQuery
    var header: Header       // r.Header

    constructor (httpMethod: string, path: string, rawQuery: string, header: Header)
      ensures this.httpMethod == httpMethod && this.path == path
      ensures this.rawQuery == rawQuery && this.header == header
    {
      this.httpMethod := httpMethod;
      this.path := path;
      this.rawQuery := rawQuery;
      this.header := header;
    }

    /** The request's current state, as a value. */
    function View(): Incoming
      reads this
    {
      Incoming(httpMethod, path, rawQuery, header)
    }
  }

  /** The status codes net/http accepts: its WriteHeader panics on a code
      below 100 or above 999 (checkWriteHeaderCode) instead of sending it. */
  predicate ValidCode(code: int) {
    100 <= code <= 999
  }

  /** The http.ResponseWriter the server hands to the middleware. Only the
      status codes written to it are observed: `sent` lists them in call
      order, and each is also recorded on the process-wide `trace`. */
  class ResponseWriter {
    ghost var sent: seq<int>
    ghost const trace: Trace

    constructor (trace: Trace)
      ensures sent == [] && this.trace == trace
    {
      sent := [];
      this.trace := trace;
    }

    method WriteHeader(code: int)
      requires ValidCode(code)
      modifies this, trace
      ensures sent == old(sent) + [code]
      ensures trace.events == old(trace.events) + [StatusSent(code)]
    {
      sent := sent + [code];
      trace.events := trace.events + [StatusSent(code)];
    }
  }

  /** The value a status field ends up holding when it starts at `init` and
      each code of `codes` is written to it in turn. */
  function Replay(codes: seq<int>, init: int): int
    decreases |codes|
  {
    if codes == [] then init else Replay(codes[1..], codes[0])
  }

  /** Last write wins: after a sequence of writes the field holds the last
      code written, or its initial value when nothing was written. */
  lemma {:induction false} ReplayLast(codes: seq<int>, init: int)
    ensures Replay(codes, init) == if codes == [] then init else codes[|codes| - 1]
  {
    if codes != [] {
      ReplayLast(codes[1..], codes[0]);
    }
  }

  /** wrapResponseWriter: forwards every status code to the writer it wraps
      and remembers the last one in `statusCode`. `written` lists the codes
      written through the wrapper. */
  class WrapResponseWriter {
    const inner: ResponseWriter
    var statusCode: int
    ghost var written: seq<int>

    /** The field always holds what replaying the writes over 200 gives: the
        last code written, or 200 when none was. */
    ghost predicate Valid()
      reads this
    {
      statusCode == Replay(written, StatusOK)
    }

    /** &wrapResponseWriter{w, http.StatusOK} */
    constructor (w: ResponseWriter)
      ensures inner == w && statusCode == StatusOK && written == []
      ensures Valid()
    {
      inner := w;
      statusCode := StatusOK;
      written := [];
    }

    /** Overwrites the field, then passes the same code on to the inner writer. */
    method WriteHeader(code: int)
      requires Valid() && ValidCode(code)
      modifies this, inner, inner.trace
      ensures Valid()
      ensures statusCode == code
      ensures written == old(written) + [code]
      ensures inner.sent == old(inner.sent) + [code]
      ensures inner.trace.events == old(inner.trace.events) + [StatusSent(code)]
    {
      statusCode := code;
      inner.WriteHeader(code);
      written := written + [code];
      ReplayLast(written, StatusOK);
    }
  }
}
