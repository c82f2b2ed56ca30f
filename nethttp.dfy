/**
 * The parts of Go's net/http that the proxy handlers drive: header maps,
 * the request and upstream-response objects they mutate in place, and the
 * response writer. Only the behaviour the handlers depend on is modelled:
 * the first status written wins, writing a body first writes status 200,
 * a writer either supports hijacking its connection or does not, and once
 * the connection is hijacked the writer sends nothing more.
 */
module NetHttp {
  import opened Wrappers

  const StatusOK := 200
  const StatusInternalServerError := 500
  const StatusBadGateway := 502
  const StatusServiceUnavailable := 503

  /** http.Header: each canonical key maps to its list of values. */
  type Header = map<string, seq<string>>

  /** Header.Set: `key` afterwards holds exactly `value`; every other key is untouched. */
  function SetHeader(h: Header, key: string, value: string): (r: Header)
    ensures r.Keys == h.Keys + {key}
    ensures r[key] == [value]
    ensures forall k :: k in h && k != key ==> r[k] == h[k]
  {
    h[key := [value]]
  }

  /**
   * Copying upstream headers onto the client's header map: every value of
   * `src` is added after the values `dst` already holds for that key.
   */
  function AddHeaders(dst: Header, src: Header): (r: Header)
    ensures r.Keys == dst.Keys + src.Keys
    ensures forall k :: k in src && k !in dst ==> r[k] == src[k]
    ensures forall k :: k in dst && k !in src ==> r[k] == dst[k]
  {
    map k | k in dst.Keys + src.Keys ::
      (if k in dst then dst[k] else []) + (if k in src then src[k] else [])
  }

  /** A parsed URL: scheme and host, and everything else (path, query, ...) as one opaque part. */
  datatype URL = URL(scheme: string, host: string, rest: string)

  /** The request fields the proxy reads or rewrites; `verb` is Request.Method. */
  datatype Request = Request(verb: string, url: URL, host: string, remoteAddr: string, header: Header)

  /** An upstream response as the transport returns it. */
  datatype Response = Response(status: int, header: Header, body: string)

  /**
   * What a handler has written to the client so far through its writer, and
   * whether the connection has been taken away from the writer. A status
   * written before the hijack is flushed to the client by Hijack itself.
   */
  datatype Reply = Reply(header: Header, wroteHeader: bool, status: int, body: string, hijacked: bool)

  /** The writer a handler receives: nothing written yet, connection still owned by the server. */
  const Unwritten: Reply := Reply(map[], false, 0, "", false)

  /**
   * ResponseWriter.WriteHeader: only the first call sets the status; later
   * ones are ignored, and so is every call on a hijacked connection.
   */
  function WriteHeaderTo(w: Reply, code: int): (r: Reply)
    ensures w.hijacked ==> r == w
    ensures !w.hijacked ==> r.wroteHeader && r.status == (if w.wroteHeader then w.status else code)
    ensures r.header == w.header && r.body == w.body && r.hijacked == w.hijacked
  {
    if w.hijacked || w.wroteHeader then w else w.(wroteHeader := true, status := code)
  }

  /**
   * ResponseWriter.Write: writes status 200 first if no status was written,
   * then appends; on a hijacked connection it fails and sends nothing.
   */
  function WriteTo(w: Reply, data: string): (r: Reply)
    ensures w.hijacked ==> r == w
    ensures !w.hijacked ==> r.wroteHeader && r.status == (if w.wroteHeader then w.status else StatusOK)
    ensures !w.hijacked ==> r.body == w.body + data
    ensures r.header == w.header && r.hijacked == w.hijacked
  {
    if w.hijacked then w else WriteHeaderTo(w, StatusOK).(body := w.body + data)
  }

  /** http.Error: a status followed by the message and a newline as the body. */
  function ErrorTo(w: Reply, msg: string, code: int): (r: Reply)
    ensures w.hijacked ==> r == w
    ensures !w.hijacked ==> r.wroteHeader && r.status == (if w.wroteHeader then w.status else code)
    ensures !w.hijacked ==> r.body == w.body + msg + "\n"
    ensures r.header == w.header && r.hijacked == w.hijacked
  {
    WriteTo(WriteHeaderTo(w, code), msg + "\n")
  }

  /**
   * Hijacker.Hijack on the HTTP/1 writer: a status already written is
   * flushed (it stays part of the reply), and the connection is marked
   * hijacked whether the call succeeds or fails, so nothing more goes out
   * through the writer.
   */
  function HijackFrom(w: Reply): (r: Reply)
    ensures r.hijacked
    ensures r.header == w.header && r.wroteHeader == w.wroteHeader
    ensures r.status == w.status && r.body == w.body
  {
    w.(hijacked := true)
  }

  /** Once hijacked, no writer call changes what the client was sent. */
  lemma HijackedWriterIsInert(w: Reply, code: int, msg: string)
    ensures WriteHeaderTo(HijackFrom(w), code) == HijackFrom(w)
    ensures WriteTo(HijackFrom(w), msg) == HijackFrom(w)
    ensures ErrorTo(HijackFrom(w), msg, code) == HijackFrom(w)
  {
  }

  /** An *http.Request the handlers rewrite in place. */
  class HttpRequest {
    var verb: string  // Request.Method
    var url: URL
    var host: string
    var remoteAddr: string
    var header: Header

    function Value(): Request
      reads this
    {
      Request(verb, url, host, remoteAddr, header)
    }

    constructor (v: Request)
      ensures Value() == v
    {
      verb, url, host, remoteAddr, header := v.verb, v.url, v.host, v.remoteAddr, v.header;
    }

    /** Request.Clone: a fresh request with the same fields. */
    method Clone() returns (c: HttpRequest)
      ensures fresh(c) && c.Value() == Value()
    {
      c := new HttpRequest(Value());
    }
  }

  /** An *http.Response received from upstream, whose headers ModifyResponse edits. */
  class HttpResponse {
    var status: int
    var header: Header
    var body: string

    function Value(): Response
      reads this
    {
      Response(status, header, body)
    }

    constructor (v: Response)
      ensures Value() == v
    {
      status, header, body := v.status, v.header, v.body;
    }
  }

  /** A net.Conn: whether it is still open, and every byte written on it. */
  class Conn {
    var open: bool
    var sent: string

    constructor ()
      ensures open && sent == ""
    {
      open := true;
      sent := "";
    }

    method Send(data: string)
      modifies this
      ensures sent == old(sent) + data && open == old(open)
    {
      sent := sent + data;
    }

    method Close()
      modifies this
      ensures !open && sent == old(sent)
    {
      open := false;
    }
  }

  /** An http.ResponseWriter. */
  class ResponseWriter {
    var header: Header
    var wroteHeader: bool
    var status: int
    var body: string
    /** Whether the writer implements http.Hijacker. */
    const hijackable: bool
    var hijacked: bool

    function Value(): Reply
      reads this
    {
      Reply(header, wroteHeader, status, body, hijacked)
    }

    constructor (canHijack: bool)
      ensures Value() == Unwritten && hijackable == canHijack
    {
      header, wroteHeader, status, body := map[], false, 0, "";
      hijackable := canHijack;
      hijacked := false;
    }

    method WriteHeader(code: int)
      modifies this
      ensures Value() == WriteHeaderTo(old(Value()), code)
      ensures old(hijacked) ==> Value() == old(Value())
    {
      if hijacked {
        return;  // "response.WriteHeader on hijacked connection"
      }
      if !wroteHeader {
        status := code;
        wroteHeader := true;
      }
    }

    method Write(data: string)
      modifies this
      ensures Value() == WriteTo(old(Value()), data)
      ensures old(hijacked) ==> Value() == old(Value())
    {
      if hijacked {
        return;  // http.ErrHijacked
      }
      if !wroteHeader {
        WriteHeader(StatusOK);
      }
      body := body + data;
    }

    /** http.Error(w, msg, code). */
    method Error(msg: string, code: int)
      modifies this
      ensures Value() == ErrorTo(old(Value()), msg, code)
      ensures old(hijacked) ==> Value() == old(Value())
    {
      WriteHeader(code);
      Write(msg + "\n");
    }

    /**
     * Hijacker.Hijack: takes the client connection away from the writer;
     * `refusal` is the error the call returns, if any. On success the caller
     * receives the connection; the writer counts as hijacked either way.
     */
    method Hijack(refusal: Option<string>) returns (client: Conn?, err: Option<string>)
      requires hijackable
      modifies this
      ensures err == refusal
      ensures client == null <==> err.Some?
      ensures client != null ==> fresh(client) && client.open && client.sent == ""
      ensures Value() == HijackFrom(old(Value()))
    {
      err := refusal;
      hijacked := true;
      if err.None? {
        client := new Conn();
      } else {
        client := null;
      }
    }
  }
}
