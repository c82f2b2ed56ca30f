/**
 * The forward-proxy path for every method but CONNECT: handleHTTP rewrites
 * the request in place and hands it to a reverse proxy whose Director
 * rewrites the outgoing copy again, whose ModifyResponse adds permissive
 * CORS headers and whose ErrorHandler answers 502.
 *
 * url.Parse(u.String()) is the parameter `reparse`; the reverse proxy's
 * transport is the parameter `roundTrip`.
 */
module Forward {
  import opened Wrappers
  import opened NetHttp

  const DefaultScheme := "http"

  const ForwardedHost := "X-Forwarded-Host"
  const ForwardedProto := "X-Forwarded-Proto"
  /** Header.Set files "X-Real-IP" under its canonical form. */
  const RealIP := "X-Real-Ip"

  const AllowOrigin := "Access-Control-Allow-Origin"
  const AllowMethods := "Access-Control-Allow-Methods"
  const AllowHeaders := "Access-Control-Allow-Headers"
  const CorsMethods := "GET, POST, PUT, DELETE, OPTIONS"

  const ProxyErrorBody := "Proxy Error"

  /** The outgoing URL: a missing scheme becomes http, anything else is kept. */
  function ResolveScheme(u: URL): (r: URL)
    ensures r.scheme != ""
    ensures r.host == u.host && r.rest == u.rest
    ensures u.scheme != "" ==> r == u
    ensures u.scheme == "" ==> r.scheme == DefaultScheme
  {
    if u.scheme == "" then u.(scheme := DefaultScheme) else u
  }

  /**
   * The rewrite handleHTTP and the Director both apply once `target` is
   * parsed: forwarding headers from the request as it was, then the
   * outgoing Host from the target.
   */
  function Rewrite(r: Request, target: URL): (o: Request)
    ensures o.url == ResolveScheme(target)
    ensures o.host == target.host
    ensures o.header.Keys == r.header.Keys + {ForwardedHost, ForwardedProto, RealIP}
    ensures o.header[ForwardedHost] == [r.host]
    ensures o.header[ForwardedProto] == [o.url.scheme]
    ensures o.header[RealIP] == [r.remoteAddr]
    ensures forall k :: k in r.header && k != ForwardedHost && k != ForwardedProto && k != RealIP ==>
              o.header[k] == r.header[k]
    ensures o.verb == r.verb && o.remoteAddr == r.remoteAddr
  {
    var u := ResolveScheme(target);
    var h := SetHeader(SetHeader(SetHeader(r.header, ForwardedHost, r.host),
                                 ForwardedProto, u.scheme),
                       RealIP, r.remoteAddr);
    r.(url := u, header := h, host := u.host)
  }

  /** The Director: re-parse the outgoing URL and rewrite again; keep the request if parsing fails. */
  function Direct(r: Request, reparse: URL -> Option<URL>): Request
  {
    match reparse(r.url)
    case None => r
    case Some(target) => Rewrite(r, target)
  }

  /**
   * The Director applied to a request handleHTTP already rewrote, when
   * url.Parse gives back the URL it was printed from: scheme, Host,
   * X-Forwarded-Proto, X-Real-IP and every other header stay as they were,
   * and X-Forwarded-Host is re-set from the rewritten Host, the target host.
   * net/http takes Host from an absolute request URL, so for a proxy request
   * that is the client's Host; an origin-form request has no target host and
   * never leaves the proxy (the transport refuses it).
   */
  lemma DirectorKeepsRewrite(r: Request, target: URL, reparse: URL -> Option<URL>)
    requires reparse(Rewrite(r, target).url) == Some(Rewrite(r, target).url)
    ensures var once := Rewrite(r, target);
      var twice := Direct(once, reparse);
      && twice.url == once.url && twice.url.scheme != ""
      && twice.host == once.host == target.host
      && twice.header[ForwardedProto] == once.header[ForwardedProto] == [twice.url.scheme]
      && twice.header[RealIP] == once.header[RealIP] == [r.remoteAddr]
      && twice.header[ForwardedHost] == [target.host]
      && (r.host == target.host ==> twice.header[ForwardedHost] == [r.host])
      && twice.header.Keys == once.header.Keys
      && forall k :: k in once.header && k != ForwardedHost ==> twice.header[k] == once.header[k]
  {
    var once := Rewrite(r, target);
    assert ResolveScheme(once.url) == once.url;
  }

  /** The Director leaves the request alone when the outgoing URL does not parse. */
  lemma DirectorKeepsUnparsable(r: Request, reparse: URL -> Option<URL>)
    requires reparse(r.url).None?
    ensures Direct(r, reparse) == r
  {
  }

  /** ModifyResponse: the three CORS headers replace whatever upstream sent for them. */
  function AddCors(h: Header): (r: Header)
    ensures r.Keys == h.Keys + {AllowOrigin, AllowMethods, AllowHeaders}
    ensures r[AllowOrigin] == ["*"]
    ensures r[AllowMethods] == [CorsMethods]
    ensures r[AllowHeaders] == ["*"]
    ensures forall k :: k in h && k != AllowOrigin && k != AllowMethods && k != AllowHeaders ==>
              r[k] == h[k]
  {
    SetHeader(SetHeader(SetHeader(h, AllowOrigin, "*"), AllowMethods, CorsMethods), AllowHeaders, "*")
  }

  /**
   * What the reverse proxy writes to the client once the transport has
   * answered: the ErrorHandler's 502 on failure, otherwise the upstream
   * status, headers (with CORS added) and body. A writer whose connection
   * was taken over sends none of it.
   */
  function Respond(w: Reply, res: Result<Response>): (r: Reply)
    ensures r.hijacked == w.hijacked
    ensures w.hijacked ==> r.wroteHeader == w.wroteHeader && r.status == w.status && r.body == w.body
    ensures res.Err? && !w.hijacked ==>
              r.status == (if w.wroteHeader then w.status else StatusBadGateway) && r.body == w.body + ProxyErrorBody
    ensures res.Err? ==> r.header == w.header
    ensures res.Ok? && !w.hijacked ==>
              r.status == (if w.wroteHeader then w.status else res.value.status) && r.body == w.body + res.value.body
    ensures res.Ok? && w.header == map[] ==> r.header == AddCors(res.value.header)
  {
    match res
    case Err(_) => WriteTo(WriteHeaderTo(w, StatusBadGateway), ProxyErrorBody)
    case Ok(resp) =>
      var header := AddHeaders(w.header, AddCors(resp.header));
      assert w.header == map[] ==> header == AddCors(resp.header);
      WriteTo(WriteHeaderTo(w.(header := header), resp.status), resp.body)
  }

  /** The reverse proxy copying an upstream answer's headers, status and body to the client. */
  method CopyResponse(w: ResponseWriter, resp: HttpResponse)
    modifies w
    ensures w.Value() == WriteTo(WriteHeaderTo(old(w.Value()).(header := AddHeaders(old(w.header), resp.header)),
                                               resp.status), resp.body)
  {
    w.header := AddHeaders(w.header, resp.header);
    w.WriteHeader(resp.status);
    w.Write(resp.body);
  }

  /**
   * handleHTTP as a whole: nothing is written when the request URL does not
   * parse; otherwise the request is rewritten, the reverse proxy sends the
   * Director's copy upstream and relays the answer.
   */
  function ForwardReply(w: Reply, r: Request, reparse: URL -> Option<URL>,
                        roundTrip: Request -> Result<Response>): Reply
  {
    match reparse(r.url)
    case None => w
    case Some(target) => Respond(w, roundTrip(Direct(Rewrite(r, target), reparse)))
  }

  /**
   * The end-to-end case: a GET for http://example.test/resource whose
   * upstream answers 200 "ok" reaches the client as 200 "ok" with
   * Access-Control-Allow-Origin: *.
   */
  lemma ForwardEndToEnd()
    ensures
      var r := Request("GET", URL("http", "example.test", "/resource"), "example.test",
                       "192.0.2.7:51000", map[]);
      var reply := ForwardReply(Unwritten, r, (u: URL) => Some(u),
                                (_: Request) => Ok(Response(StatusOK, map[], "ok")));
      reply.status == StatusOK && reply.body == "ok" && reply.header[AllowOrigin] == ["*"]
  {
    var r := Request("GET", URL("http", "example.test", "/resource"), "example.test",
                     "192.0.2.7:51000", map[]);
    var reparse := (u: URL) => Some(u);
    DirectorKeepsRewrite(r, r.url, reparse);
  }

  /** A request URL that does not parse gets no response from the handler at all. */
  lemma UnparsableRequestIsDropped(w: Reply, r: Request, reparse: URL -> Option<URL>,
                                   roundTrip: Request -> Result<Response>)
    requires reparse(r.url).None?
    ensures ForwardReply(w, r, reparse, roundTrip) == w
  {
  }

  /** The rewrite handleHTTP and the Director perform on a request object. */
  method RewriteInPlace(req: HttpRequest, parsed: URL)
    modifies req
    ensures req.Value() == Rewrite(old(req.Value()), parsed)
  {
    var targetURL := parsed;
    if targetURL.scheme == "" {
      targetURL := targetURL.(scheme := DefaultScheme);
    }
    req.url := targetURL;
    req.header := SetHeader(req.header, ForwardedHost, req.host);
    req.header := SetHeader(req.header, ForwardedProto, targetURL.scheme);
    req.header := SetHeader(req.header, RealIP, req.remoteAddr);
    req.host := targetURL.host;
  }

  method Director(req: HttpRequest, reparse: URL -> Option<URL>)
    modifies req
    ensures req.Value() == Direct(old(req.Value()), reparse)
  {
    var parsed := reparse(req.url);
    if parsed.None? {
      return;
    }
    RewriteInPlace(req, parsed.value);
  }

  method ModifyResponse(resp: HttpResponse) returns (err: Option<string>)
    modifies resp
    ensures resp.Value() == old(resp.Value()).(header := AddCors(old(resp.header)))
    ensures err.None?
  {
    resp.header := SetHeader(resp.header, AllowOrigin, "*");
    resp.header := SetHeader(resp.header, AllowMethods, CorsMethods);
    resp.header := SetHeader(resp.header, AllowHeaders, "*");
    err := None;
  }

  method ErrorHandler(w: ResponseWriter)
    modifies w
    ensures w.Value() == WriteTo(WriteHeaderTo(old(w.Value()), StatusBadGateway), ProxyErrorBody)
  {
    w.WriteHeader(StatusBadGateway);
    w.Write(ProxyErrorBody);
  }

  /**
   * httputil.ReverseProxy.ServeHTTP with this proxy's hooks: the Director
   * rewrites a clone of the request, the transport sends it, and the answer
   * or the ErrorHandler's reply is written to the client.
   */
  method ServeProxy(w: ResponseWriter, r: HttpRequest, reparse: URL -> Option<URL>,
                    roundTrip: Request -> Result<Response>)
    returns (outgoing: Request)
    modifies w
    ensures outgoing == Direct(r.Value(), reparse)
    ensures w.Value() == Respond(old(w.Value()), roundTrip(outgoing))
  {
    var outreq := r.Clone();
    Director(outreq, reparse);
    outgoing := outreq.Value();
    var res := roundTrip(outgoing);
    match res {
      case Err(_) =>
        ErrorHandler(w);
      case Ok(v) =>
        var resp := new HttpResponse(v);
        var _ := ModifyResponse(resp);
        CopyResponse(w, resp);
    }
  }

  method HandleHTTP(w: ResponseWriter, r: HttpRequest, reparse: URL -> Option<URL>,
                    roundTrip: Request -> Result<Response>)
    returns (outgoing: Option<Request>)
    modifies w, r
    ensures w.Value() == ForwardReply(old(w.Value()), old(r.Value()), reparse, roundTrip)
    ensures reparse(old(r.url)).None? ==> outgoing.None? && r.Value() == old(r.Value())
    ensures reparse(old(r.url)).Some? ==>
              && r.Value() == Rewrite(old(r.Value()), reparse(old(r.url)).value)
              && outgoing == Some(Direct(r.Value(), reparse))
  {
    var targetURL := reparse(r.url);
    if targetURL.None? {
      return None;
    }
    RewriteInPlace(r, targetURL.value);
    var sent := ServeProxy(w, r, reparse, roundTrip);
    outgoing := Some(sent);
  }
}
