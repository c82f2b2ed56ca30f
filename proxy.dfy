/**
 * The two listeners' entry points: their startup calls into the output
 * coordinator, the HTTP handler that signals activity and dispatches on the
 * request method, and the SOCKS listener's accept hook. Listening, serving
 * and the SOCKS5 engine itself are outside the model.
 */
module Proxy {
  import opened Wrappers
  import opened NetHttp
  import opened Coordinator
  import Forward
  import Tunnel

  const MethodConnect := "CONNECT"

  /** Which path a request takes. */
  datatype Route = TunnelRoute | ForwardRoute

  /** CONNECT requests are tunnelled; every other method is forwarded. */
  function RouteOf(verb: string): (r: Route)
    ensures r == TunnelRoute <==> verb == MethodConnect
    ensures r == ForwardRoute <==> verb != MethodConnect
  {
    if verb == MethodConnect then TunnelRoute else ForwardRoute
  }

  /** What the handler asks of the network, as abstract outcomes. */
  datatype Network = Network(
    dial: string -> Tunnel.DialOutcome,       // net.DialTimeout("tcp", host, 10s)
    hijackRefusal: Option<string>,            // the error Hijack returns, if any
    reparse: URL -> Option<URL>,              // url.Parse(u.String())
    roundTrip: Request -> Result<Response>)   // the reverse proxy's transport

  /**
   * What the client receives for a request, once the activity signal is
   * given: the writer's reply, and what the handler wrote itself on the
   * client connection after taking it over.
   */
  function ReplyTo(w: Reply, r: Request, hijackable: bool, net: Network): (Reply, string)
  {
    match RouteOf(r.verb)
    case TunnelRoute =>
      var o := Tunnel.Tunnel(w, net.dial(r.host), hijackable, net.hijackRefusal);
      (o.reply, o.greeting)
    case ForwardRoute => (Forward.ForwardReply(w, r, net.reparse, net.roundTrip), "")
  }

  /**
   * What a fresh client is told. A CONNECT gets 503 when the dial fails,
   * 500 when the writer cannot hand over its connection, the tunnel's 200
   * on the taken-over connection exactly when the tunnel is relayed, and
   * nothing through the writer otherwise. Any other request gets nothing
   * when its URL does not parse, otherwise 502 when the transport fails and
   * the upstream status when it answers.
   */
  lemma ReplyStatuses(r: Request, hijackable: bool, net: Network)
    ensures var reply := ReplyTo(Unwritten, r, hijackable, net).0;
      var greeting := ReplyTo(Unwritten, r, hijackable, net).1;
      && (reply.wroteHeader <==>
            if r.verb == MethodConnect then net.dial(r.host).DialFailed? || !hijackable
            else net.reparse(r.url).Some?)
      && (r.verb == MethodConnect && net.dial(r.host).DialFailed? ==> reply.status == StatusServiceUnavailable)
      && (r.verb == MethodConnect && net.dial(r.host).Connected? && !hijackable ==>
            reply.status == StatusInternalServerError)
      && (greeting == Tunnel.Established <==>
            r.verb == MethodConnect && net.dial(r.host).Connected? && hijackable && net.hijackRefusal.None?)
      && (r.verb != MethodConnect ==> greeting == "")
      && (r.verb != MethodConnect && net.reparse(r.url).Some? ==>
            var answer := net.roundTrip(Forward.Direct(Forward.Rewrite(r, net.reparse(r.url).value), net.reparse));
            reply.status == if answer.Err? then StatusBadGateway else answer.value.status)
  {
    if r.verb != MethodConnect && net.reparse(r.url).Some? {
      var outgoing := Forward.Direct(Forward.Rewrite(r, net.reparse(r.url).value), net.reparse);
      var _ := Forward.Respond(Unwritten, net.roundTrip(outgoing));
    }
  }

  /**
   * The HTTP listener's handler; `tunnelled` is what it wrote itself on a
   * taken-over client connection.
   */
  method ServeRequest(c: OutputCoordinator, w: ResponseWriter, r: HttpRequest, net: Network)
    returns (tunnelled: string)
    modifies c, w, r
    ensures c.State() == ActivityStep(old(c.State()))
    ensures (w.Value(), tunnelled) == ReplyTo(old(w.Value()), old(r.Value()), w.hijackable, net)
    ensures RouteOf(old(r.verb)) == TunnelRoute ==> r.Value() == old(r.Value())
  {
    c.ShowActivity();
    if r.verb == MethodConnect {
      var _, _, client := Tunnel.HandleTunneling(w, net.dial(r.host), net.hijackRefusal);
      tunnelled := if client == null then "" else client.sent;
    } else {
      var _ := Forward.HandleHTTP(w, r, net.reparse, net.roundTrip);
      tunnelled := "";
    }
  }

  /** StartHTTPProxy up to ListenAndServe: fix the mode, then announce the HTTP port. */
  method StartHTTPProxy(c: OutputCoordinator, port: int, quiet: bool, verbose: bool)
    modifies c
    ensures c.State() == Start(old(c.State()), quiet, verbose, HttpKind, port)
  {
    c.InitOutputMode(quiet, verbose);
    c.ShowPortInfo(HttpKind, port);
  }

  /** StartSocksProxy up to net.Listen: fix the mode, then announce the SOCKS port. */
  method StartSocksProxy(c: OutputCoordinator, port: int, quiet: bool, verbose: bool)
    modifies c
    ensures c.State() == Start(old(c.State()), quiet, verbose, SocksKind, port)
  {
    c.InitOutputMode(quiet, verbose);
    c.ShowPortInfo(SocksKind, port);
  }

  /** loggingListener.Accept: a successfully accepted SOCKS connection signals activity. */
  method AcceptConnection(c: OutputCoordinator, accepted: bool)
    modifies c
    ensures c.State() == if accepted then ActivityStep(old(c.State())) else old(c.State())
  {
    if accepted {
      c.ShowActivity();
    }
  }

  /**
   * Both listeners starting in either order from a fresh coordinator, in
   * Default mode: the two port lines and then the first glyph are printed,
   * once each.
   */
  method StartBoth(quiet: bool, verbose: bool, httpPort: int, socksPort: int, httpFirst: bool)
    returns (c: OutputCoordinator)
    ensures SelectMode(quiet, verbose) == Default ==>
              multiset(c.printed) == multiset{PortLine(HttpKind, httpPort), PortLine(SocksKind, socksPort), Prime("|")}
    ensures SelectMode(quiet, verbose) == Default ==> c.printed[|c.printed| - 1] == Prime("|")
    ensures SelectMode(quiet, verbose) != Default ==> c.printed == (if verbose && !quiet then [VerboseBanner] else [])
  {
    c := new OutputCoordinator();
    if httpFirst {
      StartHTTPProxy(c, httpPort, quiet, verbose);
      StartSocksProxy(c, socksPort, quiet, verbose);
    } else {
      StartSocksProxy(c, socksPort, quiet, verbose);
      StartHTTPProxy(c, httpPort, quiet, verbose);
    }
    StartupPrintsEachPortOnce(quiet, verbose, httpPort, socksPort, httpFirst);
  }
}
