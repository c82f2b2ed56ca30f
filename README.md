# proxbox proxy core in Dafny

proxbox runs two proxies at once: an HTTP proxy and a SOCKS5 proxy. Each serves on its own port, and both share one console-feedback state. This project models the logic of `internal/proxy/proxy.go`:

- **Output coordinator.** This is the process-wide state that both listeners update:
  - the output mode (Default with a spinning cursor, Verbose, or Quiet), chosen once by whichever listener starts first;
  - the one-time "proxy listening on port" announcements;
  - the four-glyph activity cursor.
- **Forward path.** For every method but CONNECT, `handleHTTP` rewrites the request in place:
  - a missing scheme defaults to `http`;
  - `X-Forwarded-Host`, `X-Forwarded-Proto` and `X-Real-IP` are set;
  - `Host` becomes the target host.

  A reverse proxy then sends the request upstream. Its Director rewrites the outgoing copy again, its ModifyResponse adds permissive CORS headers, and its ErrorHandler answers 502 "Proxy Error".
- **Tunnel path.** CONNECT dials the destination, answers the client and takes over its connection.
- **Dispatch.** The HTTP handler signals activity and picks the tunnel or the forward path. The SOCKS listener's accept hook also signals activity.

How each part is modelled:

- **Coordinator** (`coordinator.dfy`):
  - `CoordState` holds the five package-level variables plus a log of everything printed.
  - `InitStep`, `PortInfoStep` and `ActivityStep` each state what one call does to that state.
  - The class `OutputCoordinator` updates the variables in place; each of its methods is proved against one of those steps.
  - Lemmas over arbitrary call sequences (`Run`) state the properties of the whole protocol.
- **net/http** (`nethttp.dfy`): the behaviour of Go's net/http that the handlers rely on:
  - the first status written wins, and a body write first writes 200;
  - `http.Error` is a status followed by the message and a newline;
  - `Header.Set` replaces all values of a key;
  - `Hijack` flushes a status already written and takes the connection away from the writer, even when it returns an error, and hands it to the caller when it succeeds, after which the writer sends nothing more.
- **Forward path** (`forward.dfy`): the rewrite, the Director, ModifyResponse, ErrorHandler and the reverse proxy's sequence (clone, direct, round trip, relay).
- **Tunnel path** (`tunnel.dfy`): `handleTunneling` as written, next to a corrected version (see Findings).
- **Entry points** (`proxy.dfy`): the handler's dispatch, the two start functions up to the point where they listen, and the accept hook.

Everything outside the process is an input, so the model needs no network:

- `reparse` stands for `url.Parse(u.String())`;
- `roundTrip` stands for the reverse proxy's transport;
- `dial` stands for `net.DialTimeout`;
- `hijackable` (whether the writer implements `http.Hijacker`) and `refusal` (the error `Hijack` returns) stand for the hijack.

## Model

| member | source | states |
|---|---|---|
| Coordinator.SelectMode | internal/proxy/proxy.go:74-80 | Exactly one mode results: Quiet iff quiet, Verbose iff verbose and not quiet, Default iff neither. |
| Coordinator.InitStep | internal/proxy/proxy.go:67-97 | Afterwards the state is initialized. An already-initialized state is returned unchanged whatever the flags. Otherwise the mode is SelectMode of the flags, and the verbose banner is appended exactly when that mode is Verbose. The port flags and the cursor are kept, and output is only appended to. |
| Coordinator.Announce | internal/proxy/proxy.go:108-114 | A type's flag ends up set iff it was set or the call is for that type, so an unknown type changes neither. The type's port line is appended exactly when its flag goes from unset to set, and nothing else is printed. |
| Coordinator.PortInfoStep | internal/proxy/proxy.go:100-120 | Outside Default mode nothing changes. In Default mode a type's flag ends up set iff it was set or the call is for that type. The first call for a type prints its port line with the given port. Every call that leaves both flags set ends with the first glyph "\|". Nothing else is printed, and mode, initialization and cursor are kept. |
| Coordinator.ActivityStep | internal/proxy/proxy.go:51-64 | Outside Default mode nothing changes. In every mode the mode and both flags are kept. The cursor stays in 0..3 by its type. |
| Coordinator.PortInfoKeepsAnnouncedOnce | internal/proxy/proxy.go:108-114 | showPortInfo keeps the invariant that each displayed-flag is set exactly when its port line has been printed once. |
| Coordinator.RunKeepsAnnouncedOnce | internal/proxy/proxy.go:100-120 | Any sequence of initOutputMode, showPortInfo and showActivity calls keeps that invariant. |
| Coordinator.AtMostOneAnnouncement | internal/proxy/proxy.go:108-114 | From the initial state, whatever the calls, each proxy type's port line is printed at most once. |
| Coordinator.RepeatedAnnouncesOnce | internal/proxy/proxy.go:108-114 | N > 0 calls for "HTTP", or N > 0 for "SOCKS", in Default mode print exactly one line for that type, carrying the first call's port, and set its flag. |
| Coordinator.RunIsMonotone | internal/proxy/proxy.go:108-114 | Over any call sequence, displayed-flags and initialization never go back to false, and printed output is only appended to. |
| Coordinator.ModeFixedOnceInitialized | internal/proxy/proxy.go:67-71 | Once initialized, no sequence of calls changes the mode, whatever flags later initOutputMode calls pass. |
| Coordinator.FirstInitDecidesMode | internal/proxy/proxy.go:67-80 | The first initOutputMode call decides the mode for the rest of any run. |
| Coordinator.SilentModesAreInert | internal/proxy/proxy.go:52-63 | In Verbose or Quiet mode, once initialized, no sequence of calls changes any variable or prints anything. |
| Coordinator.TicksCycle | internal/proxy/proxy.go:57-58 | The i-th glyph printed by successive activity signals is the one i positions after the starting cursor, modulo 4. |
| Coordinator.ActivityCycles | internal/proxy/proxy.go:51-58 | k activity signals in Default mode advance the cursor to (cursor + k) mod 4, print exactly the k glyphs from the cursor onwards, and change nothing else. |
| Coordinator.StartupOutput | internal/proxy/proxy.go:117-119 | HTTP then SOCKS starting prints, in Default mode, the two port lines followed by "\|". In Verbose mode it prints only the banner, and in Quiet mode nothing. |
| Coordinator.StartupEitherOrder | internal/proxy/proxy.go:123-125 | Both listeners starting from the initial variables, in either order, print in Default mode the two port lines in start order followed by "\|". In Verbose mode they print only the banner, and in Quiet mode nothing. |
| Coordinator.OutputCoordinator.constructor | internal/proxy/proxy.go:38-47 | The variables start in Default mode, uninitialized, with no port shown, cursor 0 and nothing printed. |
| Coordinator.StartupPrintsEachPortOnce | internal/proxy/proxy.go:99-125 | Whichever listener starts first, Default mode prints each port line exactly once (as a multiset) and ends with "\|". In the other modes only the verbose banner can appear. |
| Coordinator.OutputCoordinator.InitOutputMode | internal/proxy/proxy.go:67-97 | The in-place update matches InitStep, and leaves every field untouched once initialized. |
| Coordinator.OutputCoordinator.ShowPortInfo | internal/proxy/proxy.go:100-120 | The in-place update matches PortInfoStep, and leaves every field untouched outside Default mode. |
| Coordinator.OutputCoordinator.ShowActivity | internal/proxy/proxy.go:51-64 | The in-place update matches ActivityStep, and leaves every field untouched outside Default mode. |
| NetHttp.SetHeader | internal/proxy/proxy.go:202-204 | After Header.Set the key holds exactly the new value, and every other key is untouched. |
| NetHttp.ErrorTo | internal/proxy/proxy.go:156 | http.Error writes the code unless a status was already written, then appends the message and a newline. On a hijacked connection it sends nothing. |
| NetHttp.HijackFrom | internal/proxy/proxy.go:165 | After Hijack the connection is marked hijacked. A status written before stays sent, and nothing else in the reply changes. |
| NetHttp.HijackedWriterIsInert | internal/proxy/proxy.go:165-168 | Once the connection is hijacked, WriteHeader, Write and http.Error change nothing the client receives. |
| NetHttp.ResponseWriter.Hijack | internal/proxy/proxy.go:165 | Hijack returns the refusal, if any, and the writer's state becomes HijackFrom of the old one, whether or not the call fails. On success it also returns the client connection: a new, open connection on which nothing has been sent. On refusal it returns no connection. |
| NetHttp.ResponseWriter.WriteHeader | internal/proxy/proxy.go:159 | The in-place update matches WriteHeaderTo: the first status wins, and nothing happens on a hijacked connection. |
| Forward.ResolveScheme | internal/proxy/proxy.go:191-193 | The scheme is non-empty afterwards: http if it was empty, otherwise unchanged. Host and the rest of the URL are kept. |
| Forward.Rewrite | internal/proxy/proxy.go:200-205 | The URL is the scheme-resolved target and Host is the target host. X-Forwarded-Host is the Host before the rewrite, X-Forwarded-Proto the resolved scheme, and X-Real-IP the remote address. Exactly those three keys are added, every other header is unchanged, and method and remote address are kept. |
| Forward.DirectorKeepsRewrite | internal/proxy/proxy.go:216-238 | When url.Parse gives back the URL it printed, the Director's second rewrite keeps the scheme, Host, X-Forwarded-Proto, X-Real-IP and every other header. It re-sets X-Forwarded-Host to the target host, which equals the client's Host whenever that was the target host. |
| Forward.DirectorKeepsUnparsable | internal/proxy/proxy.go:217-221 | The Director leaves the outgoing request untouched when its URL does not parse. |
| Forward.AddCors | internal/proxy/proxy.go:239-245 | The three CORS headers are set to "*", "GET, POST, PUT, DELETE, OPTIONS" and "*", overwriting upstream values. Every other response header is untouched. |
| Forward.Respond | internal/proxy/proxy.go:246-252 | On transport failure the client gets 502 (unless a status was already written) and "Proxy Error". Otherwise the client gets the upstream status and body, with the CORS-extended upstream headers. A hijacked writer sends none of it. |
| Forward.UnparsableRequestIsDropped | internal/proxy/proxy.go:184-188 | A request URL that does not parse gets no response at all. |
| Forward.ForwardEndToEnd | internal/proxy/proxy.go:181-253 | A GET for http://example.test/resource whose upstream answers 200 "ok" reaches the client as 200 "ok" with Access-Control-Allow-Origin "*". |
| Forward.RewriteInPlace | internal/proxy/proxy.go:200-205 | The in-place edit of URL, headers and Host leaves the request equal to Rewrite of the old request and the parsed URL. |
| Forward.Director | internal/proxy/proxy.go:216-238 | The Director's in-place edit matches Direct: no change when parsing fails, otherwise Rewrite. |
| Forward.ModifyResponse | internal/proxy/proxy.go:239-245 | The upstream response's headers become AddCors of the old headers, with everything else kept and no error returned. |
| Forward.ErrorHandler | internal/proxy/proxy.go:246-250 | The writer gets status 502 (unless one was already written) followed by "Proxy Error". |
| Forward.ServeProxy | internal/proxy/proxy.go:215-252 | The request sent upstream is the Director applied to a copy of the request. The client's reply is Respond of the transport's answer, and the client request object is not modified. |
| Forward.HandleHTTP | internal/proxy/proxy.go:181-253 | On a parse failure nothing is written and the request is untouched. Otherwise the request is rewritten in place, the Director's copy is sent, and the client's reply is ForwardReply. |
| Tunnel.TunnelAsWritten | internal/proxy/proxy.go:152-173 | The status is 503 with the dial error as body on dial failure, and otherwise always 200. The unsupported-hijack message goes out as the body. Once Hijack is called no error text reaches the client. The destination is relayed exactly when the hijack succeeds, and left open exactly when it was dialled but not relayed. |
| Tunnel.HijackUnsupportedAnswers200 | internal/proxy/proxy.go:159-163 | A writer that cannot be hijacked gets 200 with "Hijacking not supported" as body, and the destination stays open. |
| Tunnel.HijackRefusalLeaksDestination | internal/proxy/proxy.go:159-168 | After a refused hijack the client has been told 200 with an empty body, because the 503 and its text are refused by the hijacked writer. The tunnel is not relayed and the destination stays open. |
| Tunnel.Tunnel | internal/proxy/proxy.go:152-173 | The corrected handler answers 503 on dial failure and 500 when hijacking is unsupported. It sends the 200 status line on the taken-over connection exactly when the tunnel is relayed, and tells a fresh client of success exactly then. A dialled destination is never left open. |
| Tunnel.TunnelAgreesWhenHijackSucceeds | internal/proxy/proxy.go:152-173 | The handler as written and the corrected one are identical on a failed dial and relay in exactly the same cases. On a working tunnel both tell a fresh client of success. |
| Tunnel.Transfer | internal/proxy/proxy.go:175-179 | After a relay direction finishes, both of its connections are closed. Closing writes nothing on either of them. |
| Tunnel.Relay | internal/proxy/proxy.go:171-172 | After the two relay directions, neither the client nor the destination connection is open, and what had been sent on each is unchanged. |
| Tunnel.HandleTunnelingAsWritten | internal/proxy/proxy.go:152-173 | The in-place writes, in the code's order and through the hijack-aware writer, match TunnelAsWritten. The handler returns the dialled connection exactly when the dial succeeded, and it is still open exactly when the destination is left open. On a relayed tunnel it also returns the client connection, which the relay has closed and on which the handler sent nothing. |
| Tunnel.HandleTunneling | internal/proxy/proxy.go:152-173 | The corrected handler matches Tunnel. It checks for a Hijacker and hijacks before telling the client anything. It returns the dialled connection exactly when the dial succeeded, and that connection is never left open: it is closed at once when no tunnel is set up, and by the relay otherwise. It returns the client connection Hijack gave it exactly when the tunnel is relayed; the 200 status line is all that was sent on it, and the relay has closed it. |
| Proxy.RouteOf | internal/proxy/proxy.go:136-140 | A request is tunnelled iff its method is CONNECT, and forwarded iff it is not. |
| Proxy.ReplyStatuses | internal/proxy/proxy.go:136-140 | A CONNECT, through the corrected tunnel, gets 503 on dial failure and 500 without hijack support. It gets the 200 status line on the taken-over connection exactly when the tunnel is relayed, and nothing through the writer otherwise. Any other request gets nothing when its URL does not parse, and otherwise 502 on transport failure or the upstream status. |
| Proxy.ServeRequest | internal/proxy/proxy.go:126-141 | The handler signals activity exactly once (ActivityStep), then sends what the chosen path sends through the writer and on a taken-over connection (ReplyTo). A CONNECT leaves the request object untouched. |
| Proxy.StartHTTPProxy | internal/proxy/proxy.go:123-125 | Startup fixes the mode from the flags (unless already fixed), then announces the HTTP port. |
| Proxy.StartSocksProxy | internal/proxy/proxy.go:256-258 | Startup fixes the mode from the flags (unless already fixed), then announces the SOCKS port. |
| Proxy.AcceptConnection | internal/proxy/proxy.go:290-301 | An accepted SOCKS connection signals activity once. A failed accept changes nothing. |
| Proxy.StartBoth | internal/proxy/proxy.go:117-119 | With both listeners started in either order in Default mode, both port lines and one "\|" are printed, the "\|" last. In Verbose mode only the banner is printed, and in Quiet mode nothing. |

## Left out

- **Supervisor and CLI.** The supervisor in `cmd/root.go`, flag parsing and version printing are process plumbing: goroutines, an error channel and process exit.
- **Logging.** The zap logger setup, its replacement by a no-op logger in Default and Quiet mode, every log call and the `Authorization` check at proxy.go:196-198 are logging side effects only.
- **Locks.** The two mutexes are not modelled: the coordinator is modelled sequentially, one whole call after another. The unlocked reads of `outputMode` in `showActivity` and `showPortInfo` are not modelled.
- Coordinator.InitStep: does not model the race in `initOutputMode` (proxy.go:67-71), which tests and sets `modeInitialized` without a lock. `cmd/root.go:30-41` starts both listeners in goroutines, so both can pass the test; in Verbose mode the banner can then print twice. The model runs whole calls one after another, so it prints the banner at most once.
- **Byte relay.** `io.Copy` and the two `transfer` goroutines are reduced to who closes which connection. The bytes relayed and the concurrency of the two directions are not modelled.
- **Networking as inputs.** `net.DialTimeout` (its 10-second bound included), `Hijack`, the reverse proxy's transport, `net.Listen`, `ListenAndServe` and the go-socks5 server are abstract inputs or not modelled. The Dial hook only passes through to `net.Dial`. The error wrapping in `StartSocksProxy` is not modelled.
- **url.Parse.** Its internals are the abstract partial function `reparse`. A URL is reduced to scheme, host and an opaque remainder.
- **Reverse proxy internals.** Hop-by-hop header removal and `X-Forwarded-For` handling inside `httputil.ReverseProxy` are not modelled, nor is response-body streaming.
- Forward.ServeProxy: does not model that `httputil.ReverseProxy` sets an empty `User-Agent` on the outgoing request when the client sent none. The request it states as sent is the Director's output before that edit and before the hop-by-hop and `X-Forwarded-For` edits above.
- **net/http details.** The header edits `http.Error` makes (`Content-Type`, `X-Content-Type-Options`) are not modelled. Neither is the implicit 200 that net/http sends when a handler writes nothing, which happens on the unparsable-URL path.
- **Header keys.** Canonicalisation is not modelled; the header constants are written in canonical form (`X-Real-Ip`).
- **Console bytes.** Output is modelled as a list of printed entries: port lines, the banner, the first glyph and the ticks. The characters written, including the `%d` formatting and the backspace before each tick, are not modelled.

## Findings

| source | as written | input that shows it | evidently intended | confidence | as-written member | corrected member |
|---|---|---|---|---|---|---|
| internal/proxy/proxy.go:159-163 | `WriteHeader(200)` runs before the Hijacker check, so the later `http.Error(..., 500)` cannot change the status. The client receives 200 with body "Hijacking not supported\n", and the dialled destination connection is never closed. | CONNECT through a ResponseWriter that does not implement http.Hijacker (for example an HTTP/2 connection), with a destination that accepts the dial | 500 with the message, and the destination connection closed | not executed | Tunnel.HijackUnsupportedAnswers200 | Tunnel.Tunnel |
| internal/proxy/proxy.go:159-168 | The same ordering applies when `Hijack` returns an error. Hijack has already flushed the 200 and marked the connection hijacked, so the 503 and its text from `http.Error` never go out: the client was told 200 although no tunnel exists. The destination connection leaks. | CONNECT whose Hijack call fails (for example a buffered-read failure on the client connection), with a destination that accepts the dial | the client is not told 200, and the destination connection closed | not executed | Tunnel.HijackRefusalLeaksDestination | Tunnel.Tunnel |

Over a plain HTTP/1.1 listener the writer always implements http.Hijacker, so the first row needs a server that serves HTTP/2 or wraps the writer. `Tunnel.TunnelAsWritten` and `Tunnel.HandleTunnelingAsWritten` keep the code's behaviour. `Tunnel.Tunnel` is the corrected definition, and `Tunnel.HandleTunneling`, `Proxy.ReplyTo` and `Proxy.ServeRequest` use it. The corrected handler hijacks before telling the client anything and sends its 200 status line on the taken-over connection, because net/http's writer sends nothing after a hijack. `Tunnel.TunnelAgreesWhenHijackSucceeds` shows that the two agree on a failed dial and relay in the same cases.
