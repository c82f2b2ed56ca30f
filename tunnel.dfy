/**
 * CONNECT handling: dial the destination (net.DialTimeout with a 10-second
 * bound), answer the client, take over its connection and relay bytes both
 * ways. The dial and the hijack are abstract inputs; the byte relay is
 * reduced to who owns and closes the two connections.
 *
 * `TunnelAsWritten` is handleTunneling as the code has it: it writes status
 * 200 before it checks that the connection can be taken over, so the 500
 * it writes afterwards cannot change the status, the 503 after a refused
 * hijack is not sent at all, and on those paths the dialled destination
 * connection is never closed. `Tunnel` is the evidently intended
 * behaviour; `HandleTunneling` follows it and `HandleTunnelingAsWritten`
 * follows the code.
 */
module Tunnel {
  import opened Wrappers
  import opened NetHttp

  const HijackUnsupported := "Hijacking not supported"

  /** The status line a tunnel sends on a connection it has taken over. */
  const Established := "HTTP/1.1 200 Connection established\r\n\r\n"

  /** The outcome of net.DialTimeout("tcp", host, 10s). */
  datatype DialOutcome = Connected | DialFailed(reason: string)

  /** What became of the destination connection when the handler returned. */
  datatype Destination =
    | NotDialed  // the dial failed, there is nothing to close
    | LeftOpen   // dialled, then abandoned without being closed
    | Closed     // dialled, then closed because no tunnel was set up
    | Relayed    // handed, with the client connection, to the two relay directions

  /**
   * What the client was sent through the writer, the destination's fate,
   * and what the handler wrote itself on the taken-over client connection.
   */
  datatype Outcome = Outcome(reply: Reply, dest: Destination, greeting: string)

  /** Whether the client was told that the tunnel is up, by either channel. */
  predicate ToldSuccess(o: Outcome)
  {
    o.greeting == Established || (o.reply.wroteHeader && o.reply.status == StatusOK)
  }

  /** handleTunneling as written. */
  function TunnelAsWritten(w: Reply, dial: DialOutcome, hijackable: bool, refusal: Option<string>)
    : (r: Outcome)
    ensures r.greeting == ""
    ensures r.dest == NotDialed <==> dial.DialFailed?
    ensures r.dest == Relayed <==> dial.Connected? && hijackable && refusal.None?
    ensures r.dest == LeftOpen <==> dial.Connected? && !(hijackable && refusal.None?)
    ensures r.reply.hijacked <==> w.hijacked || (dial.Connected? && hijackable)
    ensures !w.hijacked && !w.wroteHeader ==>
              r.reply.wroteHeader && r.reply.status == (if dial.DialFailed? then StatusServiceUnavailable else StatusOK)
    ensures dial.DialFailed? && !w.hijacked ==> r.reply.body == w.body + dial.reason + "\n"
    ensures dial.Connected? && !hijackable && !w.hijacked ==> r.reply.body == w.body + HijackUnsupported + "\n"
    ensures dial.Connected? && hijackable ==> r.reply.body == w.body
  {
    match dial
    case DialFailed(reason) => Outcome(ErrorTo(w, reason, StatusServiceUnavailable), NotDialed, "")
    case Connected =>
      var ok := WriteHeaderTo(w, StatusOK);
      if !hijackable then Outcome(ErrorTo(ok, HijackUnsupported, StatusInternalServerError), LeftOpen, "")
      else
        var taken := HijackFrom(ok);
        match refusal
        case Some(e) => Outcome(ErrorTo(taken, e, StatusServiceUnavailable), LeftOpen, "")
        case None => Outcome(taken, Relayed, "")
  }

  /**
   * A writer that cannot hand over its connection: the client is told 200
   * followed by "Hijacking not supported", never 500, and the destination
   * connection stays open.
   */
  lemma HijackUnsupportedAnswers200()
    ensures TunnelAsWritten(Unwritten, Connected, false, None)
            == Outcome(Reply(map[], true, StatusOK, HijackUnsupported + "\n", false), LeftOpen, "")
  {
    assert "" + (HijackUnsupported + "\n") == HijackUnsupported + "\n";
  }

  /**
   * A refused hijack: the 200 written beforehand has gone out, the 503 and
   * its message are refused by the hijacked writer, and the destination
   * connection stays open.
   */
  lemma HijackRefusalLeaksDestination(reason: string)
    ensures var o := TunnelAsWritten(Unwritten, Connected, true, Some(reason));
      && o == Outcome(Reply(map[], true, StatusOK, "", true), LeftOpen, "")
      && ToldSuccess(o) && o.dest != Relayed
  {
  }

  /**
   * handleTunneling as intended: the hijack is checked before anything is
   * written, an unsupported writer gets its 500, the status line of a
   * working tunnel goes out on the taken-over connection, and a dialled
   * connection that is not relayed is closed.
   */
  function Tunnel(w: Reply, dial: DialOutcome, hijackable: bool, refusal: Option<string>)
    : (r: Outcome)
    ensures r.dest != LeftOpen
    ensures r.dest == NotDialed <==> dial.DialFailed?
    ensures r.dest == Relayed <==> dial.Connected? && hijackable && refusal.None?
    ensures r.greeting == (if r.dest == Relayed then Established else "")
    ensures r.reply.hijacked <==> w.hijacked || (dial.Connected? && hijackable)
    ensures !w.hijacked && !w.wroteHeader ==> (r.reply.wroteHeader <==> dial.DialFailed? || !hijackable)
    ensures !w.hijacked && !w.wroteHeader && (dial.DialFailed? || !hijackable) ==>
              r.reply.status == (if dial.DialFailed? then StatusServiceUnavailable else StatusInternalServerError)
    ensures w == Unwritten ==> (ToldSuccess(r) <==> r.dest == Relayed)
  {
    match dial
    case DialFailed(reason) => Outcome(ErrorTo(w, reason, StatusServiceUnavailable), NotDialed, "")
    case Connected =>
      if !hijackable then Outcome(ErrorTo(w, HijackUnsupported, StatusInternalServerError), Closed, "")
      else
        var taken := HijackFrom(w);
        match refusal
        case Some(_) => Outcome(taken, Closed, "")
        case None => Outcome(taken, Relayed, Established)
  }

  /**
   * The two versions treat a failed dial identically, relay in exactly the
   * same cases, and both tell a fresh client that a working tunnel is up.
   */
  lemma TunnelAgreesWhenHijackSucceeds(w: Reply, dial: DialOutcome, hijackable: bool, refusal: Option<string>)
    ensures dial.DialFailed? ==> Tunnel(w, dial, hijackable, refusal) == TunnelAsWritten(w, dial, hijackable, refusal)
    ensures Tunnel(w, dial, hijackable, refusal).dest == Relayed
            <==> TunnelAsWritten(w, dial, hijackable, refusal).dest == Relayed
    ensures w == Unwritten && dial.Connected? && hijackable && refusal.None? ==>
              ToldSuccess(Tunnel(w, dial, hijackable, refusal))
              && ToldSuccess(TunnelAsWritten(w, dial, hijackable, refusal))
  {
  }

  /**
   * transfer: copy until the source ends (the copy is not modelled), then
   * close both ends whichever way the copy finished.
   */
  method Transfer(destination: Conn, source: Conn)
    modifies destination, source
    ensures !destination.open && !source.open
    ensures destination.sent == old(destination.sent) && source.sent == old(source.sent)
  {
    source.Close();
    destination.Close();
  }

  /**
   * The two relay directions; whichever returns first closes both
   * connections, so neither end outlives the tunnel.
   */
  method Relay(client: Conn, dest: Conn)
    modifies client, dest
    ensures !client.open && !dest.open
    ensures client.sent == old(client.sent) && dest.sent == old(dest.sent)
  {
    Transfer(dest, client);
    Transfer(client, dest);
  }

  /**
   * handleTunneling as written: 200 goes out before the hijack is checked.
   * `destConn` is the dialled connection; it is still open when the handler
   * gives up on the tunnel.
   */
  method HandleTunnelingAsWritten(w: ResponseWriter, dial: DialOutcome, refusal: Option<string>)
    returns (dest: Destination, destConn: Conn?, clientConn: Conn?)
    modifies w
    ensures Outcome(w.Value(), dest, "") == TunnelAsWritten(old(w.Value()), dial, w.hijackable, refusal)
    ensures destConn == null <==> dial.DialFailed?
    ensures destConn != null ==> fresh(destConn) && (destConn.open <==> dest == LeftOpen)
    ensures clientConn == null <==> dest != Relayed
    ensures clientConn != null ==> fresh(clientConn) && !clientConn.open && clientConn.sent == ""
  {
    if dial.DialFailed? {
      w.Error(dial.reason, StatusServiceUnavailable);
      return NotDialed, null, null;
    }
    destConn := new Conn();
    w.WriteHeader(StatusOK);
    if !w.hijackable {
      w.Error(HijackUnsupported, StatusInternalServerError);
      return LeftOpen, destConn, null;
    }
    var err;
    clientConn, err := w.Hijack(refusal);
    if err.Some? {
      w.Error(err.value, StatusServiceUnavailable);
      return LeftOpen, destConn, null;
    }
    Relay(clientConn, destConn);
    dest := Relayed;
  }

  /**
   * handleTunneling as intended: the connection is taken over before the
   * client is told anything, the 200 is written on the connection Hijack
   * returns, and a dialled destination is never left open: it is closed at
   * once when no tunnel is set up, and by the relay when one is.
   */
  method HandleTunneling(w: ResponseWriter, dial: DialOutcome, refusal: Option<string>)
    returns (dest: Destination, destConn: Conn?, clientConn: Conn?)
    modifies w
    ensures Outcome(w.Value(), dest, if clientConn == null then "" else clientConn.sent)
            == Tunnel(old(w.Value()), dial, w.hijackable, refusal)
    ensures destConn == null <==> dial.DialFailed?
    ensures destConn != null ==> fresh(destConn) && !destConn.open && destConn.sent == ""
    ensures clientConn == null <==> dest != Relayed
    ensures clientConn != null ==> fresh(clientConn) && !clientConn.open && clientConn.sent == Established
  {
    if dial.DialFailed? {
      w.Error(dial.reason, StatusServiceUnavailable);
      return NotDialed, null, null;
    }
    destConn := new Conn();
    if !w.hijackable {
      w.Error(HijackUnsupported, StatusInternalServerError);
      destConn.Close();
      return Closed, destConn, null;
    }
    var err;
    clientConn, err := w.Hijack(refusal);
    if err.Some? {
      destConn.Close();
      return Closed, destConn, null;
    }
    clientConn.Send(Established);
    Relay(clientConn, destConn);
    dest := Relayed;
  }
}
