/**
 * The listener side of the proxy. The acceptor keeps one bridge (`session`)
 * whose client socket the outstanding accept will fill. When the accept
 * completes it reads the six-byte probe, picks the SSL or the SSH port,
 * starts the bridge, and only then arms the next accept on a fresh bridge.
 */
module Acceptors {
  import opened Classifier
  import opened Bridges

  /** Outcome of the blocking read of the probe: exactly six bytes, or an error. */
  datatype PrefixRead = Prefix(bytes: Probe) | PrefixReadFailed

  /** How arming the next accept ends. */
  datatype AcceptSetup =
    | Armed
    | BridgeAllocationFailed  // the new bridge cannot be built; session_ keeps the old one
    | AcceptFailed            // the new bridge is in session_, but async_accept throws

  class Acceptor {
    const localHost: string
    const localPort: Port
    const upstreamHost: string
    const upstreamPortSsh: Port
    const upstreamPortSsl: Port

    /** Port of the last classified connection's backend. */
    var upstreamPort: Port
    /** The bridge the next (or outstanding) accept fills. */
    var session: Bridge?
    /** Whether an accept is outstanding. */
    var accepting: bool

    /** An outstanding accept targets a new bridge: idle, its client socket never opened. */
    ghost predicate Valid()
      reads this, session, if session != null then session.Repr else {}
    {
      accepting ==>
        session != null && session.Valid() &&
        session.downstreamPump == Idle &&
        !session.downstreamSocket.isOpen && session.downstreamSocket.closures == 0
    }

    constructor (localHost: string, localPort: Port, upstreamHost: string,
                 upstreamPortSsh: Port, upstreamPortSsl: Port)
      ensures Valid()
      ensures this.localHost == localHost && this.localPort == localPort
      ensures this.upstreamHost == upstreamHost
      ensures this.upstreamPortSsh == upstreamPortSsh && this.upstreamPortSsl == upstreamPortSsl
      ensures upstreamPort == 0 && session == null && !accepting
    {
      this.localHost := localHost;
      this.localPort := localPort;
      this.upstreamHost := upstreamHost;
      this.upstreamPortSsh := upstreamPortSsh;
      this.upstreamPortSsl := upstreamPortSsl;
      upstreamPort := 0;
      session := null;
      accepting := false;
    }

    /** Puts a new bridge in `session` and arms an accept for its client socket. */
    method AcceptConnections(setup: AcceptSetup) returns (ok: bool)
      requires !accepting  // every caller runs it when no accept is outstanding
      modifies this`session, this`accepting
      ensures Valid()
      ensures ok == (setup == Armed) && accepting == ok
      ensures setup == BridgeAllocationFailed ==> session == old(session)
      ensures setup != BridgeAllocationFailed ==>
        session != null && fresh(session) && fresh(session.Repr) && session.Valid() &&
        session.downstreamPump == Idle &&
        !session.downstreamSocket.isOpen && session.downstreamSocket.closures == 0
    {
      if setup == BridgeAllocationFailed {
        return false;
      }
      session := new Bridge();
      if setup == AcceptFailed {
        return false;
      }
      accepting := true;
      return true;
    }

    /**
     * Completion of the outstanding accept, as written in the source: a failed
     * accept or a failed probe read returns without arming another accept.
     */
    method HandleAccept(error: bool, prefix: PrefixRead, start: StartOutcome, setup: AcceptSetup)
      requires Valid() && accepting
      modifies this`upstreamPort, this`session, this`accepting
      modifies session, session.downstreamSocket, session.upstreamSocket
      ensures Valid()
      ensures error ==>
        session == old(session) && upstreamPort == old(upstreamPort) && !accepting &&
        unchanged(session, session.downstreamSocket, session.upstreamSocket)
      ensures !error && prefix.PrefixReadFailed? ==>
        session == old(session) && upstreamPort == old(upstreamPort) && !accepting &&
        session.Valid() && session.downstreamPump == Idle && session.downstreamSocket.isOpen &&
        session.upstreamSocket.peer == Unconnected && !session.upstreamSocket.isOpen
      ensures !error && prefix.Prefix? ==>
        upstreamPort == (if IsSsl(prefix.bytes) then upstreamPortSsl else upstreamPortSsh) &&
        old(session).Valid() &&
        old(session).downstreamPump == Reading(start == ProbeDelivered) &&
        old(session).upstreamPump == Reading(start == ProbeDelivered) &&
        old(session).probeSent == (if start == ProbeDelivered then prefix.bytes else []) &&
        old(session).fromDownstream == [] && old(session).fromUpstream == [] &&
        (start == ProbeDelivered ==>
          old(session).upstreamSocket.sent == prefix.bytes &&
          old(session).upstreamSocket.peer == Connected(Endpoint(upstreamHost, upstreamPort)) &&
          old(session).downstreamSocket.isOpen && old(session).upstreamSocket.isOpen) &&
        (start != ProbeDelivered ==> old(session).Closed()) &&
        accepting == (setup == Armed) &&
        (setup == BridgeAllocationFailed ==> session == old(session)) &&
        (setup != BridgeAllocationFailed ==> fresh(session))
    {
      var s := session;
      accepting := false;
      if !error {
        s.downstreamSocket.Open();
        match prefix {
          case PrefixReadFailed =>
            return;
          case Prefix(bytes) =>
            upstreamPort := if IsSsl(bytes) then upstreamPortSsl else upstreamPortSsh;
            s.Start(upstreamHost, upstreamPort, bytes, start);
            var ok := AcceptConnections(setup);
        }
      }
    }

    /**
     * Completion of the outstanding accept with only the probe-read failure
     * corrected: the client socket is closed and the next accept is armed,
     * exactly as after a successful classification. A failed accept still
     * returns without arming another one, as in `HandleAccept`.
     */
    method HandleAcceptRearming(error: bool, prefix: PrefixRead, start: StartOutcome, setup: AcceptSetup)
      requires Valid() && accepting
      modifies this`upstreamPort, this`session, this`accepting
      modifies session, session.downstreamSocket, session.upstreamSocket
      ensures Valid()
      ensures !error ==> accepting == (setup == Armed)
      ensures !error ==> (setup == BridgeAllocationFailed ==> session == old(session))
      ensures !error ==> (setup != BridgeAllocationFailed ==> fresh(session))
      ensures error ==>
        session == old(session) && upstreamPort == old(upstreamPort) && !accepting &&
        unchanged(session, session.downstreamSocket, session.upstreamSocket)
      ensures !error && prefix.PrefixReadFailed? ==>
        upstreamPort == old(upstreamPort) && old(session).Closed() &&
        old(session).downstreamPump == Idle && old(session).upstreamSocket.peer == Unconnected
      ensures !error && prefix.Prefix? ==>
        upstreamPort == (if IsSsl(prefix.bytes) then upstreamPortSsl else upstreamPortSsh) &&
        old(session).Valid() &&
        old(session).downstreamPump == Reading(start == ProbeDelivered) &&
        old(session).upstreamPump == Reading(start == ProbeDelivered) &&
        old(session).probeSent == (if start == ProbeDelivered then prefix.bytes else []) &&
        old(session).fromDownstream == [] && old(session).fromUpstream == [] &&
        (start == ProbeDelivered ==>
          old(session).upstreamSocket.sent == prefix.bytes &&
          old(session).upstreamSocket.peer == Connected(Endpoint(upstreamHost, upstreamPort)) &&
          old(session).downstreamSocket.isOpen && old(session).upstreamSocket.isOpen) &&
        (start != ProbeDelivered ==> old(session).Closed())
    {
      var s := session;
      accepting := false;
      if !error {
        s.downstreamSocket.Open();
        match prefix {
          case PrefixReadFailed =>
            s.Close();
          case Prefix(bytes) =>
            upstreamPort := if IsSsl(bytes) then upstreamPortSsl else upstreamPortSsh;
            s.Start(upstreamHost, upstreamPort, bytes, start);
        }
        var ok := AcceptConnections(setup);
      }
    }
  }
}
