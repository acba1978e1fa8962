/**
 * Clients of the bridge and the acceptor that drive them through whole
 * connections. Each one relies only on the contracts of the methods it calls.
 */
module Scenarios {
  import opened Classifier
  import opened Bridges
  import opened Acceptors

  /** Three client chunks after the probe reach the backend whole and in order. */
  method RelayInOrder(probe: Probe, c1: seq<byte>, c2: seq<byte>, c3: seq<byte>)
    returns (toBackend: seq<byte>)
    requires |c1| <= MAX_DATA_LENGTH && |c2| <= MAX_DATA_LENGTH && |c3| <= MAX_DATA_LENGTH
    ensures toBackend == probe + c1 + c2 + c3
  {
    var b := new Bridge();
    b.downstreamSocket.Open();
    b.Start("127.0.0.1", 22, probe, ProbeDelivered);
    b.HandleDownstreamRead(Received(c1));
    b.HandleUpstreamWrite(false);
    b.HandleDownstreamRead(Received(c2));
    b.HandleUpstreamWrite(false);
    b.HandleDownstreamRead(Received(c3));
    b.HandleUpstreamWrite(false);
    toBackend := b.upstreamSocket.sent;
  }

  /** The two directions interleave without disturbing each other's bytes. */
  method RelayBothWays(probe: Probe, c1: seq<byte>, c2: seq<byte>, d1: seq<byte>, d2: seq<byte>)
    returns (toBackend: seq<byte>, toClient: seq<byte>)
    requires |c1| <= MAX_DATA_LENGTH && |c2| <= MAX_DATA_LENGTH
    requires |d1| <= MAX_DATA_LENGTH && |d2| <= MAX_DATA_LENGTH
    ensures toBackend == probe + c1 + c2
    ensures toClient == d1 + d2
  {
    var b := new Bridge();
    b.downstreamSocket.Open();
    b.Start("127.0.0.1", 443, probe, ProbeDelivered);
    b.HandleDownstreamRead(Received(c1));
    b.HandleUpstreamRead(Received(d1));
    assert InFlight(b.downstreamPump, b.downstreamData) == c1;
    b.HandleDownstreamWrite(false);
    assert b.downstreamSocket.sent == d1;
    b.HandleUpstreamWrite(false);
    assert b.upstreamSocket.sent == probe + c1;
    b.HandleDownstreamRead(Received(c2));
    b.HandleUpstreamRead(Received(d2));
    assert InFlight(b.downstreamPump, b.downstreamData) == c2;
    b.HandleUpstreamWrite(false);
    b.HandleDownstreamWrite(false);
    toBackend, toClient := b.upstreamSocket.sent, b.downstreamSocket.sent;
  }

  /**
   * Both directions fail: the backend read first, then the pending write of a
   * client chunk. Each socket is closed exactly once and the chunk is dropped.
   */
  method FailureOnBothDirections(probe: Probe, c1: seq<byte>)
    returns (clientClosures: nat, backendClosures: nat, toBackend: seq<byte>, anyOpen: bool)
    requires |c1| <= MAX_DATA_LENGTH
    ensures clientClosures == 1 && backendClosures == 1
    ensures toBackend == probe && !anyOpen
  {
    var b := new Bridge();
    b.downstreamSocket.Open();
    b.Start("127.0.0.1", 22, probe, ProbeDelivered);
    b.HandleDownstreamRead(Received(c1));
    b.HandleUpstreamRead(ReadFailed);
    b.HandleUpstreamWrite(true);
    clientClosures, backendClosures := b.downstreamSocket.closures, b.upstreamSocket.closures;
    toBackend := b.upstreamSocket.sent;
    anyOpen := b.downstreamSocket.isOpen || b.upstreamSocket.isOpen;
  }

  /**
   * The backend read fails while a client chunk is being written upstream. The
   * write was started on an open socket and still completes, but the client
   * read it re-arms runs on the closed socket and can only fail.
   */
  method FailureStopsTheOtherDirection(probe: Probe, c1: seq<byte>)
    returns (toBackend: seq<byte>, nextReadLive: bool, anyOpen: bool)
    requires |c1| <= MAX_DATA_LENGTH
    ensures toBackend == probe + c1 && !nextReadLive && !anyOpen
  {
    var b := new Bridge();
    b.downstreamSocket.Open();
    b.Start("127.0.0.1", 22, probe, ProbeDelivered);
    b.HandleDownstreamRead(Received(c1));
    b.HandleUpstreamRead(ReadFailed);
    b.HandleUpstreamWrite(false);
    toBackend := b.upstreamSocket.sent;
    nextReadLive := b.downstreamPump.live;
    anyOpen := b.downstreamSocket.isOpen || b.upstreamSocket.isOpen;
  }

  /**
   * A refused connect still arms both reads, on sockets it has already closed,
   * so neither can deliver anything; their failures close nothing twice.
   */
  method ConnectRefused(probe: Probe)
    returns (readsLive: bool, backendClosures: nat, toBackend: seq<byte>, anyOpen: bool)
    ensures !readsLive
    ensures backendClosures == 1 && toBackend == [] && !anyOpen
  {
    var b := new Bridge();
    b.downstreamSocket.Open();
    b.Start("127.0.0.1", 22, probe, ConnectFailed);
    readsLive := b.downstreamPump.live || b.upstreamPump.live;
    b.HandleUpstreamRead(ReadFailed);
    b.HandleDownstreamRead(ReadFailed);
    backendClosures := b.upstreamSocket.closures;
    toBackend := b.upstreamSocket.sent;
    anyOpen := b.downstreamSocket.isOpen || b.upstreamSocket.isOpen;
  }

  /** One accepted connection: routed by its probe, which the backend receives first. */
  method RouteOneConnection(ssh: Port, ssl: Port, probe: Probe)
    returns (port: Port, toBackend: seq<byte>, accepting: bool)
    ensures port == (if IsSsl(probe) then ssl else ssh)
    ensures toBackend == probe && accepting
  {
    var a := new Acceptor("0.0.0.0", 443, "127.0.0.1", ssh, ssl);
    var ok := a.AcceptConnections(Armed);
    var s := a.session;
    a.HandleAccept(false, Prefix(probe), ProbeDelivered, Armed);
    port := s.upstreamSocket.peer.endpoint.port;
    toBackend := s.upstreamSocket.sent;
    accepting := a.accepting;
  }

  /** As written: a client that fails the probe read stops the proxy accepting. */
  method ProbeReadFailureStopsAccepting(ssh: Port, ssl: Port)
    returns (accepting: bool, clientOpen: bool)
    ensures !accepting && clientOpen
  {
    var a := new Acceptor("0.0.0.0", 443, "127.0.0.1", ssh, ssl);
    var ok := a.AcceptConnections(Armed);
    var s := a.session;
    a.HandleAccept(false, PrefixReadFailed, ProbeDelivered, Armed);
    accepting, clientOpen := a.accepting, s.downstreamSocket.isOpen;
  }

  /** Corrected: the client is dropped and the next connection can still be accepted. */
  method ProbeReadFailureKeepsAccepting(ssh: Port, ssl: Port)
    returns (accepting: bool, clientOpen: bool)
    ensures accepting && !clientOpen
  {
    var a := new Acceptor("0.0.0.0", 443, "127.0.0.1", ssh, ssl);
    var ok := a.AcceptConnections(Armed);
    var s := a.session;
    a.HandleAcceptRearming(false, PrefixReadFailed, ProbeDelivered, Armed);
    accepting, clientOpen := a.accepting, s.downstreamSocket.isOpen;
  }
}
