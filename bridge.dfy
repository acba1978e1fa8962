/**
 * One proxied connection: the accepted client socket (downstream), the socket
 * to the chosen backend (upstream), and the two relay directions between them.
 *
 * Sockets are abstract: an open flag, the peer they are connected to, the bytes
 * written to them so far (what their peer has received), and how many times
 * their descriptor was closed. The outcome of every I/O operation is a
 * parameter of the completion handler that receives it.
 *
 * Each direction is a pump that alternates read -> write those bytes -> read.
 * `Bridge.Valid` carries the ordering theorem: what a socket has been sent,
 * followed by the chunk still being written, is exactly what was read from the
 * opposite socket (the probe first, upstream), chunk after chunk, in order.
 * It also keeps that nothing is ever written to a backend that was never
 * connected: only a write started on the open upstream socket can succeed, and
 * the upstream socket is open only once connected.
 */
module Bridges {
  import opened Classifier

  /** Capacity of each direction's buffer. */
  const MAX_DATA_LENGTH := 8192

  type Port = p: int | 0 <= p < 0x1_0000

  datatype Endpoint = Endpoint(host: string, port: Port)

  datatype Peer = Unconnected | Connected(endpoint: Endpoint)

  /** Completion of an asynchronous read: the bytes placed in the buffer, or an error. */
  datatype ReadResult = Received(data: seq<byte>) | ReadFailed

  /** How the connect-and-send-probe step of `start` ends. */
  datatype StartOutcome =
    | AddressInvalid    // parsing the host throws before the socket is opened
    | ConnectFailed     // connect opens the socket, then fails and leaves it open
    | ProbeWriteFailed  // connected, but writing the probe throws
    | ProbeDelivered

  /**
   * The operation outstanding on one relay direction. `live` records whether
   * the socket the operation runs on was open when it was started: asio fails
   * an operation started on a closed socket, while one started on an open
   * socket may still complete after a concurrent close.
   */
  datatype Pump = Idle | Reading(live: bool) | Writing(length: nat, live: bool) | Stopped

  /** A direction that can never again complete a read or a write. */
  predicate Inert(pump: Pump) {
    pump == Reading(false) || pump == Stopped
  }

  /** The bytes of a sequence of chunks, in order. */
  function Concat(chunks: seq<seq<byte>>): seq<byte> {
    if chunks == [] then [] else chunks[0] + Concat(chunks[1..])
  }

  lemma {:induction false} ConcatAppend(chunks: seq<seq<byte>>, c: seq<byte>)
    ensures Concat(chunks + [c]) == Concat(chunks) + c
  {
    if chunks == [] {
      assert [] + [c] == [c];
      assert Concat([c]) == c + Concat([]);
    } else {
      assert (chunks + [c])[1..] == chunks[1..] + [c];
      ConcatAppend(chunks[1..], c);
    }
  }

  /** The chunk a pump has read and not yet written. */
  function InFlight(pump: Pump, buffer: array<byte>): seq<byte>
    reads buffer
  {
    if pump.Writing? && pump.length <= buffer.Length then buffer[..pump.length] else []
  }

  /**
   * Relation between what a direction has written to its destination (`out`)
   * and what it has read from its source (`input`). A stopped direction may
   * have dropped the chunk whose write failed, so it keeps only a prefix.
   */
  ghost predicate Forwards(pump: Pump, buffer: array<byte>, out: seq<byte>, input: seq<byte>)
    reads buffer
  {
    match pump
    case Idle => out == input
    case Reading(_) => out == input
    case Writing(n, _) => n <= buffer.Length && out + buffer[..n] == input
    case Stopped => out <= input
  }

  class Socket {
    var isOpen: bool
    var peer: Peer
    /** Bytes written to this socket, in order: what its peer has received. */
    var sent: seq<byte>
    /** Number of times the descriptor was closed. */
    var closures: nat

    constructor ()
      ensures !isOpen && peer == Unconnected && sent == [] && closures == 0
    {
      isOpen, peer, sent, closures := false, Unconnected, [], 0;
    }

    /** The socket gets a descriptor: by an accept, or implicitly by a connect. */
    method Open()
      modifies this
      ensures isOpen && peer == old(peer) && sent == old(sent) && closures == old(closures)
    {
      isOpen := true;
    }

    method Connect(to: Endpoint)
      modifies this
      ensures isOpen && peer == Connected(to) && sent == old(sent) && closures == old(closures)
    {
      isOpen, peer := true, Connected(to);
    }

    /** A write that completed: all of `data` reached the peer. */
    method Write(data: seq<byte>)
      modifies this
      ensures sent == old(sent) + data
      ensures isOpen == old(isOpen) && peer == old(peer) && closures == old(closures)
    {
      sent := sent + data;
    }

    method Close()
      modifies this
      ensures !isOpen && closures == old(closures) + 1
      ensures peer == old(peer) && sent == old(sent)
    {
      isOpen, closures := false, closures + 1;
    }
  }

  ghost predicate ClosedAtMostOnce(s: Socket)
    reads s
  {
    s.closures <= 1 && (s.isOpen ==> s.closures == 0)
  }

  class Bridge {
    const downstreamSocket: Socket
    const upstreamSocket: Socket
    /** Buffer of the downstream -> upstream direction. */
    const downstreamData: array<byte>
    /** Buffer of the upstream -> downstream direction. */
    const upstreamData: array<byte>

    /** Reads `downstreamSocket` into `downstreamData` and writes to `upstreamSocket`. */
    var downstreamPump: Pump
    /** Reads `upstreamSocket` into `upstreamData` and writes to `downstreamSocket`. */
    var upstreamPump: Pump

    /** The probe bytes as far as they reached the upstream peer. */
    ghost var probeSent: seq<byte>
    /** Chunks read from each socket by the relay, in order. */
    ghost var fromDownstream: seq<seq<byte>>
    ghost var fromUpstream: seq<seq<byte>>

    ghost var Repr: set<object>

    /** Two distinct sockets and two distinct buffers of the fixed capacity. */
    ghost predicate Owns()
      reads this
    {
      Repr == {this, downstreamSocket, upstreamSocket, downstreamData, upstreamData} &&
      downstreamSocket != upstreamSocket && downstreamData != upstreamData &&
      downstreamData.Length == MAX_DATA_LENGTH && upstreamData.Length == MAX_DATA_LENGTH
    }

    /** State before `start`: nothing sent or read, no upstream connection. */
    ghost predicate Pristine()
      reads this, Repr
      requires Owns()
    {
      probeSent == [] && fromDownstream == [] && fromUpstream == [] &&
      downstreamSocket.sent == [] && upstreamSocket.sent == [] &&
      !upstreamSocket.isOpen && upstreamSocket.peer == Unconnected && upstreamSocket.closures == 0
    }

    /** The upstream socket is open only once connected, and sent nothing before. */
    ghost predicate Reaches()
      reads this, upstreamSocket
    {
      (upstreamSocket.isOpen ==> upstreamSocket.peer.Connected?) &&
      (upstreamSocket.peer == Unconnected ==> upstreamSocket.sent == [])
    }

    ghost predicate Valid()
      reads this, Repr
    {
      Owns() &&
      ClosedAtMostOnce(downstreamSocket) && ClosedAtMostOnce(upstreamSocket) &&
      (downstreamPump == Idle <==> upstreamPump == Idle) &&
      (downstreamPump == Idle ==> Pristine()) &&
      Reaches() &&
      (downstreamPump.Writing? && downstreamPump.live ==> upstreamSocket.peer.Connected?) &&
      (upstreamSocket.peer == Unconnected && downstreamPump != Idle ==>
        !downstreamSocket.isOpen && Inert(downstreamPump) && Inert(upstreamPump)) &&
      (upstreamSocket.peer == Unconnected ==> probeSent == [] && fromDownstream == [] && fromUpstream == []) &&
      Forwards(downstreamPump, downstreamData, upstreamSocket.sent, probeSent + Concat(fromDownstream)) &&
      Forwards(upstreamPump, upstreamData, downstreamSocket.sent, Concat(fromUpstream))
    }

    /**
     * The ordering theorem. Upstream has received the probe and then the
     * client's chunks, in the order they were read; downstream has received
     * the backend's chunks in order. A running direction is behind by exactly
     * the chunk it is writing; a stopped one has sent a prefix of its input.
     */
    lemma InOrder()
      requires Valid()
      ensures upstreamSocket.sent <= probeSent + Concat(fromDownstream)
      ensures downstreamSocket.sent <= Concat(fromUpstream)
      ensures downstreamPump != Stopped ==>
        upstreamSocket.sent + InFlight(downstreamPump, downstreamData) == probeSent + Concat(fromDownstream)
      ensures upstreamPump != Stopped ==>
        downstreamSocket.sent + InFlight(upstreamPump, upstreamData) == Concat(fromUpstream)
    {
    }

    /** Bytes reach the backend only over a connection that was established. */
    lemma NoRelayWithoutBackend()
      requires Valid()
      ensures upstreamSocket.peer == Unconnected ==>
        upstreamSocket.sent == [] && downstreamSocket.sent == [] &&
        probeSent == [] && fromDownstream == [] && fromUpstream == []
    {
    }

    ghost predicate Closed()
      reads this, downstreamSocket, upstreamSocket
    {
      !downstreamSocket.isOpen && !upstreamSocket.isOpen
    }

    /**
     * The effect of `Close` since the previous state: both sockets closed, each
     * descriptor that was still open closed once more, nothing else changed.
     */
    twostate predicate ShutDown()
      reads this, downstreamSocket, upstreamSocket
    {
      Closed() &&
      downstreamSocket.closures == old(downstreamSocket.closures) + (if old(downstreamSocket.isOpen) then 1 else 0) &&
      upstreamSocket.closures == old(upstreamSocket.closures) + (if old(upstreamSocket.isOpen) then 1 else 0) &&
      downstreamSocket.sent == old(downstreamSocket.sent) && downstreamSocket.peer == old(downstreamSocket.peer) &&
      upstreamSocket.sent == old(upstreamSocket.sent) && upstreamSocket.peer == old(upstreamSocket.peer)
    }

    constructor ()
      ensures Valid() && fresh(Repr)
      ensures downstreamPump == Idle && upstreamPump == Idle
      ensures !downstreamSocket.isOpen && downstreamSocket.peer == Unconnected && downstreamSocket.closures == 0
    {
      downstreamSocket := new Socket();
      upstreamSocket := new Socket();
      downstreamData := new byte[MAX_DATA_LENGTH];
      upstreamData := new byte[MAX_DATA_LENGTH];
      downstreamPump, upstreamPump := Idle, Idle;
      probeSent, fromDownstream, fromUpstream := [], [], [];
      new;
      Repr := {this, downstreamSocket, upstreamSocket, downstreamData, upstreamData};
    }

    /** Connects upstream, sends it the probe, then arms one read per direction. */
    method Start(host: string, port: Port, buffer: Probe, outcome: StartOutcome)
      requires Valid() && downstreamPump == Idle
      modifies this, downstreamSocket, upstreamSocket
      ensures Valid()
      ensures downstreamPump == Reading(downstreamSocket.isOpen) && upstreamPump == Reading(upstreamSocket.isOpen)
      ensures downstreamSocket.sent == []
      ensures probeSent == (if outcome == ProbeDelivered then buffer else [])
      ensures fromDownstream == [] && fromUpstream == []
      ensures outcome == ProbeDelivered ==>
        upstreamSocket.sent == buffer && upstreamSocket.isOpen &&
        upstreamSocket.peer == Connected(Endpoint(host, port)) &&
        downstreamSocket.isOpen == old(downstreamSocket.isOpen)
      ensures outcome != ProbeDelivered ==> upstreamSocket.sent == [] && Closed()
      ensures upstreamSocket.closures == (if outcome == ConnectFailed || outcome == ProbeWriteFailed then 1 else 0)
      ensures downstreamSocket.closures ==
        old(downstreamSocket.closures) + (if outcome != ProbeDelivered && old(downstreamSocket.isOpen) then 1 else 0)
      ensures outcome == ProbeWriteFailed ==> upstreamSocket.peer == Connected(Endpoint(host, port))
      ensures outcome != ProbeDelivered && outcome != ProbeWriteFailed ==> upstreamSocket.peer == Unconnected
    {
      match outcome {
        case AddressInvalid =>
          Close();
        case ConnectFailed =>
          upstreamSocket.Open();
          Close();
        case ProbeWriteFailed =>
          upstreamSocket.Connect(Endpoint(host, port));
          Close();
        case ProbeDelivered =>
          upstreamSocket.Connect(Endpoint(host, port));
          upstreamSocket.Write(buffer);
          probeSent := buffer;
      }
      HandleUpstreamConnect();
    }

    /** What `start` leaves for the relay: the probe sent (or not), nothing else. */
    ghost predicate ReadyToRelay()
      reads this, Repr
    {
      Owns() &&
      ClosedAtMostOnce(downstreamSocket) && ClosedAtMostOnce(upstreamSocket) && Reaches() &&
      (upstreamSocket.peer == Unconnected ==> !downstreamSocket.isOpen && !upstreamSocket.isOpen) &&
      downstreamPump == Idle && upstreamPump == Idle &&
      fromDownstream == [] && fromUpstream == [] &&
      upstreamSocket.sent == probeSent && downstreamSocket.sent == []
    }

    /** Arms the first read on each socket, whether or not the connect succeeded. */
    method HandleUpstreamConnect()
      requires ReadyToRelay()
      modifies this`downstreamPump, this`upstreamPump
      ensures Valid()
      ensures downstreamPump == Reading(downstreamSocket.isOpen) && upstreamPump == Reading(upstreamSocket.isOpen)
    {
      upstreamPump := Reading(upstreamSocket.isOpen);
      downstreamPump := Reading(downstreamSocket.isOpen);
    }

    /** A read on the client socket completed. */
    method HandleDownstreamRead(result: ReadResult)
      requires Valid() && downstreamPump.Reading?
      requires result.Received? ==> downstreamPump.live && |result.data| <= MAX_DATA_LENGTH
      modifies this`downstreamPump, this`fromDownstream, downstreamData, downstreamSocket, upstreamSocket
      ensures Valid()
      ensures upstreamPump == old(upstreamPump) && upstreamSocket.sent == old(upstreamSocket.sent)
      ensures downstreamSocket.sent == old(downstreamSocket.sent)
      ensures InFlight(upstreamPump, upstreamData) == old(InFlight(upstreamPump, upstreamData))
      ensures fromDownstream == old(fromDownstream) + (if result.Received? then [result.data] else [])
      ensures fromUpstream == old(fromUpstream) && probeSent == old(probeSent)
      ensures result.Received? ==>
        downstreamPump == Writing(|result.data|, upstreamSocket.isOpen) &&
        InFlight(downstreamPump, downstreamData) == result.data &&
        unchanged(downstreamSocket, upstreamSocket)
      ensures result.ReadFailed? ==> downstreamPump == Stopped && ShutDown()
    {
      match result {
        case Received(data) =>
          forall i | 0 <= i < |data| {
            downstreamData[i] := data[i];
          }
          assert downstreamData[..|data|] == data;
          ConcatAppend(fromDownstream, data);
          fromDownstream := fromDownstream + [data];
          downstreamPump := Writing(|data|, upstreamSocket.isOpen);
        case ReadFailed =>
          Close();
          downstreamPump := Stopped;
      }
    }

    /** The write of a client chunk to the upstream socket completed. */
    method HandleUpstreamWrite(error: bool)
      requires Valid() && downstreamPump.Writing?
      requires !error ==> downstreamPump.live
      modifies this`downstreamPump, downstreamSocket, upstreamSocket
      ensures Valid()
      ensures upstreamPump == old(upstreamPump) && downstreamSocket.sent == old(downstreamSocket.sent)
      ensures probeSent == old(probeSent) && fromDownstream == old(fromDownstream) && fromUpstream == old(fromUpstream)
      ensures !error ==>
        upstreamSocket.sent == old(upstreamSocket.sent + InFlight(downstreamPump, downstreamData)) &&
        downstreamPump == Reading(downstreamSocket.isOpen) &&
        unchanged(downstreamSocket) &&
        upstreamSocket.isOpen == old(upstreamSocket.isOpen) &&
        upstreamSocket.peer == old(upstreamSocket.peer) &&
        upstreamSocket.closures == old(upstreamSocket.closures)
      ensures error ==> downstreamPump == Stopped && ShutDown()
    {
      if !error {
        upstreamSocket.Write(downstreamData[..downstreamPump.length]);
        downstreamPump := Reading(downstreamSocket.isOpen);
      } else {
        Close();
        downstreamPump := Stopped;
      }
    }

    /** A read on the upstream socket completed. */
    method HandleUpstreamRead(result: ReadResult)
      requires Valid() && upstreamPump.Reading?
      requires result.Received? ==> upstreamPump.live && |result.data| <= MAX_DATA_LENGTH
      modifies this`upstreamPump, this`fromUpstream, upstreamData, downstreamSocket, upstreamSocket
      ensures Valid()
      ensures downstreamPump == old(downstreamPump) && downstreamSocket.sent == old(downstreamSocket.sent)
      ensures upstreamSocket.sent == old(upstreamSocket.sent)
      ensures InFlight(downstreamPump, downstreamData) == old(InFlight(downstreamPump, downstreamData))
      ensures fromUpstream == old(fromUpstream) + (if result.Received? then [result.data] else [])
      ensures fromDownstream == old(fromDownstream) && probeSent == old(probeSent)
      ensures result.Received? ==>
        upstreamPump == Writing(|result.data|, downstreamSocket.isOpen) &&
        InFlight(upstreamPump, upstreamData) == result.data &&
        unchanged(downstreamSocket, upstreamSocket)
      ensures result.ReadFailed? ==> upstreamPump == Stopped && ShutDown()
    {
      match result {
        case Received(data) =>
          forall i | 0 <= i < |data| {
            upstreamData[i] := data[i];
          }
          assert upstreamData[..|data|] == data;
          ConcatAppend(fromUpstream, data);
          fromUpstream := fromUpstream + [data];
          upstreamPump := Writing(|data|, downstreamSocket.isOpen);
        case ReadFailed =>
          Close();
          upstreamPump := Stopped;
      }
    }

    /** The write of a backend chunk to the client socket completed. */
    method HandleDownstreamWrite(error: bool)
      requires Valid() && upstreamPump.Writing?
      requires !error ==> upstreamPump.live
      modifies this`upstreamPump, downstreamSocket, upstreamSocket
      ensures Valid()
      ensures downstreamPump == old(downstreamPump) && upstreamSocket.sent == old(upstreamSocket.sent)
      ensures probeSent == old(probeSent) && fromDownstream == old(fromDownstream) && fromUpstream == old(fromUpstream)
      ensures !error ==>
        downstreamSocket.sent == old(downstreamSocket.sent + InFlight(upstreamPump, upstreamData)) &&
        upstreamPump == Reading(upstreamSocket.isOpen) &&
        unchanged(upstreamSocket) &&
        downstreamSocket.isOpen == old(downstreamSocket.isOpen) &&
        downstreamSocket.peer == old(downstreamSocket.peer) &&
        downstreamSocket.closures == old(downstreamSocket.closures)
      ensures error ==> upstreamPump == Stopped && ShutDown()
    {
      if !error {
        downstreamSocket.Write(upstreamData[..upstreamPump.length]);
        upstreamPump := Reading(upstreamSocket.isOpen);
      } else {
        Close();
        upstreamPump := Stopped;
      }
    }

    /** Closes each socket that is still open; a second call changes nothing. */
    method Close()
      requires downstreamSocket != upstreamSocket
      modifies downstreamSocket, upstreamSocket
      ensures ShutDown()
      ensures old(Closed()) ==> unchanged(downstreamSocket, upstreamSocket)
    {
      if downstreamSocket.isOpen {
        downstreamSocket.Close();
      }
      if upstreamSocket.isOpen {
        upstreamSocket.Close();
      }
    }
  }
}
