# ssh_ssl_proxy in Dafny

A model of the connection engine of ssh_ssl_proxy, a TCP relay that shares one
listening port between SSH and SSL/TLS. The proxy reads the first six bytes of
every accepted connection. It classifies them as an SSL/TLS handshake or as
anything else (taken to be SSH). It dials the SSL or the SSH port of the
backend host, sends it those six bytes, and then relays both directions until
either side fails.

- `classifier.dfy`, module `Classifier`: `bridge::acceptor::isSSL` as a total
  function on a six-byte probe. `Detect` follows the C++ decision tree with the
  same bit operations and returns which of the source's log lines it prints.
  Its contract restates each outcome as a condition on the record header
  fields, read as integers. The two signatures are the SSLv2-compatible
  ClientHello header of appendix E.2 of RFC 5246 and the handshake record
  header (type 22, major version 3) of section 6.2.1 of RFC 5246.
- `bridge.dfy`, module `Bridges`: the `bridge` class. It owns two sockets and
  two distinct 8192-byte buffers (`array<byte>`). Each relay direction is a
  pump whose state is `Idle`, `Reading`, `Writing(n)` or `Stopped`; a reading
  or writing pump also records whether its socket was open when the operation
  was started. Every
  completion handler is a method that updates the pumps, the buffers and the
  sockets in place. A socket is abstract: an open flag, its peer, the bytes
  written to it, and how many times its descriptor was closed. `Bridge.Valid`
  keeps the ordering invariant. Upstream has been sent the probe followed by
  the client's chunks, in read order, minus the chunk still being written.
  The same holds downstream for the backend's chunks. Nothing reaches a
  backend that was never connected, and nothing is read after such a start.
- `acceptor.dfy`, module `Acceptors`: the nested `bridge::acceptor` class. It
  holds the SSH, SSL and current upstream ports, the upstream host, the
  bridge being accepted (`session`) and whether an accept is outstanding.
- `scenarios.dfy`, module `Scenarios`: clients that drive a bridge or an
  acceptor through whole connections using only the contracts above.

The outcome of every I/O step is a parameter of the method that receives it:
bytes or an error for a read, success or an error for a write, how connect
and probe send end for `start`, and whether the next accept could be set up.
Handlers carry the preconditions that asio gives them. The handler's operation
was outstanding, a read delivers at most the buffer's 8192 bytes, and an
operation started on a closed socket completes with an error.

The model follows the code as written. There is no timeout on the probe read.
The next accept is armed only after `start` returns. `handle_upstream_connect`
arms both reads even after a failed connect. A failed accept or a failed probe
read does not re-arm accepting. The probe-read case is listed under Findings;
its corrected member changes only that path, so a failed accept stops
accepting in both. A failed probe read does not close the client socket.

## Model

| member | source | states |
|---|---|---|
| Classifier.Detect | ssh_ssl_proxy/bridge.cpp:127-158 | SSLv2 hello exactly when the high bit is set, the 15-bit length exceeds 9 and byte 2 is 1; SSLv3 hello exactly when bytes are 0x16, 3, 0; TLS 1.x hello exactly when 0x16, 3 and a nonzero byte 2; otherwise not SSL |
| Classifier.IsSsl | ssh_ssl_proxy/bridge.cpp:127-158 | true exactly when the probe carries the SSLv2 ClientHello header or the SSLv3/TLS handshake record header, whatever byte 2 is in the latter |
| Classifier.RulesDisjoint | ssh_ssl_proxy/bridge.cpp:129-155 | no probe matches both signatures, so the first-match order of the two rules never changes the result |
| Classifier.DecidedByHeader | ssh_ssl_proxy/bridge.cpp:127-158 | two probes that agree on bytes 0..2 get the same classification; bytes 3..5 never matter |
| Classifier.PrintableFirstByteIsNotSsl | ssh_ssl_proxy/bridge.cpp:156-157 | a probe starting with printable ASCII, such as every "SSH-" banner, is routed to SSH |
| Classifier.Examples | ssh_ssl_proxy/bridge.cpp:129-157 | TLS 1.x, SSLv3 and SSLv2 (length 43) hellos are SSL; major version 2, SSLv2 length 5, SSLv2 message type 2 and "SSH-2." are not |
| Bridges.Bridge.constructor | ssh_ssl_proxy/bridge.h:78-80 | a new bridge owns two distinct, not yet open sockets and two distinct 8192-byte buffers, with both directions idle |
| Bridges.Bridge.Start | ssh_ssl_proxy/bridge.cpp:7-21 | after a successful connect the upstream socket is connected to host:port and has been sent exactly the six probe bytes, before any relay read; if parsing, connect or the probe write fails, both sockets are closed and nothing was sent; both reads are armed in every case, each on its socket as it is then, so after a failure neither can succeed; the recorded histories start as the delivered probe and no chunks |
| Bridges.Bridge.HandleUpstreamConnect | ssh_ssl_proxy/bridge.cpp:23-38 | arms one read on each socket, each recorded as started on an open or a closed socket, leaving the ordering invariant established |
| Bridges.Bridge.HandleDownstreamRead | ssh_ssl_proxy/bridge.cpp:55-68 | only a read started on the open client socket can deliver; a client read of n bytes puts exactly those bytes in the downstream buffer and starts writing them upstream, on the upstream socket as it is then; the chunk is appended to the client history and the other history and in-flight chunk are untouched; a read error shuts the bridge down and stops the direction |
| Bridges.Bridge.HandleUpstreamWrite | ssh_ssl_proxy/bridge.cpp:70-83 | only a write started on the open upstream socket can complete; a completed write appends exactly the chunk that was read to what upstream received, and only then is the next client read armed, on the client socket as it is then; on success the client socket and the backend's peer and closure count are unchanged; the histories never change; a write error shuts the bridge down |
| Bridges.Bridge.HandleUpstreamRead | ssh_ssl_proxy/bridge.cpp:85-98 | only a read started on the open backend socket can deliver; a backend read of n bytes puts exactly those bytes in the upstream buffer and starts writing them to the client, appending the chunk to the backend history; a read error shuts the bridge down |
| Bridges.Bridge.HandleDownstreamWrite | ssh_ssl_proxy/bridge.cpp:40-53 | only a write started on the open client socket can complete; a completed write appends exactly the backend chunk to what the client received, then re-arms the backend read on the backend socket as it is then; on success the backend socket and the client's peer and closure count are unchanged; a write error shuts the bridge down |
| Bridges.Bridge.Close | ssh_ssl_proxy/bridge.cpp:100-107 | both sockets end closed, each one that was open is closed once more, nothing else changes, and a second call changes nothing |
| Bridges.Bridge.InOrder | ssh_ssl_proxy/bridge.cpp:40-98 | upstream has received the probe then the client's chunks in read order, behind by exactly the chunk in flight; downstream likewise for the backend's chunks; after a failure each side has a prefix |
| Bridges.Bridge.NoRelayWithoutBackend | ssh_ssl_proxy/bridge.cpp:7-98 | while the backend socket was never connected, nothing has been sent either way, no probe was delivered and no chunk was read |
| Acceptors.Acceptor.constructor | ssh_ssl_proxy/bridge.h:120-131 | stores the given host, SSH and SSL ports unchanged, sets the current upstream port to 0, no session and no outstanding accept |
| Acceptors.Acceptor.AcceptConnections | ssh_ssl_proxy/bridge.cpp:109-125 | returns true exactly when a new bridge was put in session and an accept is outstanding for its client socket; if the bridge cannot be built the session is unchanged |
| Acceptors.Acceptor.HandleAccept | ssh_ssl_proxy/bridge.cpp:160-187 | after a successful probe read the upstream port is the SSL port when the probe is SSL and the SSH port otherwise, the bridge is started on it and sends the probe first, its histories hold that probe and no chunks, both relay reads can succeed exactly when the probe was delivered, then accepting is re-armed; after a failed accept or probe read nothing is started, no port is chosen and no accept remains outstanding |
| Acceptors.Acceptor.HandleAcceptRearming | ssh_ssl_proxy/bridge.cpp:160-187 | same as HandleAccept, except that a failed probe read closes the client socket and the next accept is armed in every successful-accept case; a failed accept still arms nothing; a delivered probe leaves both sockets open; a bridge that cannot be built leaves the session unchanged |
| Scenarios.RelayInOrder | ssh_ssl_proxy/bridge.cpp:55-83 | three client chunks after the probe arrive upstream as probe, chunk 1, chunk 2, chunk 3 |
| Scenarios.RelayBothWays | ssh_ssl_proxy/bridge.cpp:40-98 | with both directions interleaved, upstream receives probe + c1 + c2 and the client receives d1 + d2 |
| Scenarios.FailureOnBothDirections | ssh_ssl_proxy/bridge.cpp:70-107 | when both directions fail, each socket is closed exactly once, both end closed, and the unwritten chunk is dropped |
| Scenarios.ConnectRefused | ssh_ssl_proxy/bridge.cpp:7-38 | a refused connect arms both reads on closed sockets, sends nothing upstream, closes the backend socket once, and the later read failures close nothing again |
| Scenarios.FailureStopsTheOtherDirection | ssh_ssl_proxy/bridge.cpp:70-107 | after the backend read fails, the client chunk already being written still arrives, but the client read re-armed after it runs on a closed socket and cannot succeed |
| Scenarios.RouteOneConnection | ssh_ssl_proxy/bridge.cpp:160-181 | an accepted connection is dialled on the SSL port when its probe is SSL and on the SSH port otherwise, the backend receives the probe, and accepting is re-armed |
| Scenarios.ProbeReadFailureStopsAccepting | ssh_ssl_proxy/bridge.cpp:171-175 | as written, a failed probe read leaves no accept outstanding and the client socket open |
| Scenarios.ProbeReadFailureKeepsAccepting | ssh_ssl_proxy/bridge.cpp:160-187 | with the correction, a failed probe read closes the client socket and an accept is outstanding again |

## Left out

- Concurrency: the `boost::mutex` in `close()`, asio's scheduling and the `shared_from_this` lifetime of a bridge are not modelled. Each handler is one atomic step, and `Close` is one sequential operation.
- Closing a socket does not cancel the operations outstanding on it. An operation started while the socket was open may still complete after the close, as when its completion was already queued; asio's `operation_aborted` cancellation is therefore not forced.
- Logging to `std::cout`/`std::cerr` is not modelled. `Classifier.Detect` returns which classification message would be printed.
- Address parsing (`address::from_string`, `address_v4::from_string`) cannot be seen. A host that does not parse is the `AddressInvalid` outcome of `Start`.
- Binding the listening socket in the acceptor's constructor is not modelled. A bind failure is fatal at startup, and `localHost`/`localPort` are only stored.
- Bridges.Bridge.Start: a probe write that throws is modelled as sending nothing, although `boost::asio::write` may have sent part of the six bytes first.
- Bridges.Bridge.HandleUpstreamWrite: a write that completes with an error is modelled as delivering nothing, although asio may have written part of the chunk.
- Bridges.Bridge.HandleDownstreamWrite: the same partial-write simplification as HandleUpstreamWrite.
- Acceptors.Acceptor.AcceptConnections: requires that no accept is outstanding. The model tracks one outstanding accept, and both callers (start-up and `handle_accept`) run it only then.
- The `downstream_socket()` and `upstream_socket()` accessors are the `const` fields `downstreamSocket` and `upstreamSocket`. Reading them changes no state.
- Destroying a bridge when its last handler finishes is not modelled. Sockets are closed only by `Close`, or by the corrected acceptor after a failed probe read.
- ssh_ssl_proxy/ssh_ssl_proxy.cpp (daemonising, pid file, signal handling) and ssh_ssl_proxy/configuration.cpp (argument and INI parsing) are not part of this model.

## Findings

| source | as written | input that shows it | evidently intended | confidence | as-written member | corrected member |
|---|---|---|---|---|---|---|
| ssh_ssl_proxy/bridge.cpp:171-175 | when the blocking read of the six probe bytes throws, `handle_accept` returns before `accept_connections`, so no accept is outstanding any more and the client socket stays open in `session_`; `ios.run()` (ssh_ssl_proxy/ssh_ssl_proxy.cpp:155) keeps blocking on the pending SIGINT/SIGTERM wait (ssh_ssl_proxy/ssh_ssl_proxy.cpp:73-74), so the process stays up but never accepts another connection | a client that connects and closes or resets the connection before sending six bytes | log the error, drop that client, and keep accepting new connections | not executed; high | Acceptors.Acceptor.HandleAccept (shown by Scenarios.ProbeReadFailureStopsAccepting) | Acceptors.Acceptor.HandleAcceptRearming (shown by Scenarios.ProbeReadFailureKeepsAccepting) |
