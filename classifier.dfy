/**
 * The protocol sniffer of the proxy: the first six bytes a client sends decide
 * whether the connection is an SSL/TLS handshake (relayed to the SSL port) or
 * anything else, taken to be SSH (relayed to the SSH port).
 *
 * `Detect` follows the C++ decision tree branch by branch, with the same bit
 * operations; its contract restates each outcome in terms of the record header
 * fields, read as integers:
 *  - an SSLv2-compatible ClientHello (appendix E.2 of RFC 5246) starts with a
 *    two-byte record length whose high bit is set, followed by message type 1;
 *  - an SSLv3/TLS record (section 6.2.1 of RFC 5246) starts with ContentType
 *    handshake(22) and ProtocolVersion major 3.
 */
module Classifier {

  type byte = bv8

  /** Number of bytes read from a new connection before it is classified. */
  const PROBE_LENGTH := 6

  type Probe = s: seq<byte> | |s| == PROBE_LENGTH witness [0, 0, 0, 0, 0, 0]

  /** Which of the source's log lines the classification prints. */
  datatype Handshake = SslV2Hello | SslV3Hello | TlsHello | NotSsl

  /** The 15-bit SSLv2 record length, as an integer. */
  function Sslv2RecordLength(b: Probe): int
    requires b[0] as int >= 128
  {
    (b[0] as int - 128) * 256 + b[1] as int
  }

  /** Header of an SSLv2-compatible ClientHello longer than 9 bytes. */
  predicate Sslv2Header(b: Probe) {
    b[0] as int >= 128 && Sslv2RecordLength(b) > 9 && b[2] as int == 1
  }

  /** Header of an SSLv3/TLS handshake record: type 22, major version 3. */
  predicate TlsHandshakeHeader(b: Probe) {
    b[0] as int == 22 && b[1] as int == 3
  }

  /** The decision tree of the sniffer, first match wins. */
  function Detect(b: Probe): (h: Handshake)
    ensures h == SslV2Hello <==> Sslv2Header(b)
    ensures h == SslV3Hello <==> TlsHandshakeHeader(b) && b[2] as int == 0
    ensures h == TlsHello <==> TlsHandshakeHeader(b) && b[2] as int != 0
  {
    if b[0] & 0x80 != 0 then
      var length := ((b[0] & 0x7F) as bv16 << 8) + b[1] as bv16;
      if length > 9 && b[2] == 0x01 then SslV2Hello else NotSsl
    else if b[0] == 0x16 then
      if b[1] == 3 then
        if b[2] != 0 then TlsHello else SslV3Hello
      else NotSsl
    else NotSsl
  }

  /** True when the connection is to be relayed to the SSL port. */
  function IsSsl(b: Probe): (r: bool)
    ensures r <==> Sslv2Header(b) || TlsHandshakeHeader(b)
  {
    Detect(b) != NotSsl
  }

  /** The two signatures never overlap, so the order of the rules does not matter. */
  lemma RulesDisjoint(b: Probe)
    ensures !(Sslv2Header(b) && TlsHandshakeHeader(b))
  {
  }

  /** Only the first three bytes take part in the decision. */
  lemma DecidedByHeader(p: Probe, q: Probe)
    requires p[..3] == q[..3]
    ensures Detect(p) == Detect(q)
    ensures IsSsl(p) == IsSsl(q)
  {
  }

  /**
   * A first byte that is printable ASCII never looks like SSL/TLS, so every SSH
   * identification string ("SSH-2.0-...", section 4.2 of RFC 4253) goes to SSH.
   */
  lemma PrintableFirstByteIsNotSsl(b: Probe)
    requires 0x20 <= b[0] < 0x7F
    ensures Detect(b) == NotSsl && !IsSsl(b)
  {
  }

  /** Sample probes and their classification. */
  lemma Examples()
    ensures Detect([0x16, 0x03, 0x01, 0x02, 0x00, 0x01]) == TlsHello
    ensures Detect([0x16, 0x03, 0x00, 0x00, 0x2F, 0x01]) == SslV3Hello
    ensures Detect([0x80, 0x2B, 0x01, 0x00, 0x02, 0x00]) == SslV2Hello
    ensures Detect([0x16, 0x02, 0x01, 0x00, 0x00, 0x00]) == NotSsl
    ensures Detect([0x80, 0x05, 0x01, 0x00, 0x00, 0x00]) == NotSsl
    ensures Detect([0x80, 0x2B, 0x02, 0x00, 0x00, 0x00]) == NotSsl
    ensures Detect([0x53, 0x53, 0x48, 0x2D, 0x32, 0x2E]) == NotSsl
  {
  }
}
