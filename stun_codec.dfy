/** The byte formats of the simplified STUN exchange in
    P2PDemo/SimpleStun.swift: the 20-byte Binding Request of section 6 of
    RFC 5389 and the Binding Success Response whose first attribute is
    XOR-MAPPED-ADDRESS (section 15.2 of RFC 5389). */
module StunCodec {
  import opened Types
  import opened Dotted

  const BindingRequest: UInt16 := 0x0001
  const BindingSuccessResponse: UInt16 := 0x0101
  const XorMappedAddress: UInt16 := 0x0020
  /** The magic cookie 0x2112A442, byte by byte. */
  const MagicCookie: seq<byte> := [0x21, 0x12, 0xA4, 0x42]
  /** The most significant 16 bits of the magic cookie, XORed into the port. */
  const CookieHigh: UInt16 := 0x2112
  const HeaderLength: nat := 20
  const TransactionIdLength: nat := 12
  /** Offset of the XOR-mapped address: header, then attribute type, length, family, port. */
  const AddressOffset: nat := 20 + 2 + 2 + 2 + 2

  /** The big-endian 16-bit value at byte offset `i`: `CFSwapInt16(uint16Buffer[i / 2])`
      on the little-endian hosts the app runs on. */
  function BigEndian16(data: seq<byte>, i: nat): UInt16
    requires i + 1 < |data|
  {
    ((data[i] as UInt16) << 8) | (data[i + 1] as UInt16)
  }

  function HighByte(v: UInt16): byte
  {
    (v >> 8) as byte
  }

  function LowByte(v: UInt16): byte
  {
    (v & 0xFF) as byte
  }

  lemma BigEndian16OfBytes(v: UInt16, data: seq<byte>, i: nat)
    requires i + 1 < |data| && data[i] == HighByte(v) && data[i + 1] == LowByte(v)
    ensures BigEndian16(data, i) == v
  {
  }

  // ---------------------------------------------------------------------------
  // Binding Request

  /** Bytes 0..7 of every request: type 0x0001, length 0, the magic cookie. */
  const RequestPrefix: seq<byte> := [0x00, 0x01, 0x00, 0x00, 0x21, 0x12, 0xA4, 0x42]

  /** The request `createRequest` assembles around a transaction id. */
  function Request(transactionId: seq<byte>): seq<byte>
  {
    RequestPrefix + transactionId
  }

  /** Reads a Binding Request with an empty body: its transaction id. */
  function ParseRequest(data: seq<byte>): Option<seq<byte>>
  {
    if |data| == HeaderLength && BigEndian16(data, 0) == BindingRequest && BigEndian16(data, 2) == 0
       && data[4..8] == MagicCookie
    then Some(data[8..])
    else None
  }

  /** A request is a well-formed 20-byte Binding Request carrying its
      transaction id, and nothing else. */
  lemma ParseRequestOfRequest(transactionId: seq<byte>)
    requires |transactionId| == TransactionIdLength
    ensures |Request(transactionId)| == HeaderLength
    ensures Request(transactionId)[..8] == RequestPrefix
    ensures ParseRequest(Request(transactionId)) == Some(transactionId)
  {
  }

  // ---------------------------------------------------------------------------
  // Binding Success Response

  /** What `receivedStunResponse` does with a datagram. */
  datatype Decoded =
    | Dropped                                                 // the length guard returned: no callback
    | Reported(address: Option<string>, port: Option<UInt16>) // the results callback is invoked with these
    | OverRead                                                // a byte past the end of the datagram is read

  /** True when the type code is Binding Success and the first attribute is XOR-MAPPED-ADDRESS. */
  predicate HasExpectedCodes(data: seq<byte>)
    requires |data| >= 22
  {
    BigEndian16(data, 0) == BindingSuccessResponse && BigEndian16(data, 20) == XorMappedAddress
  }

  /** The port: big-endian bytes 26..27 XOR the cookie's high half. */
  function MappedPort(data: seq<byte>): UInt16
    requires |data| >= AddressOffset
  {
    BigEndian16(data, 26) ^ CookieHigh
  }

  /** The address: bytes 28..31, each XOR its cookie byte. */
  function MappedIPv4(data: seq<byte>): IPv4
    requires |data| >= AddressOffset + 4
  {
    IPv4(data[28] ^ 0x21, data[29] ^ 0x12, data[30] ^ 0xA4, data[31] ^ 0x42)
  }

  /** `receivedStunResponse` exactly as written: the guard admits any datagram
      longer than 20 bytes, both codes are read before either is checked (the
      attribute type at bytes 20..21), and the port and address are read at
      bytes 26..31 without a further length check. */
  function DecodeAsWritten(data: seq<byte>): (r: Decoded)
    ensures r.Reported? ==> (r.address.Some? <==> r.port.Some?)
  {
    if |data| <= HeaderLength then Dropped
    else if |data| < 22 then OverRead
    else if !HasExpectedCodes(data) then Reported(None, None)
    else if |data| < AddressOffset + 4 then OverRead
    else Reported(Some(Format(MappedIPv4(data))), Some(MappedPort(data)))
  }

  /** The decoder with the length guard the reads need (32 bytes). The
      transaction id, the magic cookie, the attribute length and the address
      family are never examined. */
  function DecodeResponse(data: seq<byte>): (r: Decoded)
    ensures !r.OverRead?
    ensures r.Reported? ==> (r.address.Some? <==> r.port.Some?)
    ensures r.Reported? && r.address.Some? <==> |data| >= AddressOffset + 4 && HasExpectedCodes(data)
  {
    if |data| < AddressOffset + 4 then Dropped
    else if !HasExpectedCodes(data) then Reported(None, None)
    else Reported(Some(Format(MappedIPv4(data))), Some(MappedPort(data)))
  }

  /** A datagram of 20 bytes or fewer never reaches the results callback. */
  lemma ShortResponseDropped(data: seq<byte>)
    requires |data| <= HeaderLength
    ensures DecodeAsWritten(data) == Dropped && DecodeResponse(data) == Dropped
  {
  }

  /** A wrong type code or a wrong first attribute still invokes the callback,
      with neither address nor port. */
  lemma WrongCodeReportsNothing(data: seq<byte>)
    requires |data| >= 22 && !HasExpectedCodes(data)
    ensures DecodeAsWritten(data) == Reported(None, None)
    ensures |data| >= AddressOffset + 4 ==> DecodeResponse(data) == Reported(None, None)
  {
  }

  /** On every datagram the guard and the reads agree on, the corrected decoder
      does what the code does. */
  lemma DecodeResponseAgrees(data: seq<byte>)
    requires |data| <= HeaderLength || |data| >= AddressOffset + 4
    ensures DecodeResponse(data) == DecodeAsWritten(data)
  {
  }

  /** Exactly when the code as written reads past the end of the datagram. */
  lemma AsWrittenOverReads(data: seq<byte>)
    ensures DecodeAsWritten(data) == OverRead
        <==> |data| == 21 || (22 <= |data| < AddressOffset + 4 && HasExpectedCodes(data))
  {
  }

  /** A 21-byte datagram passes the guard and the attribute type is read from
      bytes 20..21, one byte past its end. */
  lemma GuardAdmitsOverRead()
    ensures DecodeAsWritten(seq(21, _ => 0)) == OverRead
    ensures DecodeResponse(seq(21, _ => 0)) == Dropped
  {
  }

  /** The response a STUN server sends for `transactionId` when it saw the
      request come from `ip`:`port` (RFC 5389 section 15.2, IPv4 family). */
  function EncodeResponse(transactionId: seq<byte>, ip: IPv4, port: UInt16): (r: seq<byte>)
    requires |transactionId| == TransactionIdLength
    ensures |r| == AddressOffset + 4
  {
    var xport := port ^ CookieHigh;
    [0x01, 0x01, 0x00, 0x0C] + MagicCookie + transactionId
    + [0x00, 0x20, 0x00, 0x08, 0x00, 0x01, HighByte(xport), LowByte(xport)]
    + [ip.a ^ 0x21, ip.b ^ 0x12, ip.c ^ 0xA4, ip.d ^ 0x42]
  }

  /** Where `EncodeResponse` puts each field the decoder reads. */
  lemma EncodeResponseLayout(transactionId: seq<byte>, ip: IPv4, port: UInt16)
    requires |transactionId| == TransactionIdLength
    ensures var r := EncodeResponse(transactionId, ip, port);
      && r[0] == 0x01 && r[1] == 0x01 && r[20] == 0x00 && r[21] == 0x20
      && r[26] == HighByte(port ^ CookieHigh) && r[27] == LowByte(port ^ CookieHigh)
      && r[28] == ip.a ^ 0x21 && r[29] == ip.b ^ 0x12 && r[30] == ip.c ^ 0xA4 && r[31] == ip.d ^ 0x42
  {
  }

  /** The XOR round trip: decoding an encoded response recovers the port, and
      an address text that parses back to the same IPv4 address. */
  lemma {:induction false} DecodeEncode(transactionId: seq<byte>, ip: IPv4, port: UInt16)
    requires |transactionId| == TransactionIdLength
    ensures DecodeResponse(EncodeResponse(transactionId, ip, port)) == Reported(Some(Format(ip)), Some(port))
    ensures Parse(Format(ip)) == Some(ip)
  {
    var r := EncodeResponse(transactionId, ip, port);
    EncodeResponseLayout(transactionId, ip, port);
    assert HasExpectedCodes(r);
    BigEndian16OfBytes(port ^ CookieHigh, r, 26);
    assert MappedPort(r) == port;
    assert MappedIPv4(r) == ip;
    ParseFormat(ip);
  }

  /** Two datagrams that agree on the bytes the decoder looks at decode alike:
      a response to some other transaction, or one of another address family,
      is accepted just the same. */
  lemma DecodeIgnoresUncheckedBytes(d1: seq<byte>, d2: seq<byte>)
    requires |d1| == |d2|
    requires forall i :: i in {0, 1, 20, 21, 26, 27, 28, 29, 30, 31} && i < |d1| ==> d1[i] == d2[i]
    ensures DecodeResponse(d1) == DecodeResponse(d2)
  {
  }
}
