/** The three messages the peers exchange (P2PDemo/Messaging.swift): immutable
    records whose initialisers only copy fields. */
module Messaging {
  import opened Types

  /** Foundation's `UUID`: a 128-bit identifier, one per running app. */
  newtype Uuid = x: int | 0 <= x < 0x1_0000_0000_0000_0000_0000_0000_0000_0000

  /** Broadcast over the GameKit match: where this peer can be reached. */
  datatype PeerInfo = PeerInfo(identifier: Uuid, addresses: seq<string>, port: UInt16)

  /** Sent over UDP to each candidate address of a peer. */
  datatype BeginHandshake = BeginHandshake(identifier: Uuid, address: string, port: UInt16)

  /** Sent back to the peer that sent a BeginHandshake. */
  datatype EndHandshake = EndHandshake(identifier: Uuid, peerIdentifier: Uuid, address: string, port: UInt16)

  /** `PeerInfo.init(_:addresses:port:)`: the addresses keep their order and count. */
  function NewPeerInfo(identifier: Uuid, addresses: seq<string>, port: UInt16): (p: PeerInfo)
    ensures p.identifier == identifier
    ensures |p.addresses| == |addresses|
    ensures forall i :: 0 <= i < |addresses| ==> p.addresses[i] == addresses[i]
    ensures p.port == port
  {
    PeerInfo(identifier, addresses, port)
  }

  /** `BeginHandshake.init(_:address:port:)`. */
  function NewBeginHandshake(identifier: Uuid, address: string, port: UInt16): (h: BeginHandshake)
    ensures h.identifier == identifier && h.address == address && h.port == port
  {
    BeginHandshake(identifier, address, port)
  }

  /** `EndHandshake.init(_:identifier:)`: the reply to `handshake` built by the
      peer whose own identifier is `identifier`. The sender's identifier and the
      address/port the Begin carried come back unchanged; the responder stamps
      its own identifier as `peerIdentifier`. */
  function NewEndHandshake(handshake: BeginHandshake, identifier: Uuid): (e: EndHandshake)
    ensures e.identifier == handshake.identifier
    ensures e.peerIdentifier == identifier
    ensures e.address == handshake.address && e.port == handshake.port
  {
    EndHandshake(handshake.identifier, identifier, handshake.address, handshake.port)
  }

  /** The Begin an End answers: the inverse of NewEndHandshake. */
  function AnsweredBegin(e: EndHandshake): (h: BeginHandshake)
    ensures NewEndHandshake(h, e.peerIdentifier) == e
  {
    BeginHandshake(e.identifier, e.address, e.port)
  }

  /** Building an End is deterministic and loses nothing: equal Ends come from
      equal (Begin, responder) pairs and vice versa. */
  lemma NewEndHandshakeInjective(h1: BeginHandshake, id1: Uuid, h2: BeginHandshake, id2: Uuid)
    ensures NewEndHandshake(h1, id1) == NewEndHandshake(h2, id2) <==> h1 == h2 && id1 == id2
  {
  }

  /** JSONEncoder/JSONDecoder for BeginHandshake, the one record decoded from
      UDP payloads. Foundation's coder is outside the model: the pair is a
      parameter, and all that is relied on is that decoding what was encoded
      gives the record back. */
  datatype BeginCodec = BeginCodec(encode: BeginHandshake -> seq<byte>, decode: seq<byte> -> Option<BeginHandshake>)
  {
    ghost predicate Valid()
    {
      forall h :: decode(encode(h)) == Some(h)
    }
  }
}
