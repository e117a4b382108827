/** Two peers running the handshake of `ViewController` against each other,
    end to end: each learns the other's PeerInfo over the match, A's first
    probe reaches B's socket, B answers it over the match, and the End that
    arrives at A stops A's probing for good. */
module Scenario {
  import opened Types
  import opened Messaging
  import opened StunClient
  import opened Handshake

  /** The handshake between peers `a` and `b`, which share one wire format for
      BeginHandshake. `infoA` and `infoB` are what each broadcast after
      matchmaking; `host` is whatever source address B's socket reports for
      the probe. */
  method HolePunch(a: ViewController, b: ViewController, infoA: PeerInfo, infoB: PeerInfo,
                  playerA: Player, playerB: Player, host: string)
    requires a != b && a.stunClient != b.stunClient
    requires a.Valid() && b.Valid() && a.stunClient.codec == b.stunClient.codec
    requires a.waitingOnEndHandshake && b.gameMatch.Some?
    requires infoA.identifier == a.identifier && |infoB.addresses| >= 1
    modifies a, a.stunClient, b, b.stunClient
    ensures a.Valid() && b.Valid()
    ensures !a.waitingOnEndHandshake
    ensures b.peers == old(b.peers)[a.identifier := playerA] && a.peers == old(a.peers)[infoB.identifier := playerB]
    ensures |b.matchSends| >= 1
    ensures b.matchSends[|b.matchSends| - 1]
         == ToPlayer(playerA, EndHandshake(a.identifier, b.identifier, infoB.addresses[0], infoB.port))
    ensures a.stunClient.sent == old(a.stunClient.sent) + ProbeRound(a.stunClient.codec, a.identifier, infoB, old(a.stunClient.tag) + 1)
    ensures a.retries == old(a.retries)
  {
    // A learns B: the first round of probes goes out, one per candidate address.
    a.DidReceivePeerInfo(infoB, playerB);
    ghost var round := ProbeRound(a.stunClient.codec, a.identifier, infoB, old(a.stunClient.tag) + 1);
    ProbeRoundContents(a.stunClient.codec, a.identifier, infoB, old(a.stunClient.tag) + 1);
    ghost var probe := a.stunClient.sent[|old(a.stunClient.sent)|];
    assert probe == round[0];

    // B learns A.
    b.DidReceivePeerInfo(infoA, playerA);

    // The probe reaches B's socket and is answered over the match.
    var begin := NewBeginHandshake(a.identifier, infoB.addresses[0], infoB.port);
    var data := a.stunClient.codec.encode(begin);
    assert probe.data == data;
    b.stunClient.DispatchBegin(begin, host);
    b.DidReceiveDatagram(data, Some(host));
    var reply := NewEndHandshake(begin, b.identifier);

    // The answer reaches A, which stops probing: when the timer armed by the
    // first round fires, nothing more is sent and no timer is re-armed.
    a.DidReceiveEnd(reply, playerB);
    a.Tick(|a.retries| - 1);
  }
}
