/** The hole-punch handshake driven by `ViewController`
    (P2PDemo/ViewController.swift): learn the public address from STUN,
    broadcast it over the GameKit match, probe every candidate address of a
    peer with BeginHandshake datagrams every two seconds until an
    EndHandshake arrives, and answer every BeginHandshake from a known peer. */
module Handshake {
  import opened Types
  import opened Messaging
  import opened StunClient

  /** A `GKPlayer`, by identity. */
  type Player = nat
  /** A `GKMatch`, by identity. */
  type Match = nat

  /** One message handed to the GameKit match. */
  datatype MatchSend =
    | ToAllPlayers(info: PeerInfo)                  // `match.sendData(toAllPlayers:with:)`
    | ToPlayer(player: Player, reply: EndHandshake) // `match?.send(_:to:dataMode:)`

  /** The datagrams one round of `beginHandshakeWithPeer` hands to `sendData`,
      the first carrying tag `first`: one BeginHandshake per candidate address,
      in order, each sent to that address and the peer's port. */
  function ProbeRound(codec: BeginCodec, identifier: Uuid, info: PeerInfo, first: int): (r: seq<Datagram>)
  {
    seq(|info.addresses|, i requires 0 <= i < |info.addresses| =>
      Datagram(codec.encode(NewBeginHandshake(identifier, info.addresses[i], info.port)),
               info.addresses[i], info.port, first + i))
  }

  /** A round sends exactly one datagram per candidate address, in order; each
      decodes as a BeginHandshake from `identifier` that names the address and
      port it is sent TO, not the sender's own. */
  lemma ProbeRoundContents(codec: BeginCodec, identifier: Uuid, info: PeerInfo, first: int)
    requires codec.Valid()
    ensures |ProbeRound(codec, identifier, info, first)| == |info.addresses|
    ensures forall i :: 0 <= i < |info.addresses| ==>
      var d := ProbeRound(codec, identifier, info, first)[i];
      && d.host == info.addresses[i] && d.port == info.port && d.tag == first + i
      && codec.decode(d.data) == Some(BeginHandshake(identifier, d.host, d.port))
  {
    forall i | 0 <= i < |info.addresses|
      ensures codec.decode(ProbeRound(codec, identifier, info, first)[i].data)
           == Some(BeginHandshake(identifier, info.addresses[i], info.port))
    {
      var h := NewBeginHandshake(identifier, info.addresses[i], info.port);
      assert codec.decode(codec.encode(h)) == Some(h);
    }
  }

  class ViewController {
    const identifier: Uuid
    const stunClient: Client
    var waitingOnEndHandshake: bool
    var peers: map<Uuid, Player>
    var addresses: seq<string>
    var port: Option<UInt16>
    /** `match`: the GameKit match once matchmaking succeeds. */
    var gameMatch: Option<Match>
    /** Armed `asyncAfter` timers: each will run `beginHandshakeWithPeer` again
        for its PeerInfo. */
    var retries: seq<PeerInfo>
    /** Every message handed to the GameKit match, in order. */
    ghost var matchSends: seq<MatchSend>

    ghost predicate Valid()
      reads this, stunClient
    {
      stunClient.Valid()
    }

    /** The state after `viewDidLoad` wires the delegates. `interfaces` is
        what `Interface.allInterfaces()` reports: the running, non-loopback
        IPv4 addresses of this device. */
    constructor (identifier: Uuid, interfaces: seq<string>, codec: BeginCodec)
      requires codec.Valid()
      ensures Valid() && fresh(stunClient)
      ensures this.identifier == identifier && stunClient.codec == codec
      ensures waitingOnEndHandshake && peers == map[] && addresses == interfaces
      ensures port == None && gameMatch == None && retries == [] && matchSends == []
      ensures stunClient.sent == [] && !stunClient.hasResults
    {
      this.identifier := identifier;
      stunClient := new Client(codec);
      waitingOnEndHandshake := true;
      peers := map[];
      addresses := interfaces;
      port := None;
      gameMatch := None;
      retries := [];
      matchSends := [];
    }

    /** `stun()`: start discovery; a thrown error is swallowed by `try?`. */
    method Stun(perm: seq<nat>, draws: seq<seq<byte>>, bindOk: bool)
      requires Valid()
      requires IsPermutation(perm, |stunClient.servers|)
      requires |draws| == 2
      requires forall k, i :: 0 <= k < 2 && 0 <= i < |draws[k]| ==> draws[k][i] < 255
      requires forall k :: 0 <= k < 2 ==> |draws[k]| == 12
      modifies stunClient
      ensures Valid() && stunClient.hasResults
      ensures bindOk ==> |stunClient.sent| == |old(stunClient.sent)| + 2
      ensures !bindOk ==> stunClient.sent == old(stunClient.sent)
    {
      var _ := stunClient.GetMyInfo(perm, draws, bindOk);
    }

    /** The results closure of `stun()`: a reported address is appended to the
        candidates and the port recorded; a nil address changes nothing. */
    method StunResult(address: Option<string>, port: Option<UInt16>)
      modifies this
      ensures address.None? ==> addresses == old(addresses) && this.port == old(this.port)
      ensures address.Some? ==> addresses == old(addresses) + [address.value] && this.port == port
      ensures waitingOnEndHandshake == old(waitingOnEndHandshake) && peers == old(peers)
      ensures gameMatch == old(gameMatch) && retries == old(retries) && matchSends == old(matchSends)
    {
      if address.None? {
        return;
      }
      addresses := addresses + [address.value];
      this.port := port;
    }

    /** `matchmakingCompleted(_:error:)`: with a match, broadcast this peer's
        identifier, candidate addresses and port. The port is force-unwrapped,
        so STUN must have reported one by then. The error is only logged. */
    method MatchmakingCompleted(m: Option<Match>)
      requires m.Some? ==> port.Some?
      modifies this
      ensures waitingOnEndHandshake == old(waitingOnEndHandshake) && peers == old(peers)
      ensures addresses == old(addresses) && port == old(port) && retries == old(retries)
      ensures m.None? ==> gameMatch == old(gameMatch) && matchSends == old(matchSends)
      ensures m.Some? ==> gameMatch == m
      ensures m.Some? ==> matchSends == old(matchSends) + [ToAllPlayers(PeerInfo(identifier, addresses, port.value))]
    {
      if m.None? {
        return;
      }
      gameMatch := m;
      var info := NewPeerInfo(identifier, addresses, port.value);
      matchSends := matchSends + [ToAllPlayers(info)];
    }

    /** `beginHandshakeWithPeer(_:)`: while no EndHandshake has arrived, send
        one round of probes and arm a timer that repeats the round in two
        seconds; afterwards do nothing at all. */
    method BeginHandshakeWithPeer(info: PeerInfo)
      requires Valid()
      modifies this, stunClient
      ensures Valid()
      ensures waitingOnEndHandshake == old(waitingOnEndHandshake) && peers == old(peers)
      ensures addresses == old(addresses) && port == old(port) && gameMatch == old(gameMatch)
      ensures matchSends == old(matchSends)
      ensures stunClient.servers == old(stunClient.servers) && stunClient.hasResults == old(stunClient.hasResults)
      ensures !old(waitingOnEndHandshake) ==>
        && retries == old(retries) && stunClient.sent == old(stunClient.sent)
        && stunClient.tag == old(stunClient.tag) && stunClient.dataInTransit == old(stunClient.dataInTransit)
      ensures old(waitingOnEndHandshake) ==>
        && retries == old(retries) + [info]
        && stunClient.sent == old(stunClient.sent) + ProbeRound(stunClient.codec, identifier, info, old(stunClient.tag) + 1)
        && stunClient.tag == old(stunClient.tag) + |info.addresses|
        && (forall t :: t in stunClient.dataInTransit <==> t in old(stunClient.dataInTransit) || old(stunClient.tag) < t <= stunClient.tag)
    {
      if !waitingOnEndHandshake {
        return;
      }
      ghost var round := ProbeRound(stunClient.codec, identifier, info, stunClient.tag + 1);
      ghost var sent0, tag0, inTransit0, issued := stunClient.sent, stunClient.tag, stunClient.dataInTransit, [];
      var i := 0;
      while i < |info.addresses|
        invariant 0 <= i <= |info.addresses| && |issued| == i
        invariant stunClient.Valid()
        invariant stunClient.servers == old(stunClient.servers) && stunClient.hasResults == old(stunClient.hasResults)
        invariant stunClient.tag == tag0 + i
        invariant stunClient.sent == sent0 + issued
        invariant forall k :: 0 <= k < i ==> issued[k] == round[k]
        invariant forall t :: t in stunClient.dataInTransit <==> t in inTransit0 || tag0 < t <= stunClient.tag
        modifies stunClient
      {
        var address := info.addresses[i];
        var handshake := NewBeginHandshake(identifier, address, info.port);
        var data := stunClient.codec.encode(handshake);
        stunClient.SendData(data, address, info.port);
        issued := issued + [Datagram(data, address, info.port, stunClient.tag)];
        i := i + 1;
      }
      assert issued == round;
      retries := retries + [info];
    }

    /** The `asyncAfter` timer armed at position `k` fires. */
    method Tick(k: nat)
      requires Valid() && k < |retries|
      modifies this, stunClient
      ensures Valid()
      ensures waitingOnEndHandshake == old(waitingOnEndHandshake) && peers == old(peers)
      ensures addresses == old(addresses) && port == old(port) && gameMatch == old(gameMatch)
      ensures matchSends == old(matchSends)
      ensures stunClient.servers == old(stunClient.servers) && stunClient.hasResults == old(stunClient.hasResults)
      ensures !old(waitingOnEndHandshake) ==>
        && retries == old(retries[..k] + retries[k + 1..])
        && stunClient.sent == old(stunClient.sent)
        && stunClient.tag == old(stunClient.tag) && stunClient.dataInTransit == old(stunClient.dataInTransit)
      ensures old(waitingOnEndHandshake) ==>
        && retries == old(retries[..k] + retries[k + 1..]) + [old(retries[k])]
        && stunClient.sent == old(stunClient.sent) + ProbeRound(stunClient.codec, identifier, old(retries[k]), old(stunClient.tag) + 1)
        && stunClient.tag == old(stunClient.tag) + |old(retries[k]).addresses|
        && (forall t :: t in stunClient.dataInTransit <==> t in old(stunClient.dataInTransit) || old(stunClient.tag) < t <= stunClient.tag)
    {
      var info := retries[k];
      retries := retries[..k] + retries[k + 1..];
      BeginHandshakeWithPeer(info);
    }

    /** `didReceive(_:fromRemotePlayer:)` for a PeerInfo: remember the player
        under the peer's identifier and start a round of probes, even when a
        retry loop for that peer is already running. */
    method DidReceivePeerInfo(info: PeerInfo, player: Player)
      requires Valid()
      modifies this, stunClient
      ensures Valid()
      ensures peers == old(peers)[info.identifier := player]
      ensures waitingOnEndHandshake == old(waitingOnEndHandshake) && matchSends == old(matchSends)
      ensures addresses == old(addresses) && port == old(port) && gameMatch == old(gameMatch)
      ensures stunClient.servers == old(stunClient.servers) && stunClient.hasResults == old(stunClient.hasResults)
      ensures old(waitingOnEndHandshake) ==>
        && retries == old(retries) + [info]
        && stunClient.sent == old(stunClient.sent) + ProbeRound(stunClient.codec, identifier, info, old(stunClient.tag) + 1)
        && stunClient.tag == old(stunClient.tag) + |info.addresses|
        && (forall t :: t in stunClient.dataInTransit <==> t in old(stunClient.dataInTransit) || old(stunClient.tag) < t <= stunClient.tag)
      ensures !old(waitingOnEndHandshake) ==>
        && retries == old(retries) && stunClient.sent == old(stunClient.sent)
        && stunClient.tag == old(stunClient.tag) && stunClient.dataInTransit == old(stunClient.dataInTransit)
    {
      peers := peers[info.identifier := player];
      BeginHandshakeWithPeer(info);
    }

    /** `didReceive(_:)` for a BeginHandshake from the socket: reply with an
        EndHandshake over the GameKit match, to the player recorded for the
        Begin's identifier; from an unknown peer, or with no match, nothing is
        sent. Every Begin is answered, duplicates included. */
    method DidReceiveBegin(handshake: BeginHandshake)
      modifies this
      ensures handshake.identifier in peers && gameMatch.Some? ==>
        matchSends == old(matchSends) + [ToPlayer(peers[handshake.identifier], NewEndHandshake(handshake, identifier))]
      ensures handshake.identifier !in peers || gameMatch.None? ==> matchSends == old(matchSends)
      ensures waitingOnEndHandshake == old(waitingOnEndHandshake) && peers == old(peers)
      ensures addresses == old(addresses) && port == old(port) && gameMatch == old(gameMatch) && retries == old(retries)
    {
      var reply := NewEndHandshake(handshake, identifier);
      if handshake.identifier !in peers {
        return;
      }
      var player := peers[handshake.identifier];
      if gameMatch.Some? {
        matchSends := matchSends + [ToPlayer(player, reply)];
      }
    }

    /** `didReceive(_:fromRemotePlayer:)` for an EndHandshake: any End, from
        any player, stops the probing. */
    method DidReceiveEnd(end: EndHandshake, player: Player)
      modifies this
      ensures !waitingOnEndHandshake
      ensures peers == old(peers) && addresses == old(addresses) && port == old(port)
      ensures gameMatch == old(gameMatch) && retries == old(retries) && matchSends == old(matchSends)
    {
      waitingOnEndHandshake := false;
    }

    /** A datagram arrives on the socket the STUN client owns: a BeginHandshake
        goes to `DidReceiveBegin`, a STUN response to the results closure. */
    method DidReceiveDatagram(data: seq<byte>, fromHost: Option<string>)
      requires Valid()
      modifies this
      ensures Valid()
      ensures waitingOnEndHandshake == old(waitingOnEndHandshake) && peers == old(peers)
      ensures gameMatch == old(gameMatch) && retries == old(retries)
      ensures var d := stunClient.Dispatch(data, fromHost);
        && (d.BeginToDelegate? && d.handshake.identifier in peers && gameMatch.Some? ==>
              matchSends == old(matchSends) + [ToPlayer(peers[d.handshake.identifier], NewEndHandshake(d.handshake, identifier))])
        && (d.ResultsCallback? && d.address.Some? ==>
              addresses == old(addresses) + [d.address.value] && port == d.port)
        && (!(d.BeginToDelegate? && d.handshake.identifier in peers && gameMatch.Some?) ==> matchSends == old(matchSends))
        && (!(d.ResultsCallback? && d.address.Some?) ==> addresses == old(addresses) && port == old(port))
    {
      var d := stunClient.Dispatch(data, fromHost);
      match d {
        case BeginToDelegate(h) => DidReceiveBegin(h);
        case ResultsCallback(address, p) => StunResult(address, p);
        case Nothing =>
      }
    }
  }
}
