/** `StunClient` (P2PDemo/SimpleStun.swift): builds Binding Requests, sends
    them through one UDP socket while keeping every datagram in flight in a
    table keyed by a send tag, and sorts what the socket receives into
    BeginHandshake probes and STUN responses. */
module StunClient {
  import opened Types
  import opened Messaging
  import opened Dotted
  import opened StunCodec

  /** `StunClient.HostAndPort`: both fields optional, set only by the initialisers. */
  datatype HostAndPort = HostAndPort(host: Option<string>, port: Option<UInt16>)

  /** The four public servers the client starts with. */
  const ServerPool: seq<HostAndPort> := [
    HostAndPort(Some("stun1.l.google.com"), Some(19302)),
    HostAndPort(Some("stun2.l.google.com"), Some(19302)),
    HostAndPort(Some("stun3.l.google.com"), Some(19302)),
    HostAndPort(Some("stun4.l.google.com"), Some(19302))
  ]

  /** One call of `udpSocket.send(_:toHost:port:withTimeout:tag:)`. */
  datatype Datagram = Datagram(data: seq<byte>, host: string, port: UInt16, tag: int)

  /** Where `udpSocket(_:didReceive:fromAddress:withFilterContext:)` hands a datagram. */
  datatype Delivery =
    | Nothing                                                        // no host, dropped, or no callback set
    | BeginToDelegate(handshake: BeginHandshake)                     // `messageDelegate?.didReceive(handshake)`
    | ResultsCallback(address: Option<string>, port: Option<UInt16>) // `results?(address, port, udpSocket, nil)`

  predicate Distinct<T(==)>(s: seq<T>)
  {
    forall i, j :: 0 <= i < j < |s| ==> s[i] != s[j]
  }

  /** `perm` lists each index below `n` once: the outcome of a shuffle. */
  predicate IsPermutation(perm: seq<nat>, n: nat)
  {
    && |perm| == n
    && (forall i :: 0 <= i < n ==> perm[i] < n)
    && Distinct(perm)
  }

  /** The order `shuffle()` leaves `s` in when it moves `s[perm[i]]` to position `i`. */
  function Shuffled<T>(s: seq<T>, perm: seq<nat>): (r: seq<T>)
    requires IsPermutation(perm, |s|)
    ensures |r| == |s|
    ensures forall i :: 0 <= i < |r| ==> r[i] == s[perm[i]]
  {
    seq(|s|, i requires 0 <= i < |s| => s[perm[i]])
  }

  /** Every server has a host and a port, and no two share a host. */
  predicate UsableServers(servers: seq<HostAndPort>)
  {
    && (forall i :: 0 <= i < |servers| ==> servers[i].host.Some? && servers[i].port.Some?)
    && (forall i, j :: 0 <= i < j < |servers| ==> servers[i].host != servers[j].host)
  }

  lemma ServerPoolUsable()
    ensures UsableServers(ServerPool)
  {
  }

  /** A shuffle of usable servers drawn from `pool` is again a list of usable
      servers (hosts and ports set, hosts distinct) drawn only from `pool`. */
  lemma {:induction false} ShuffledKeepsServers(s: seq<HostAndPort>, perm: seq<nat>, pool: seq<HostAndPort>)
    requires IsPermutation(perm, |s|) && UsableServers(s)
    requires forall x :: x in s ==> x in pool
    ensures UsableServers(Shuffled(s, perm))
    ensures forall x :: x in Shuffled(s, perm) ==> x in pool
  {
    var r := Shuffled(s, perm);
    forall i, j | 0 <= i < j < |r|
      ensures r[i].host != r[j].host
    {
      if perm[i] < perm[j] {
        assert s[perm[i]].host != s[perm[j]].host;
      } else {
        assert perm[i] != perm[j];
        assert s[perm[j]].host != s[perm[i]].host;
      }
    }
  }

  /** `d` is a Binding Request for transaction `id`, sent to `server`. */
  predicate RequestSentTo(d: Datagram, server: HostAndPort, id: seq<byte>)
  {
    server == HostAndPort(Some(d.host), Some(d.port)) && ParseRequest(d.data) == Some(id)
  }

  /** `createTransactionID`: twelve draws of `UInt8.random(in: 0..<255)`,
      appended in order. `draws` are the values the generator returns; the
      range excludes 255, so no byte of an id is ever 0xFF. */
  method CreateTransactionId(draws: seq<byte>) returns (id: seq<byte>)
    requires |draws| == TransactionIdLength
    requires forall i :: 0 <= i < |draws| ==> draws[i] < 255
    ensures |id| == TransactionIdLength
    ensures forall i :: 0 <= i < |id| ==> id[i] == draws[i] && id[i] != 0xFF
  {
    id := [];
    for k := 0 to TransactionIdLength
      invariant id == draws[..k]
    {
      id := id + [draws[k]];
    }
  }

  /** `createRequest`: a fresh transaction id and the 20-byte Binding Request
      carrying it. */
  method CreateRequest(draws: seq<byte>) returns (transactionId: seq<byte>, request: seq<byte>)
    requires |draws| == TransactionIdLength
    requires forall i :: 0 <= i < |draws| ==> draws[i] < 255
    ensures |transactionId| == TransactionIdLength
    ensures forall i :: 0 <= i < |transactionId| ==> transactionId[i] == draws[i]
    ensures |request| == HeaderLength
    ensures request[..8] == [0x00, 0x01, 0x00, 0x00, 0x21, 0x12, 0xA4, 0x42]
    ensures request[8..] == transactionId
    ensures ParseRequest(request) == Some(transactionId)
  {
    transactionId := CreateTransactionId(draws);
    request := [];
    request := request + [0, 1];
    request := request + [0, 0];
    request := request + MagicCookie;
    request := request + transactionId;
    assert request == Request(transactionId);
    ParseRequestOfRequest(transactionId);
  }

  class Client {
    /** The JSONDecoder (and its encoder) for BeginHandshake payloads. */
    const codec: BeginCodec
    var servers: seq<HostAndPort>
    var tag: int
    var dataInTransit: map<int, seq<byte>>
    /** Whether `results` holds the closure `getMyInfo` was given. */
    var hasResults: bool
    /** Every datagram handed to the socket, in order. */
    ghost var sent: seq<Datagram>

    /** `servers` is always an ordering of the pool; the tag counts the sends,
        so each send has its own tag; an entry in transit is the data of the
        send that carried its tag. */
    ghost predicate Valid()
      reads this
    {
      && codec.Valid()
      && |servers| == |ServerPool| && UsableServers(servers)
      && (forall s :: s in servers ==> s in ServerPool)
      && tag == |sent|
      && (forall i :: 0 <= i < |sent| ==> sent[i].tag == i + 1)
      && (forall t :: t in dataInTransit ==> 1 <= t <= tag && dataInTransit[t] == sent[t - 1].data)
    }

    constructor (codec: BeginCodec)
      requires codec.Valid()
      ensures Valid()
      ensures this.codec == codec && servers == ServerPool && !hasResults
      ensures tag == 0 && dataInTransit == map[] && sent == []
    {
      ServerPoolUsable();
      this.codec := codec;
      servers := ServerPool;
      tag := 0;
      dataInTransit := map[];
      hasResults := false;
      sent := [];
    }

    /** `sendData(_:toHost:port:)`: the next tag, an entry for it, one send. */
    method SendData(data: seq<byte>, host: string, port: UInt16)
      requires Valid()
      modifies this
      ensures Valid()
      ensures tag == old(tag) + 1 && tag !in old(dataInTransit)
      ensures dataInTransit == old(dataInTransit)[tag := data]
      ensures sent == old(sent) + [Datagram(data, host, port, tag)]
      ensures servers == old(servers) && hasResults == old(hasResults)
    {
      var next := tag + 1;
      tag := next;
      dataInTransit := dataInTransit[next := data];
      sent := sent + [Datagram(data, host, port, next)];
    }

    /** `udpSocket(_:didSendDataWithTag:)`: the send finished; only its entry goes. */
    method DidSendData(t: int)
      requires Valid()
      modifies this
      ensures Valid()
      ensures dataInTransit == old(dataInTransit) - {t}
      ensures tag == old(tag) && sent == old(sent)
      ensures servers == old(servers) && hasResults == old(hasResults)
    {
      dataInTransit := dataInTransit - {t};
    }

    /** `udpSocket(_:didNotSendDataWithTag:dueToError:)`: the send failed; only its entry goes. */
    method DidNotSendData(t: int)
      requires Valid()
      modifies this
      ensures Valid()
      ensures dataInTransit == old(dataInTransit) - {t}
      ensures tag == old(tag) && sent == old(sent)
      ensures servers == old(servers) && hasResults == old(hasResults)
    {
      dataInTransit := dataInTransit - {t};
    }

    /** One pass of the loop in `getMyInfo`: a fresh Binding Request for
        transaction `draws`, sent to `server`. */
    method SendRequest(server: HostAndPort, draws: seq<byte>) returns (ghost d: Datagram)
      requires Valid() && server.host.Some? && server.port.Some?
      requires |draws| == TransactionIdLength
      requires forall i :: 0 <= i < |draws| ==> draws[i] < 255
      modifies this
      ensures Valid() && servers == old(servers) && hasResults == old(hasResults)
      ensures sent == old(sent) + [d] && RequestSentTo(d, server, draws)
      ensures tag == old(tag) + 1
      ensures forall t :: t in dataInTransit <==> t in old(dataInTransit) || t == tag
    {
      var id, request := CreateRequest(draws);
      SendData(request, server.host.value, server.port.value);
      d := Datagram(request, server.host.value, server.port.value, tag);
      assert id == draws;
    }

    /** `getMyInfo(_:)`: keep the callback, shuffle the servers (`perm`), bind
        the socket (`bindOk` says whether binding and receiving succeeded;
        otherwise the call throws before sending), then send one request each
        to the first two servers. `draws` are the random bytes of the two
        transaction ids. */
    method GetMyInfo(perm: seq<nat>, draws: seq<seq<byte>>, bindOk: bool) returns (ok: bool)
      requires Valid()
      requires IsPermutation(perm, |servers|)
      requires |draws| == 2
      requires forall k, i :: 0 <= k < 2 && 0 <= i < |draws[k]| ==> draws[k][i] < 255
      requires forall k :: 0 <= k < 2 ==> |draws[k]| == TransactionIdLength
      modifies this
      ensures Valid() && hasResults && ok == bindOk
      ensures servers == Shuffled(old(servers), perm)
      ensures !ok ==> sent == old(sent) && tag == old(tag) && dataInTransit == old(dataInTransit)
      ensures ok ==> |sent| == |old(sent)| + 2 && sent[..|old(sent)|] == old(sent)
      ensures ok ==> forall k :: 0 <= k < 2 ==> RequestSentTo(sent[|old(sent)| + k], servers[k], draws[k])
      ensures ok ==> sent[|old(sent)|].host != sent[|old(sent)| + 1].host
      ensures ok ==> tag == old(tag) + 2
      ensures ok ==> forall t :: t in dataInTransit <==> t in old(dataInTransit) || old(tag) < t <= tag
    {
      hasResults := true;
      ShuffledKeepsServers(servers, perm, ServerPool);
      servers := Shuffled(servers, perm);
      if !bindOk {
        return false;
      }
      ghost var sent0, shuffled, issued := sent, servers, [];
      for index := 0 to 2
        invariant Valid() && hasResults && servers == shuffled
        invariant sent == sent0 + issued && |issued| == index
        invariant forall k :: 0 <= k < index ==> RequestSentTo(issued[k], shuffled[k], draws[k])
        invariant tag == old(tag) + index
        invariant forall t :: t in dataInTransit <==> t in old(dataInTransit) || old(tag) < t <= tag
      {
        ghost var d := SendRequest(servers[index], draws[index]);
        issued := issued + [d];
      }
      assert sent[..|sent0|] == sent0 && sent[|sent0|] == issued[0] && sent[|sent0| + 1] == issued[1];
      return true;
    }

    /** `udpSocket(_:didReceive:fromAddress:withFilterContext:)`: a payload that
        decodes as a BeginHandshake goes to the message delegate and never to
        the STUN parser; anything else is parsed as a STUN response, and every
        response that passes the length guard is reported through the results
        callback, not only the first. */
    function Dispatch(data: seq<byte>, fromHost: Option<string>): (d: Delivery)
      reads this
      ensures d.BeginToDelegate? <==> fromHost.Some? && codec.decode(data).Some?
      ensures d.BeginToDelegate? ==> codec.decode(data) == Some(d.handshake)
      ensures d.ResultsCallback? <==> fromHost.Some? && codec.decode(data).None? && hasResults && DecodeResponse(data).Reported?
      ensures d.ResultsCallback? ==> DecodeResponse(data) == Reported(d.address, d.port)
    {
      if fromHost.None? then Nothing
      else match codec.decode(data)
        case Some(h) => BeginToDelegate(h)
        case None =>
          match DecodeResponse(data)
          case Reported(address, port) => if hasResults then ResultsCallback(address, port) else Nothing
          case _ => Nothing
    }

    /** An encoded BeginHandshake arriving on the socket reaches the delegate intact. */
    lemma DispatchBegin(h: BeginHandshake, host: string)
      requires Valid()
      ensures Dispatch(codec.encode(h), Some(host)) == BeginToDelegate(h)
    {
    }

    /** A server's response that is not a BeginHandshake payload reports the
        address and port the server saw. */
    lemma DispatchResponse(transactionId: seq<byte>, ip: IPv4, port: UInt16, host: string)
      requires Valid() && hasResults
      requires |transactionId| == TransactionIdLength
      requires codec.decode(EncodeResponse(transactionId, ip, port)).None?
      ensures Dispatch(EncodeResponse(transactionId, ip, port), Some(host)) == ResultsCallback(Some(Format(ip)), Some(port))
    {
      DecodeEncode(transactionId, ip, port);
    }
  }
}
