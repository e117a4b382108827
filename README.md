# P2PDemo NAT traversal: a Dafny model

P2PDemo connects two iOS devices that each sit behind NAT. Each device asks
public STUN servers for its own public address and port, shares its
candidate addresses over a GameKit match, and then punches a hole. It sends
BeginHandshake datagrams to every candidate address of the peer every two
seconds until an EndHandshake comes back.

This project models the three files that hold that logic and proves what
they do:

- `types.dfy` (module `Types`): Swift optionals, `UInt8` as `bv8` and `UInt16` as `bv16`.
- `messaging.dfy` (module `Messaging`): the records `PeerInfo`, `BeginHandshake` and `EndHandshake` with their initialisers. Also the JSON coder for BeginHandshake payloads, which is a parameter of the model.
- `dotted.dfy` (module `Dotted`): how a `UInt8` prints in decimal, the dotted-quad address text, and a parser that reads it back.
- `stun_codec.dfy` (module `StunCodec`): the 20-byte Binding Request of section 6 of RFC 5389. Also the decoding of a Binding Success Response whose first attribute is XOR-MAPPED-ADDRESS (section 15.2 of RFC 5389), both as written and corrected.
- `stun_client.dfy` (module `StunClient`): the class `Client`, which models the Swift class `StunClient`. It holds the server list, the send-tag counter, the `dataInTransit` table, and a ghost log of every datagram handed to the socket. It also covers request creation, server selection and the dispatch of received datagrams.
- `view_controller.dfy` (module `Handshake`): the `ViewController` state and handlers. The state is `waitingOnEndHandshake`, `peers`, `addresses`, `port` and the match. The armed retry timers are an explicit list that `Tick` fires. A ghost log records every message handed to the GameKit match.
- `scenario.dfy` (module `Scenario`): two controllers running the handshake against each other, from the exchange of PeerInfo to the End that stops the probing.

Mapping conventions:

- Sends over UDP appear in `Client.sent`. Sends over GameKit appear in `ViewController.matchSends`.
- Handlers run as atomic steps.
- Randomness is an input. The shuffle is a permutation `perm`. The random bytes are `draws`.
- Whether the socket binds is an input `bindOk`.
- The device's interface addresses are a constructor argument.
- JSON encoding is a parameter pair `BeginCodec(encode, decode)`. The model relies on one fact about it: decoding what was encoded gives the same record back.
- The Swift field `match` is `gameMatch` here, because `match` is a Dafny keyword.

Where the code departs from STUN as RFC 5389 describes it, or from the usual UDP hole-punching scheme (each peer probes the other's candidate addresses and answers each probe over the same UDP path), the model follows the code:

- The results callback fires on every response that passes the length guard. This includes responses with a wrong type code or a wrong attribute code, which report `(nil, nil)`. It also fires again for each later valid response, not only the first.
- The parser never checks the transaction id, the magic cookie, the attribute length or the address family (`DecodeIgnoresUncheckedBytes`).
- Transaction-id bytes are drawn from 0..254, so the byte 0xFF never occurs.
- In-flight sends are keyed by a send tag, with no timestamp or destination.
- The EndHandshake reply goes over the GameKit match to the player recorded for the Begin's identifier. It does not go over UDP to the Begin's source.
- Any EndHandshake clears `waitingOnEndHandshake`, with no check of its identifiers.
- A BeginHandshake carries the address and port it is sent to, not the sender's own.
- Every received PeerInfo starts one more retry loop, even when one is already running.

## Model

| member | source | states |
|---|---|---|
| `Messaging.NewPeerInfo` | P2PDemo/Messaging.swift:17-21 | the PeerInfo stores identifier and port verbatim, and the addresses with the same length and the same element at every position |
| `Messaging.NewBeginHandshake` | P2PDemo/Messaging.swift:30-34 | the BeginHandshake stores identifier, address and port verbatim |
| `Messaging.NewEndHandshake` | P2PDemo/Messaging.swift:44-49 | the End's identifier is the Begin's, its peerIdentifier is the responder's own identifier, and address and port are copied from the Begin |
| `Messaging.AnsweredBegin` | P2PDemo/Messaging.swift:44-49 | an End determines the Begin it answers: rebuilding the End from that Begin and the End's peerIdentifier gives the same End |
| `Messaging.NewEndHandshakeInjective` | P2PDemo/Messaging.swift:44-49 | two Ends are equal exactly when they come from equal Begins and equal responder identifiers (deterministic and lossless) |
| `Dotted.Decimal` | P2PDemo/SimpleStun.swift:154 | a number prints as a non-empty string of decimal digits |
| `Dotted.ParseDecimalOfDecimal` | P2PDemo/SimpleStun.swift:154 | reading the printed digits back gives the number |
| `Dotted.ParseFormat` | P2PDemo/SimpleStun.swift:154 | parsing the dotted-quad text of an address gives back the same four bytes |
| `Dotted.FormatInjective` | P2PDemo/SimpleStun.swift:154 | two addresses print the same text exactly when they are equal |
| `StunCodec.ParseRequestOfRequest` | P2PDemo/SimpleStun.swift:116-127 | a request is 20 bytes, begins 00 01 00 00 21 12 A4 42, and parses as a Binding Request carrying exactly its transaction id |
| `StunCodec.DecodeAsWritten` | P2PDemo/SimpleStun.swift:130-159 | as written, the callback gets an address exactly when it also gets a port |
| `StunCodec.DecodeResponse` | P2PDemo/SimpleStun.swift:130-159 | the corrected decoder never reads past the end. It yields an address, and then also a port, exactly when the datagram has 32 bytes or more, type 0x0101 and first attribute 0x0020 |
| `StunCodec.ShortResponseDropped` | P2PDemo/SimpleStun.swift:131-135 | a datagram of 20 bytes or fewer returns before the results callback, in both decoders |
| `StunCodec.WrongCodeReportsNothing` | P2PDemo/SimpleStun.swift:139-150 | a wrong type code or first-attribute code still invokes the callback, with nil address and nil port |
| `StunCodec.DecodeResponseAgrees` | P2PDemo/SimpleStun.swift:130-159 | on datagrams of at most 20 or at least 32 bytes, the corrected decoder does exactly what the code does |
| `StunCodec.AsWrittenOverReads` | P2PDemo/SimpleStun.swift:131-154 | as written, a byte past the end is read exactly for 21-byte datagrams and for 22 to 31-byte datagrams with both codes right |
| `StunCodec.GuardAdmitsOverRead` | P2PDemo/SimpleStun.swift:131-140 | a 21-byte datagram passes the guard and over-reads as written, and is dropped by the corrected decoder |
| `StunCodec.DecodeEncode` | P2PDemo/SimpleStun.swift:152-154 | decoding a response that XOR-encodes (ip, port) reports that port and an address text that parses back to ip |
| `StunCodec.DecodeIgnoresUncheckedBytes` | P2PDemo/SimpleStun.swift:136-156 | the outcome depends only on the length and bytes 0-1, 20-21 and 26-31: transaction id, cookie and family are never checked |
| `StunClient.CreateTransactionId` | P2PDemo/SimpleStun.swift:107-114 | the id is exactly 12 bytes, the generator's draws in order, and no byte is 0xFF |
| `StunClient.CreateRequest` | P2PDemo/SimpleStun.swift:116-128 | returns the transaction id and a 20-byte request: bytes 0-7 are 00 01 00 00 21 12 A4 42, bytes 8-19 are the id, and it parses back to the id |
| `StunClient.Shuffled` | P2PDemo/SimpleStun.swift:35 | the shuffled list has the same length and holds at each position the entry the permutation picks |
| `StunClient.ShuffledKeepsServers` | P2PDemo/SimpleStun.swift:35 | a shuffle keeps every server usable (host and port set, hosts distinct) and draws only from the pool |
| `StunClient.Client.constructor` | P2PDemo/SimpleStun.swift:19-30 | the client starts with the four-server pool, tag 0, an empty in-transit table, no callback and nothing sent |
| `StunClient.Client.SendData` | P2PDemo/SimpleStun.swift:51-59 | the tag goes up by one to a value not yet in the table, only that entry is added, and one datagram with that tag is sent; the invariant (tags count the sends, in-transit entries hold their send's data) is kept |
| `StunClient.Client.DidSendData` | P2PDemo/SimpleStun.swift:72-77 | completion removes exactly the entry for its tag; everything else is unchanged |
| `StunClient.Client.DidNotSendData` | P2PDemo/SimpleStun.swift:79-84 | failure removes exactly the entry for its tag; everything else is unchanged |
| `StunClient.Client.SendRequest` | P2PDemo/SimpleStun.swift:40-43 | one pass of the send loop, for a server whose host and port are both present: exactly one datagram is appended, addressed to that server and carrying a Binding Request that parses back to the drawn id; the tag goes up by one and only that tag enters the in-transit table |
| `StunClient.Client.GetMyInfo` | P2PDemo/SimpleStun.swift:32-46 | the callback is stored and the servers are permuted. If the socket binds, exactly two requests are sent, to positions 0 and 1 of the shuffled pool (two different hosts), each a Binding Request with its own id; otherwise nothing is sent |
| `StunClient.Client.Dispatch` | P2PDemo/SimpleStun.swift:61-70 | a payload goes to the delegate exactly when it decodes as a BeginHandshake. The STUN callback fires only for payloads that do not, and then with what the decoder reports, whenever a callback is set |
| `StunClient.Client.DispatchBegin` | P2PDemo/SimpleStun.swift:64-66 | an encoded BeginHandshake reaches the delegate unchanged |
| `StunClient.Client.DispatchResponse` | P2PDemo/SimpleStun.swift:67-69 | a server response for (ip, port) reaches the callback as that address text and port |
| `Handshake.ProbeRoundContents` | P2PDemo/ViewController.swift:110-114 | a round sends one datagram per candidate address, in order, to (address, peer port), each decoding as a Begin with the local identifier and that same address and port |
| `Handshake.ViewController.constructor` | P2PDemo/ViewController.swift:16-23 | the controller starts waiting for an End, with no peers, the interface addresses, no port, no match, no timers and nothing sent |
| `Handshake.ViewController.Stun` | P2PDemo/ViewController.swift:45-53 | discovery stores the callback and sends two requests if the socket binds, none otherwise |
| `Handshake.ViewController.StunResult` | P2PDemo/ViewController.swift:47-52 | a reported address is appended to `addresses` and `port` is set; a nil address leaves all state unchanged |
| `Handshake.ViewController.MatchmakingCompleted` | P2PDemo/ViewController.swift:59-77 | with a match, broadcasts one PeerInfo holding the local identifier, the current addresses and the current port; needs the port to be set |
| `Handshake.ViewController.BeginHandshakeWithPeer` | P2PDemo/ViewController.swift:108-118 | when no longer waiting, sends nothing and arms no timer. While waiting, sends exactly one probe round (new tags, new in-transit entries) and arms exactly one retry |
| `Handshake.ViewController.Tick` | P2PDemo/ViewController.swift:115-117 | a firing timer is consumed. While waiting it sends one probe round for its PeerInfo (new tags, exactly those tags added to the in-transit table) and re-arms; once not waiting it sends nothing, leaves the tag and the in-transit table as they were and is not re-armed. The server list and the callback are kept either way |
| `Handshake.ViewController.DidReceivePeerInfo` | P2PDemo/ViewController.swift:82-86 | records the player under the peer's identifier, leaves other peers unchanged, and starts one more probe round (new tags, exactly those tags added to the in-transit table) and retry loop while waiting; when not waiting, the client state is unchanged. The server list and the callback are kept either way |
| `Handshake.ViewController.DidReceiveBegin` | P2PDemo/ViewController.swift:88-95 | every Begin from a known peer, duplicates included, sends exactly one End built from it to that peer's player over the match (when there is one); an unknown peer gets nothing |
| `Handshake.ViewController.DidReceiveEnd` | P2PDemo/ViewController.swift:97-101 | any End clears `waitingOnEndHandshake` and changes nothing else |
| `Handshake.ViewController.DidReceiveDatagram` | P2PDemo/SimpleStun.swift:61-70 | a datagram from the socket either answers a Begin or records a STUN result, as `Dispatch` decides, and nothing else changes |
| `Scenario.HolePunch` | P2PDemo/ViewController.swift:82-117 | two peers that share a payload format and know each other through the match: A's first probe, delivered to B's socket, makes B send A's player the End whose identifiers are A's and B's and whose address and port are the probed ones; after that End, the timer armed by A's round sends nothing and is not re-armed, so A sent exactly one round |

No method other than `DidReceiveEnd` changes `waitingOnEndHandshake`, and
the constructor sets it to true. So the flag starts true, only ever becomes
false, and once false stays false.

## Findings

| source | as written | input that shows it | evidently intended | confidence | as-written member | corrected member |
|---|---|---|---|---|---|---|
| P2PDemo/SimpleStun.swift:131 | the guard `data.count > 20` admits datagrams of 21 to 31 bytes. The code then reads the attribute type at bytes 20-21, before any check, and the port and address at bytes 26-31 | any 21-byte datagram, such as 21 zero bytes | the guard covers every byte read: `data.count >= 32` | high; not executed | `StunCodec.GuardAdmitsOverRead` | `StunCodec.DecodeResponse` |

`StunCodec.DecodeAsWritten` is the code as written, with the over-read as an
explicit outcome. The client's dispatch uses the corrected decoder.

## Left out

- `StunClient.Client.Dispatch`: uses the corrected length guard. A datagram of 21 to 31 bytes is dropped, where the code reads past its end. For 22 to 31-byte datagrams with a wrong code, the code invokes the callback with nils.
- P2PDemo/GameCenterHelper.swift is not part of this model. It covers GameKit authentication, matchmaking UI and decoding on the match. The handlers it calls are modelled as methods that are called directly.
- JSON `Codable`: encoding and decoding are a parameter. The `try? encode ... else return` branches (ViewController.swift:75, 92, 112) are not modelled, because encoding these records cannot fail.
- Sockets: bind and receive are the `bindOk` input. The send itself is the ghost log. The 2-second send timeout only shows as a later `DidNotSendData`.
- `DispatchQueue.async` on the network queue: every handler is an atomic step. `sendData` assigns its tag at once, not later on the queue.
- `Interface.allInterfaces()` is a constructor argument.
- `servers.shuffle()` and `UInt8.random(in:)` are inputs: a permutation and the drawn bytes.
- `StunClient.Client.SendData`: does not model overflow of the 64-bit `tag` after 2^63 sends.
- UI and logging: the label text, `print`, dismissing the matchmaker on cancel, `udpSocketDidClose`, `onInvitePeers` and `authenticationCompleted`.
- The `udpSocket` field the results closure stores (ViewController.swift:51) is never read, so it is not modelled.
- `helper(_:didRecieve:fromRemotePlayer:)` (ViewController.swift:103-106) is not called anywhere, so it is not modelled.
- Weak references (`[weak self]`, `messageDelegate`): the objects are assumed alive and wired, as `viewDidLoad` does before discovery starts.
- `Handshake.ViewController.MatchmakingCompleted`: the `error` argument is only printed, so it is not a parameter. GameKit send failures (`try?`) are not modelled; `matchSends` records every attempted send.
- `Handshake.ViewController.Stun`: states only how many requests are sent. What they contain and where they go is stated by `StunClient.Client.GetMyInfo`, which it calls.
- Alignment of the `UInt16` view of the buffer and the byte order of the host: the model reads big-endian 16-bit values, as `CFSwapInt16` gives on the little-endian devices the app runs on.
