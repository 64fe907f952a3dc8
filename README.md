# FizzyFlow p2p protocol core in Dafny

A model of the protocol layer of the FizzyFlow p2p node, with proofs. This layer is
the network orchestrator, the per-connection peer channel, the three channel
handlers (handshake, ping/pong liveness, peer discovery), the four protocol
messages, the timestamp vector, the peer status enumeration and the network
settings.

The node runs one event loop, and its callbacks never overlap. Every callback is
therefore a Dafny method on a class, and every piece of value-level logic is a
function:

- **Time and timers.** The current time is passed in as `now`. The ping timeout
  (`PingPonger.OnTimeout`), the discovery interval (`PeersDiscoverer.Tick`) and
  the prune-and-dial cycle (`Network.ConnectToMorePeers`) are explicit methods.
- **Events.** Emitted events are returned as a sequence of `Event` values. The
  listeners the network puts on each channel are `Network.Listener` and
  `Network.Listen`. The events the network re-fires are `Forwarded`.
- **Collaborators whose code is outside the model** live in `environment.dfy`:
  the transport connection, the known-addresses registry and the socket's
  `connect`. Each one records the calls made on it and exposes its query answers
  as state.
- **Frame decoding and timestamp conversion** are parameters:
  - `decode: seq<byte> -> Option<Message>`, where `None` is a frame that fails
    to parse;
  - `toTimestamp: (Value, bool) -> Option<nat>`, where `None` is an input that is
    not a timestamp.
- **The channel's reaction to one decoded message** is specified by the pure
  function `Channel.React`. `PeerChannel.OnMessage` and its per-type `Receive*`
  methods are proved to do what it says. The lemmas about the channel
  (a handshake succeeds at most once, handlers exist only after the handshake)
  are proved about `React`.
- **The awaiting-handshake counter.** `Network.Valid` states that the counter is
  exactly the number of open channels still waiting for their handshake. The
  operations that open, deliver to and close channels preserve it.

Where the code and its documentation disagree, the model follows the code, except for the handshake correction described under "## Findings" and the matching correction of `Handshaker.sendHandshake`:

- `PeerStatus` constants are filled in by a `for..in` loop over the name table.
  That loop yields string keys, so `PeerStatus.NEW` is the string `"1"`, not the
  number 1. `toString` still maps it back to its name, because indexing an array
  with `"1"` is the same as indexing it with `1`.
- The model assumes that `anythingToTimestamp` returns a plain JavaScript number
  for the calls made by `GiveMorePeers` and `HereArePeers`. Under that
  assumption a converted timestamp of zero is falsy, so `GiveMorePeers` built
  from watermark 0 carries no vector, and `HereArePeers` with timestamp 0
  throws. The timestamp vector's own conversion yields a big number, which is
  always truthy. For a ping without a nonce, the conversion of `Timers.now()`
  is assumed to succeed and keep the current time's value.

## Model

| member | source | states |
|---|---|---|
| Addresses.Corrected | lib/PeerChannel.js:55-70 | the ip never changes; port, host and ssl become the declared ones exactly when the ips match or a host is declared; otherwise the address is left as it was |
| Addresses.CorrectedMatchingIpIsDeclared | lib/PeerChannel.js:56-66 | when the ips match, the corrected address is the declared address |
| Addresses.CorrectedIdempotent | lib/PeerChannel.js:55-66 | correcting twice with the same declaration gives what correcting once gave |
| Vectors.ToValue | lib/vectors/types/TimestampVector.js:19-21 | a timestamp vector yields its stored timestamp as a number, and a string vector yields its stored text |
| Vectors.AddressVectors | lib/messages/types/HereArePeers.js:23-27 | one vector per peer, in input order |
| Vectors.TimestampToBinary | lib/vectors/types/TimestampVector.js:23-25 | the header comes first and at least one byte of the number follows; `TimestampRoundTrip` proves that decoding gives the timestamp back |
| Vectors.BytesToNat | lib/vectors/types/TimestampVector.js:28 | `bignum.fromBuffer`, big-endian; `BytesToNatOfNatToBytes` proves that it inverts `NatToBytes` |
| Vectors.NatToBytes | lib/vectors/types/TimestampVector.js:23-25 | a number's byte encoding has at least one byte |
| Vectors.BytesToNatOfNatToBytes | lib/vectors/types/TimestampVector.js:23-29 | reading back a number's bytes gives the number |
| Vectors.NatToBytesCanonical | lib/vectors/types/TimestampVector.js:23-25 | the encoding has no leading zero byte unless the number is zero, and it is one byte long exactly for numbers below 256 |
| Vectors.NewTimestampVector | lib/vectors/types/TimestampVector.js:12-16 | construction fails exactly when the input does not convert to a number; otherwise the vector holds the converted number |
| Vectors.TimestampFromBinary | lib/vectors/types/TimestampVector.js:27-29 | decoding always yields a timestamp vector |
| Vectors.TimestampRoundTrip | lib/vectors/types/TimestampVector.js:23-29 | with a two-byte header, decoding the encoding of t gives t back, and its value is t |
| Vectors.TimestampFromBinaryIgnoresHeader | lib/vectors/types/TimestampVector.js:27-29 | the decoded value does not depend on the two header bytes |
| Messages.TypeId | lib/messages/types/Ping.js:12 | the `_typeId` of Ping, Pong, GiveMorePeers and HereArePeers is 1 to 4 (Pong.js:11, GiveMorePeers.js:13, HereArePeers.js:13); `TypeIdsDistinct` proves that equal ids mean equal message types |
| Messages.TypeIdsDistinct | lib/messages/types/Pong.js:11 | two messages other than the handshake have the same type id exactly when they are of the same type |
| Messages.FirstVector | lib/messages/types/Ping.js:33-35 | the first vector, present exactly when there is one |
| Messages.NewPing | lib/messages/types/Ping.js:8-23 | type id 1 and exactly one vector whose value is the nonce; a truthy nonce gives a string vector with that nonce, otherwise the nonce is the current time in a timestamp vector |
| Messages.DecodePing | lib/messages/types/Ping.js:37-40 | decoding fails exactly when there is no vector; otherwise the nonce is the first vector's value and the vectors are kept |
| Messages.PingDecodeRoundTrip | lib/messages/types/Ping.js:16-40 | a built ping decodes to itself |
| Messages.NewPong | lib/messages/types/Pong.js:7-17 | type id 2; the given vector is the only vector, or there is none |
| Messages.DecodePong | lib/messages/types/Pong.js:27-30 | decoding fails exactly when there is no vector; otherwise the nonce is the first vector's value |
| Messages.PongEchoesPingNonce | lib/messages/types/Pong.js:14-30 | a pong built from a decoded ping's vector decodes to that ping's nonce |
| Messages.PongEchoesNewPing | lib/handlers/types/PingPonger.js:46-52 | for every freshly built ping, string nonce or time nonce, the echoing pong decodes to the ping's nonce |
| Messages.NewGiveMorePeers | lib/messages/types/GiveMorePeers.js:9-21 | type id 3, at most one vector, a timestamp vector exactly when the converted watermark is truthy, and the converted watermark is kept |
| Messages.DecodeGiveMorePeers | lib/messages/types/GiveMorePeers.js:35-40 | decoding takes the watermark from the first vector when there is one, and otherwise leaves the message unchanged |
| Messages.GiveMorePeersDecodeRoundTrip | lib/messages/types/GiveMorePeers.js:17-40 | a request with a truthy watermark decodes to itself; any other request reaches the receiver without a vector |
| Messages.NewHereArePeers | lib/messages/types/HereArePeers.js:9-28 | construction throws exactly when the converted timestamp is not truthy; otherwise the timestamp vector comes first, then one vector per peer in order, and the peer list reads back as the input |
| Messages.PeerAddressesOf | lib/messages/types/HereArePeers.js:38-45 | every vector after the first, or none when there are at most one |
| Messages.DecodeHereArePeers | lib/messages/types/HereArePeers.js:47-52 | decoding takes the timestamp from the first vector when there is one, and otherwise leaves the message unchanged |
| Messages.HereArePeersDecodeRoundTrip | lib/messages/types/HereArePeers.js:17-52 | a built response decodes to itself, and its peer list is the input list |
| NetworkSettings.MergeOnto | lib/helpers/NetworkSettings.js:40 | `_.merge` field by field: a supplied option replaces the base value; its properties are carried by `MergeNothing`, `MergeSupplyingAll`, `MergeIdempotent` and `MergeOneLimit` |
| NetworkSettings.FromOptions | lib/helpers/NetworkSettings.js:40 | the options merged onto the defaults; `DefaultSettings` and `MergeOneLimit` state the results |
| NetworkSettings.DefaultSettings | lib/helpers/NetworkSettings.js:5-40 | with no options: limits 25/17/19, timeouts 5000/15000, discovery intervals 2000/3000, peer 127.0.0.1:7132 with incrementation up to 8200, ssl disabled |
| NetworkSettings.MergeNothing | lib/helpers/NetworkSettings.js:40 | merging no options leaves any base unchanged |
| NetworkSettings.MergeSupplyingAll | lib/helpers/NetworkSettings.js:40 | options that supply every field override every default |
| NetworkSettings.MergeIdempotent | lib/helpers/NetworkSettings.js:40 | merging the same options twice gives what merging them once gave |
| NetworkSettings.MergeOneLimit | lib/helpers/NetworkSettings.js:12-40 | the merged settings are exactly the defaults with the peers limit replaced by the supplied one |
| PeerStatuses.DigitKey | lib/PeerStatus.js:27-29 | the one-character decimal key of a position |
| PeerStatuses.KeyIndex | lib/PeerStatus.js:22-24 | a key denotes a table position exactly when it is the key of one |
| PeerStatuses.NameOf | lib/PeerStatus.js:22-24 | a defined lookup always yields one of the eight names |
| PeerStatuses.PopulateConstants | lib/PeerStatus.js:27-29 | the loop defines a constant for exactly the eight names; each one holds its position's key, and `toString` of it is its name |
| PeerStatuses.StatusNamesDistinct | lib/PeerStatus.js:3 | the eight names are pairwise distinct |
| PeerStatuses.NameOfConstant | lib/PeerStatus.js:22-29 | a position's key maps back to the name at that position, as the number itself does |
| PeerStatuses.NameOfInjective | lib/PeerStatus.js:3-29 | two constants with the same name are the same position, so names and constants are in bijection |
| PeerStatuses.PeerStatus.constructor | lib/PeerStatus.js:6-11 | a fresh status is UNDEFINED |
| PeerStatuses.PeerStatus.Status | lib/PeerStatus.js:18-20 | the getter returns the stored value; the constructor and `SetStatus` state what that value is |
| PeerStatuses.PeerStatus.SetStatus | lib/PeerStatus.js:13-16 | the setter stores any value unchecked |
| PeerStatuses.PeerStatus.ToString | lib/PeerStatus.js:22-24 | a stored constant, or the position it stands for, gives the name at that position; any defined result is one of the eight names |
| Environment.LocalSocket.Connect | lib/LocalSocket.js:116-168 | a dial is recorded exactly when the attempt was started |
| Environment.Registry.Close | lib/Network.js:77-80 | closing an address is recorded and changes none of the registry's answers |
| Events.Forwarded | lib/Network.js:190 | the bubble of a channel's events; `ForwardedExactly` and `ForwardedAppend` state which events pass and in what order |
| Events.ForwardedExactly | lib/Network.js:190 | the network re-fires exactly the message, handshake-success, asked-for-peers and peers-discovered events of a channel |
| Events.ForwardedAppend | lib/Network.js:190 | forwarding distributes over concatenation |
| Handshake.StepAsWritten | lib/handlers/types/Handshaker.js:21-56 | each input sets its flag; success is signalled exactly when the other input's flag was already set, even if this input's own flag was set too |
| Handshake.Step | lib/handlers/types/Handshaker.js:21-56 | each input sets its flag; success is signalled exactly on entering the both-flags state |
| Handshake.RunSignalsSuccessOnce | lib/handlers/types/Handshaker.js:11-56 | after any trace, the flags record which inputs occurred, and success was signalled once if both occurred and never otherwise |
| Handshake.EitherOrderSucceedsOnce | lib/handlers/types/Handshaker.js:21-56 | send-then-receive and receive-then-send both end with both flags set and one success |
| Handshake.RepeatedHandshakeAsWrittenSucceedsTwice | lib/handlers/types/Handshaker.js:42-56 | as written, a repeated remote handshake signals a second success; the corrected machine signals one |
| Handshake.AsWrittenAgreesWithoutRepeats | lib/handlers/types/Handshaker.js:21-56 | on every trace in which no input occurs twice, the as-written and corrected machines agree |
| Handshake.Handshaker.constructor | lib/handlers/types/Handshaker.js:6-15 | both flags start false, and no remote address is known |
| Handshake.Handshaker.Handle | lib/handlers/types/Handshaker.js:17-19 | `handle` sends the local handshake |
| Handshake.Handshaker.SendHandshake | lib/handlers/types/Handshaker.js:21-34 | sends one handshake with the local address, sets the sent flag, and succeeds as `Step` says |
| Handshake.Handshaker.OnHandshakeReceived | lib/handlers/types/Handshaker.js:42-56 | sets the received flag, keeps the declared address, and succeeds as `Step` says |
| Handshake.SendThenReceive | lib/handlers/types/Handshaker.js:21-56 | sending first: both flags end set, one success, one handshake sent, the remote's address kept |
| Handshake.ReceiveThenSend | lib/handlers/types/Handshaker.js:42-56 | receiving first signals no success and sends nothing; sending the local handshake afterwards completes it with one success |
| Liveness.PingPonger.constructor | lib/handlers/types/PingPonger.js:9-19 | nothing is pending |
| Liveness.PingPonger.Handle | lib/handlers/types/PingPonger.js:21-22 | `handle` keeps the invariant, which is all it does |
| Liveness.PingPonger.Ping | lib/handlers/types/PingPonger.js:24-44 | the nonce is pending once with the send time, its timeout is re-armed a ping timeout later, and the ping is sent |
| Liveness.PingPonger.OnTimeout | lib/handlers/types/PingPonger.js:36-41 | the nonce is no longer pending, and `lost` is fired with it |
| Liveness.PingPonger.OnPingReceived | lib/handlers/types/PingPonger.js:46-55 | a pong with the ping's vector is sent, and `ping` is fired with its nonce |
| Liveness.PingPonger.OnPongReceived | lib/handlers/types/PingPonger.js:57-67 | a pending nonce is removed with its timeout, and `pong` is fired with the nonce and the elapsed time; any other pong changes nothing and fires nothing |
| Liveness.PingRoundTrip | lib/handlers/types/PingPonger.js:24-67 | a ping answered by the other side completes with the same nonce and the elapsed time, and nothing is left pending |
| Discovery.Request | lib/handlers/types/PeersDiscoverer.js:51-54 | a request carries the watermark's timestamp vector exactly when the converted watermark is truthy |
| Discovery.Answer | lib/handlers/types/PeersDiscoverer.js:61-72 | nothing is sent when the registry has no addresses; otherwise the response is sent, with the registry's timestamp and addresses, or building it throws when the timestamp is not truthy |
| Discovery.PeersDiscoverer.constructor | lib/handlers/types/PeersDiscoverer.js:9-23 | the watermark starts at 0, and the handler starts active |
| Discovery.PeersDiscoverer.Handle | lib/handlers/types/PeersDiscoverer.js:25-33 | one request goes out at once and the interval is armed |
| Discovery.PeersDiscoverer.Tick | lib/handlers/types/PeersDiscoverer.js:27-31 | a tick sends a request exactly while active |
| Discovery.PeersDiscoverer.Pause | lib/handlers/types/PeersDiscoverer.js:39-41 | only the active flag changes, to false |
| Discovery.PeersDiscoverer.Resume | lib/handlers/types/PeersDiscoverer.js:47-49 | only the active flag changes, to true |
| Discovery.PeersDiscoverer.AskForPeers | lib/handlers/types/PeersDiscoverer.js:51-59 | one request with the current watermark is sent, and the watermark is unchanged |
| Discovery.PeersDiscoverer.OnPeersAsked | lib/handlers/types/PeersDiscoverer.js:61-75 | sends what `Answer` says and fires `askedforpeers`, unless building the response throws |
| Discovery.PeersDiscoverer.OnPeersReceived | lib/handlers/types/PeersDiscoverer.js:77-82 | the watermark becomes the response's timestamp, and `peersdiscovered` is fired with its addresses |
| Discovery.DiscoveryRound | lib/handlers/types/PeersDiscoverer.js:51-82 | the first request has watermark 0; the answer reaches the requester, which reports the addresses, and its next request carries the response's timestamp |
| Discovery.AnswerDecodesAtRequester | lib/handlers/types/PeersDiscoverer.js:64-71 | a built response decodes at the requester to the registry's timestamp and addresses |
| Channel.React | lib/PeerChannel.js:105-130 | the dispatch of one decoded message to the type's event and the handlers' reactions; its properties are carried by `ReactPreservesCoherence`, `ReactSucceedsOnce`, `ReactAnnounces`, `ReactBeforeHandshake`, `ReactTracksAwaiting` and `ReactClosesAfterAnswering` |
| Channel.ReactPreservesCoherence | lib/PeerChannel.js:73-99 | every reaction keeps a channel coherent: handlers exist only after the handshake, nothing awaits it then, and every pending ping has its timeout |
| Channel.ReactSucceedsOnce | lib/PeerChannel.js:73-98 | a reaction fires one success exactly when it completes the handshake; only a handshake does that, and it ends the wait; a completed handshake stays completed with its address fixed |
| Channel.ReactAnnounces | lib/PeerChannel.js:118-129 | every message is announced by its type first and as `message` last, unless building the answer throws, which leaves the channel as it was |
| Channel.ReactBeforeHandshake | lib/PeerChannel.js:73-96 | before the handshake is done, other messages change nothing and send nothing |
| Channel.ReactTracksAwaiting | lib/PeerChannel.js:77-98 | on a channel that waits exactly until its handshake is done, that stays so, and each success fired is one channel that stopped waiting |
| Channel.ReactClosesAfterAnswering | lib/PeerChannel.js:44-49 | a channel asks to close exactly when it is marked for closing and has answered a request for peers |
| Channel.ChannelsPingRoundTrip | lib/PeerChannel.js:144-146 | a ping between two handshaken channels is answered, and completes at the sender with the same nonce, the elapsed time, and the nonce cleared |
| Channel.ChannelsHandshake | lib/PeerChannel.js:73-98 | two channels that exchange handshakes both succeed, each adopting the other's declared address where allowed; each stops waiting and sends exactly one request for peers |
| Channel.PeerChannel.constructor | lib/PeerChannel.js:9-38 | a new channel has sent exactly one handshake, has no handlers, and starts coherent |
| Channel.PeerChannel.UpdateRemotePeerAddress | lib/PeerChannel.js:55-71 | the connection's address becomes `Corrected` of the old one |
| Channel.PeerChannel.OnHandshakeSuccess | lib/PeerChannel.js:73-99 | the address is corrected, the wait is cleared, fresh liveness and discovery handlers exist, one request is sent, and the success is fired with the corrected address |
| Channel.PeerChannel.OnMessage | lib/PeerChannel.js:105-130 | a frame that fails to decode bans the peer and changes nothing else; any other frame bumps the address's activity and then reacts as `React` says |
| Channel.PeerChannel.Dispatch | lib/PeerChannel.js:125-126 | the handlers of the message's type react as `React` says |
| Channel.PeerChannel.ReceiveHandshake | lib/handlers/types/Handshaker.js:42-56 | a handshake message reacts as `React` says, and a first success installs the other handlers |
| Channel.PeerChannel.ReceivePing | lib/handlers/types/PingPonger.js:46-55 | a ping reacts as `React` says |
| Channel.PeerChannel.ReceivePong | lib/handlers/types/PingPonger.js:57-67 | a pong reacts as `React` says |
| Channel.PeerChannel.ReceiveGiveMorePeers | lib/handlers/types/PeersDiscoverer.js:61-75 | a request reacts as `React` says, and closes a channel marked for closing |
| Channel.PeerChannel.ReceiveHereArePeers | lib/handlers/types/PeersDiscoverer.js:77-82 | a response reacts as `React` says |
| Channel.PeerChannel.Outbound | lib/PeerChannel.js:164-170 | a channel is outbound exactly when it is not inbound |
| Channel.PeerChannel.AwaitForDiscoveryAndClose | lib/PeerChannel.js:44-49 | only the close-after-discovery mark changes, to true |
| Channel.PeerChannel.Close | lib/PeerChannel.js:136-138 | one close request on the connection |
| Channel.PeerChannel.Ban | lib/PeerChannel.js:140-142 | one ban request on the connection |
| Channel.PeerChannel.Ping | lib/PeerChannel.js:144-146 | fails exactly before the handshake and then changes nothing; after it, the ping is sent and its nonce is pending |
| Channel.PeerChannel.AskForMorePeers | lib/PeerChannel.js:148-150 | fails exactly before the handshake; after it, one request with the current watermark is sent |
| PeerNetwork.DialRefused | lib/Network.js:124-125 | the dial admission check at the outbound or total limit; `DialRefusedAtTotalLimit` and `Network.Connect` state its use |
| PeerNetwork.OverInboundLimits | lib/Network.js:170-172 | the answer-then-close check for inbound connections; `AdmissionAtLimits` and `Network.OnConnection` state its use |
| PeerNetwork.AdmissionAtLimits | lib/Network.js:170-175 | both comparisons for an inbound connection are strict; an outbound connection is never put into answer-then-close mode |
| PeerNetwork.DialRefusedAtTotalLimit | lib/Network.js:123-128 | below the outbound limit, a dial is refused exactly from the total limit on |
| PeerNetwork.ListenerCallsAppend | lib/Network.js:181-190 | the listeners' registry calls distribute over concatenated events |
| PeerNetwork.DialledFromCandidates | lib/Network.js:88-91 | only available addresses are dialled; all of them when every dial starts, none when none does |
| PeerNetwork.ClosedCalls | lib/Network.js:77-80 | one close call per falling address, in order |
| PeerNetwork.ConnectingCalls | lib/Network.js:88-91 | one connecting-to call per address actually dialled, in order |
| PeerNetwork.Network.ConnectionsCount | lib/Network.js:139-141 | the `connectionsCount` getter; `CountsAwaitingChannels` proves it equals the active count plus the open channels still waiting |
| PeerNetwork.Network.CountsAwaitingChannels | lib/Network.js:139-141 | the connection count is the active count plus the number of open channels still waiting for their handshake |
| PeerNetwork.Network.constructor | lib/Network.js:13-63 | settings are the defaults merged with the options; no channel is open, and the counters are zero |
| PeerNetwork.Network.Connect | lib/Network.js:123-133 | refused exactly at the outbound or total limit, without dialling or touching the registry or the socket; a declined dial leaves the registry untouched; `connectingTo` is recorded exactly when the socket started the dial; an outcome other than dialling leaves the active counters unchanged |
| PeerNetwork.Network.OnError | lib/Network.js:135-137 | the failure is recorded |
| PeerNetwork.Network.ConnectToMorePeers | lib/Network.js:73-92 | every falling peer is closed first; no dialling once the active count reaches the limit; otherwise every available address goes through `Connect`; when the dial limit was already reached every outcome is a refusal, and otherwise the first address is not refused |
| PeerNetwork.Network.CloseAll | lib/Network.js:77-80 | closes each address in order, leaving the active count and the available addresses as they were |
| PeerNetwork.Network.ConnectAll | lib/Network.js:88-91 | calls `Connect` on each address in order; when the dial limit is reached at the start every outcome is a refusal, and otherwise the first address is not refused |
| PeerNetwork.Network.Admit | lib/Network.js:154 | the new channel is open and counted; the counter grows by one |
| PeerNetwork.Network.OnConnection | lib/Network.js:143-193 | the counter grows by one, and the invariant holds; `connectedTo` is recorded only for outbound connections; the new channel has sent its handshake; it is marked answer-then-close exactly when it is inbound over the limits |
| PeerNetwork.Network.Listener | lib/Network.js:181-190 | a success records `activeTo` and counts; discovered addresses go to the registry; the forwarded events are fired again |
| PeerNetwork.Network.Listen | lib/Network.js:181-190 | the listeners run over a channel's events, in order |
| PeerNetwork.Network.Dispatch | lib/Network.js:177-190 | the channel reacts as `React` says; its listeners then record the calls and count the successes, exactly one when the channel stopped waiting |
| PeerNetwork.Network.Deliver | lib/Network.js:181-184 | a frame on an open channel keeps the invariant; the counter drops by one exactly when that channel's handshake completed |
| PeerNetwork.Network.Settle | lib/Network.js:181-184 | the counter drops by the channel's successes, and the invariant holds again |
| PeerNetwork.Network.OnClose | lib/Network.js:195-208 | the byte totals grow by the channel's traffic; `disconnectedFrom` is recorded only for a known address; an awaiting channel stops being counted, and the invariant holds |
| PeerNetwork.Network.Retire | lib/Network.js:196-205 | the closed channel's traffic is added, it stops being counted, and it leaves the open channels |
| PeerNetwork.Network.OnBan | lib/Network.js:210-212 | the ban is recorded for the channel's address |

## Left out

- KnownPeerAddresses is not part of this model. How it decides which addresses are available, falling or known, and how its counters move, is not modelled. Its answers are state, and after a status-changing call (`Registry.Record`) the model promises nothing about them.
- Environment.Registry.Record: promises only the recorded call, because the registry's code is not part of this model.
- MessageFactory, Message, BinaryVector and the handshake message's layout are not part of this model. Frame decoding is the parameter `decode`, and `decorateBinary` is an arbitrary header.
- The transport side of the local socket is left out (servers, TLS, port probing, the connect timeout), since it is I/O. Its `connect` is the boolean result of `LocalSocket.Connect`, whose "already connecting" check is modelled by a set of pending addresses that never empties.
- Timers and the clock are left out. `now` is a parameter, and interval and timeout firings are explicit calls.
- The timestamp helper `anythingToTimestamp` is not part of this model. It is the parameter `toTimestamp`, assumed to return a plain number for the calls in `GiveMorePeers` and `HereArePeers`, so that zero is falsy there; if it returned a big number, zero would be truthy and those two messages would treat it as present. `Messages.NewPing` likewise assumes that the timestamp vector built from `Timers.now()` converts without failing and holds `now` unchanged.
- The event emitter and `bubble` are left out. Events are returned as values. The network's own `newChannel` and `closed` events are returned by `OnConnection` and `OnClose`.
- The ban and close requests on a connection are recorded; the connection's reaction to them is not modelled. `OnClose` and `OnBan` are the network's handlers for the events that follow.
- The `handshake:error` path is left out: the handshaker never fires `error`, so `_onHandshakeError` is unreachable.
- Handshake.Handshaker.OnHandshakeReceived: follows the corrected handshake of "## Findings". On a repeated remote handshake the code signals success again; the model does not. The code as written is `Handshake.StepAsWritten`.
- Handshake.Handshaker.SendHandshake: signals success only when the remote handshake arrived and the local one had not been sent yet. The code signals success whenever the remote handshake has arrived, so a second `sendHandshake()` after receive and send would fire it again. Its only caller is `handle()`, which a channel runs once, so this cannot happen through a channel.
- Channel.React: follows the corrected handshake, so a repeated remote handshake fires no second `HandshakeSuccess`, while the code fires one and builds a second set of handlers.
- PeerNetwork.Network.Valid: is the invariant of the corrected handshake. With the code as written a repeated remote handshake decrements the awaiting counter a second time for one channel, which breaks it.
- PeerNetwork.Network.Deliver: follows the corrected handshake, so the awaiting counter drops at most once per channel; the code as written can drop it again on a repeated remote handshake. It also requires the channel to be ready for a frame and keeps it ready. Proving that delivering to one channel leaves every other channel ready would need per-channel footprints, which the model does not carry.
- PeerStatuses.NameOf: a string key is modelled only when it is not an array property name such as `length` or `map`, which the code would look up on the array itself.
- PeerNetwork.Network.OnClose: requires the channel to be open, so closing the same connection twice is not modelled.
- Channel.PeerChannel.OnMessage: a `decode` result of `None` stands for `fromBinary` throwing, which bans the peer. A falsy value returned without a throw would end the handler without a ban; that case is not modelled.
- Channel.PeerChannel.Ping: calling it before the handshake returns false; the code throws a TypeError on the missing handler.
- Channel.PeerChannel.AskForMorePeers: calling it before the handshake returns false; the code throws a TypeError on the missing handler.
- The ping timeout is read from the settings when a channel is created. The code reads it at every ping, so changing the settings later is not modelled.
- Addresses are values. The code shares one address object between the connection and the registry, so correcting the connection's address is also seen through the registry; the model does not capture that sharing.
- Ping nonces are strings or absent. A numeric nonce, which the code turns into its string form, is not modelled.
- `toValue` and timestamps are unbounded naturals, without bignum-to-JavaScript-number rounding.
- Settings merge is modelled field by field over the known fields. Unknown option keys that lodash's deep merge would copy in are not modelled.
- The getters (`settings`, `peerAddress`, `id`, `closed`, `knownPeerAddresses`, `getPeerChannels`) and logging are left out.
- The network's asynchronous start-up (`initialize`, `getNetwork`) is left out: its socket start is I/O, and the local address is a constructor parameter.

## Findings

| source | as written | input that shows it | evidently intended | confidence | as-written member | corrected member |
|---|---|---|---|---|---|---|
| lib/handlers/types/Handshaker.js:42-56 | Receiving a handshake signals success whenever the local one was sent, on every handshake received. | A remote that sends its handshake twice: send, receive, receive. Success fires twice, `_onHandshakeSuccess` builds a second set of handlers, and the network's listener decrements the awaiting counter a second time for one channel. | Success fires once, when the second of the two flags becomes set. | not executed; follows from the code | Handshake.RepeatedHandshakeAsWrittenSucceedsTwice | Handshake.RunSignalsSuccessOnce |
