/**
 * The protocol's messages. Each message is a type id plus an ordered list of
 * vectors, together with the field the message type decodes from them. Messages
 * are values: built once by their constructor, and `decodeVectors` yields the
 * record with its decoded field filled in.
 */
module Messages {
  import opened Wrappers
  import opened Addresses
  import opened Vectors

  const PING_TYPE_ID: nat := 1
  const PONG_TYPE_ID: nat := 2
  const GIVE_MORE_PEERS_TYPE_ID: nat := 3
  const HERE_ARE_PEERS_TYPE_ID: nat := 4

  /**
   * The handshake message's layout is not part of this model; it carries the
   * sender's declared address.
   */
  datatype Message =
    | Handshake(peerAddress: PeerAddress)
    | Ping(nonce: Value, vectors: seq<Vector>)
    | Pong(pongNonce: Option<Value>, vectors: seq<Vector>)
    | GiveMorePeers(discoveredSinceTimestamp: Option<Value>, vectors: seq<Vector>)
    | HereArePeers(timestamp: Value, vectors: seq<Vector>)

  function TypeId(m: Message): (r: nat)
    requires !m.Handshake?
    ensures 1 <= r <= 4
  {
    match m
    case Ping(_, _) => PING_TYPE_ID
    case Pong(_, _) => PONG_TYPE_ID
    case GiveMorePeers(_, _) => GIVE_MORE_PEERS_TYPE_ID
    case HereArePeers(_, _) => HERE_ARE_PEERS_TYPE_ID
  }

  /** Each message type has its own type id. */
  lemma TypeIdsDistinct(a: Message, b: Message)
    requires !a.Handshake? && !b.Handshake?
    ensures TypeId(a) == TypeId(b) <==> a.Ping? == b.Ping? && a.Pong? == b.Pong? && a.GiveMorePeers? == b.GiveMorePeers?
  {
  }

  /** The first vector, `this._vectors[0]`, or undefined. */
  function FirstVector(vectors: seq<Vector>): (r: Option<Vector>)
    ensures r.Some? <==> |vectors| > 0
    ensures r.Some? ==> r.value == vectors[0]
  {
    if |vectors| > 0 then Some(vectors[0]) else None
  }

  // ---------------------------------------------------------------------------
  // Ping

  /** JavaScript truthiness of the nonce option: given and not the empty string. */
  predicate Truthy(nonce: Option<string>) {
    nonce.Some? && nonce.value != ""
  }

  /**
   * A ping carries exactly one vector whose value is the nonce: the given nonce
   * as a string vector, or else the current time as a timestamp vector.
   */
  function NewPing(nonce: Option<string>, now: nat): (m: Message)
    ensures m.Ping? && TypeId(m) == PING_TYPE_ID
    ensures |m.vectors| == 1 && ToValue(m.vectors[0]) == m.nonce
    ensures Truthy(nonce) ==> m.nonce == Str(nonce.value)
    ensures !Truthy(nonce) ==> m.nonce == Num(now) && m.vectors[0].TimestampVector?
  {
    if Truthy(nonce) then Ping(Str(nonce.value), [StringVector(nonce.value)])
    else Ping(Num(now), [TimestampVector(now)])
  }

  /** `decodeVectors` of a ping: the nonce is the first vector's value; none throws. */
  function DecodePing(m: Message): (r: Result<Message>)
    requires m.Ping?
    ensures r.Success? <==> |m.vectors| > 0
    ensures r.Success? ==> r.value.Ping? && r.value.vectors == m.vectors
    ensures r.Success? ==> r.value.nonce == ToValue(m.vectors[0])
  {
    if |m.vectors| == 0 then Failure("no vector to decode the nonce from")
    else Success(m.(nonce := ToValue(m.vectors[0])))
  }

  /** A ping decodes back to itself: its nonce survives decoding. */
  lemma PingDecodeRoundTrip(nonce: Option<string>, now: nat)
    ensures DecodePing(NewPing(nonce, now)) == Success(NewPing(nonce, now))
  {
  }

  // ---------------------------------------------------------------------------
  // Pong

  /** A pong carries the given vector, or none at all. */
  function NewPong(vector: Option<Vector>): (m: Message)
    ensures m.Pong? && TypeId(m) == PONG_TYPE_ID && m.pongNonce.None?
    ensures vector.Some? ==> m.vectors == [vector.value]
    ensures vector.None? ==> m.vectors == []
  {
    Pong(None, if vector.Some? then [vector.value] else [])
  }

  /** `decodeVectors` of a pong: the nonce is the first vector's value; none throws. */
  function DecodePong(m: Message): (r: Result<Message>)
    requires m.Pong?
    ensures r.Success? <==> |m.vectors| > 0
    ensures r.Success? ==> r.value.Pong? && r.value.vectors == m.vectors
    ensures r.Success? ==> r.value.pongNonce == Some(ToValue(m.vectors[0]))
  {
    if |m.vectors| == 0 then Failure("no vector to decode the nonce from")
    else Success(m.(pongNonce := Some(ToValue(m.vectors[0]))))
  }

  /** A pong built from a decoded ping's vector decodes to that ping's nonce. */
  lemma PongEchoesPingNonce(ping: Message)
    requires ping.Ping? && DecodePing(ping).Success?
    ensures var p := DecodePing(ping).value;
      DecodePong(NewPong(FirstVector(p.vectors))) == Success(Pong(Some(p.nonce), [p.vectors[0]]))
  {
  }

  /** In particular for a freshly built ping, whatever kind of nonce it has. */
  lemma PongEchoesNewPing(nonce: Option<string>, now: nat)
    ensures var p := NewPing(nonce, now);
      DecodePong(NewPong(FirstVector(p.vectors))).Success? &&
      DecodePong(NewPong(FirstVector(p.vectors))).value.pongNonce == Some(p.nonce)
  {
    PingDecodeRoundTrip(nonce, now);
    PongEchoesPingNonce(NewPing(nonce, now));
  }

  // ---------------------------------------------------------------------------
  // GiveMorePeers

  /**
   * JavaScript truthiness of a converted timestamp, taken to be a plain number:
   * present and not zero.
   */
  predicate TruthyTimestamp(converted: Option<nat>) {
    converted.Some? && converted.value != 0
  }

  /**
   * A request keeps the converted since-timestamp as given and carries a
   * timestamp vector exactly when that value is truthy, so a zero watermark
   * travels as a request without vectors; `converted` is the conversion's result.
   */
  function NewGiveMorePeers(converted: Option<nat>): (m: Message)
    ensures m.GiveMorePeers? && TypeId(m) == GIVE_MORE_PEERS_TYPE_ID
    ensures |m.vectors| <= 1
    ensures TruthyTimestamp(converted) <==> |m.vectors| == 1
    ensures TruthyTimestamp(converted) ==> m.vectors[0] == TimestampVector(converted.value)
    ensures converted.Some? ==> m.discoveredSinceTimestamp == Some(Num(converted.value))
    ensures converted.None? ==> m.discoveredSinceTimestamp.None?
  {
    match converted
    case None => GiveMorePeers(None, [])
    case Some(t) => GiveMorePeers(Some(Num(t)), if t != 0 then [TimestampVector(t)] else [])
  }

  /** `decodeVectors`: the first vector's value if there is one, else unchanged. */
  function DecodeGiveMorePeers(m: Message): (r: Message)
    requires m.GiveMorePeers?
    ensures r.GiveMorePeers? && r.vectors == m.vectors
    ensures |m.vectors| == 0 ==> r == m
    ensures |m.vectors| > 0 ==> r.discoveredSinceTimestamp == Some(ToValue(m.vectors[0]))
  {
    if |m.vectors| > 0 then m.(discoveredSinceTimestamp := Some(ToValue(m.vectors[0]))) else m
  }

  /**
   * Decoding a built request restores its since-timestamp when it was truthy;
   * otherwise the receiver sees no since-timestamp at all.
   */
  lemma GiveMorePeersDecodeRoundTrip(converted: Option<nat>)
    ensures TruthyTimestamp(converted) ==>
      DecodeGiveMorePeers(NewGiveMorePeers(converted)) == NewGiveMorePeers(converted)
    ensures !TruthyTimestamp(converted) ==>
      DecodeGiveMorePeers(NewGiveMorePeers(converted)).vectors == []
  {
  }

  // ---------------------------------------------------------------------------
  // HereArePeers

  /**
   * A response is its timestamp vector followed by one vector per peer, in the
   * order given; a timestamp that converts to nothing or to zero throws.
   */
  method NewHereArePeers(converted: Option<nat>, peers: seq<PeerAddress>) returns (r: Result<Message>)
    ensures r.Success? <==> TruthyTimestamp(converted)
    ensures r.Success? ==> r.value.HereArePeers? && r.value.timestamp == Num(converted.value)
    ensures r.Success? ==> r.value.vectors == [TimestampVector(converted.value)] + AddressVectors(peers)
    ensures r.Success? ==> PeerAddressesOf(r.value) == AddressVectors(peers)
  {
    if !TruthyTimestamp(converted) {
      return Failure("Something is wrong. timestamp is required for HereArePeers");
    }
    var vectors := [TimestampVector(converted.value)];
    var i := 0;
    while i < |peers|
      invariant 0 <= i <= |peers|
      invariant vectors == [TimestampVector(converted.value)] + AddressVectors(peers[..i])
    {
      AddressVectorsAppend(peers[..i], peers[i]);
      assert peers[..i + 1] == peers[..i] + [peers[i]];
      vectors := vectors + [AddressVector(peers[i])];
      i := i + 1;
    }
    assert peers[..|peers|] == peers;
    r := Success(HereArePeers(Num(converted.value), vectors));
  }

  lemma {:induction false} AddressVectorsAppend(peers: seq<PeerAddress>, p: PeerAddress)
    ensures AddressVectors(peers + [p]) == AddressVectors(peers) + [AddressVector(p)]
  {
  }

  /** `peerAddresses`: every vector after the first, or none. */
  function PeerAddressesOf(m: Message): (r: seq<Vector>)
    requires m.HereArePeers?
    ensures |m.vectors| > 1 ==> r == m.vectors[1..]
    ensures |m.vectors| <= 1 ==> r == []
    ensures |r| == if |m.vectors| > 0 then |m.vectors| - 1 else 0
  {
    if |m.vectors| > 1 then m.vectors[1..] else []
  }

  /** `decodeVectors`: the timestamp is the first vector's value if there is one. */
  function DecodeHereArePeers(m: Message): (r: Message)
    requires m.HereArePeers?
    ensures r.HereArePeers? && r.vectors == m.vectors
    ensures |m.vectors| == 0 ==> r == m
    ensures |m.vectors| > 0 ==> r.timestamp == ToValue(m.vectors[0])
  {
    if |m.vectors| > 0 then m.(timestamp := ToValue(m.vectors[0])) else m
  }

  /** A built response decodes to itself, so its timestamp and peer list survive. */
  lemma HereArePeersDecodeRoundTrip(t: nat, peers: seq<PeerAddress>)
    ensures var m := HereArePeers(Num(t), [TimestampVector(t)] + AddressVectors(peers));
      DecodeHereArePeers(m) == m && PeerAddressesOf(DecodeHereArePeers(m)) == AddressVectors(peers)
  {
  }
}
