/**
 * Peer discovery over one channel: ask the remote for the addresses it learned
 * since a watermark, answer the remote's requests from the registry, and adopt
 * the watermark each response carries.
 */
module Discovery {
  import opened Wrappers
  import opened Addresses
  import opened Vectors
  import opened Messages
  import opened Environment
  import opened Events

  /** The request asking for every address discovered after `since`. */
  function Request(toTimestamp: (Value, bool) -> Option<nat>, since: Value): (m: Message)
    ensures m.GiveMorePeers?
    ensures TruthyTimestamp(toTimestamp(since, false)) ==>
      m.vectors == [TimestampVector(toTimestamp(since, false).value)]
    ensures !TruthyTimestamp(toTimestamp(since, false)) ==> m.vectors == []
  {
    NewGiveMorePeers(toTimestamp(since, false))
  }

  /**
   * What answering a request sends: nothing when the registry has no addresses,
   * the response otherwise; `None` when building the response throws.
   */
  function Answer(toTimestamp: (Value, bool) -> Option<nat>, data: DiscoveryData): (r: Option<seq<Message>>)
    ensures |data.addresses| == 0 ==> r == Some([])
    ensures |data.addresses| > 0 ==> (r.None? <==> !TruthyTimestamp(toTimestamp(data.timestamp, true)))
    ensures r.Some? && |data.addresses| > 0 ==>
      var t := toTimestamp(data.timestamp, true).value;
      && r.value == [HereArePeers(Num(t), [TimestampVector(t)] + AddressVectors(data.addresses))]
      && PeerAddressesOf(r.value[0]) == AddressVectors(data.addresses)
  {
    if |data.addresses| == 0 then Some([])
    else if !TruthyTimestamp(toTimestamp(data.timestamp, true)) then None
    else
      var t := toTimestamp(data.timestamp, true).value;
      Some([HereArePeers(Num(t), [TimestampVector(t)] + AddressVectors(data.addresses))])
  }

  class PeersDiscoverer {
    const conn: Connection
    const registry: Registry
    /** The timestamp conversion the messages use. */
    const toTimestamp: (Value, bool) -> Option<nat>
    /** The watermark sent with the next request. */
    var discoveredSince: Value
    var active: bool
    /** Whether the periodic request has been armed. */
    var ticking: bool

    constructor (conn: Connection, registry: Registry, toTimestamp: (Value, bool) -> Option<nat>)
      ensures this.conn == conn && this.registry == registry && this.toTimestamp == toTimestamp
      ensures discoveredSince == Num(0) && active && !ticking
    {
      this.conn, this.registry, this.toTimestamp := conn, registry, toTimestamp;
      discoveredSince := Num(0);
      active, ticking := true, false;
    }

    /** Ask once now and arm the periodic request. */
    method Handle()
      modifies this, conn
      ensures conn.sent == old(conn.sent) + [Request(toTimestamp, discoveredSince)]
      ensures conn.peerAddress == old(conn.peerAddress) && conn.closeRequests == old(conn.closeRequests)
      ensures conn.banRequests == old(conn.banRequests)
      ensures ticking && active == old(active) && discoveredSince == old(discoveredSince)
    {
      AskForPeers();
      ticking := true;
    }

    /** One period of the armed interval: ask only while active. */
    method Tick()
      requires ticking
      modifies conn
      ensures conn.sent == old(conn.sent) + (if active then [Request(toTimestamp, discoveredSince)] else [])
      ensures conn.peerAddress == old(conn.peerAddress) && conn.closeRequests == old(conn.closeRequests)
      ensures conn.banRequests == old(conn.banRequests)
    {
      if active {
        AskForPeers();
      }
    }

    method Pause()
      modifies this
      ensures !active && ticking == old(ticking) && discoveredSince == old(discoveredSince)
    {
      active := false;
    }

    method Resume()
      modifies this
      ensures active && ticking == old(ticking) && discoveredSince == old(discoveredSince)
    {
      active := true;
    }

    /** Send a request carrying the current watermark. */
    method AskForPeers()
      modifies conn
      ensures conn.sent == old(conn.sent) + [Request(toTimestamp, discoveredSince)]
      ensures conn.peerAddress == old(conn.peerAddress) && conn.closeRequests == old(conn.closeRequests)
      ensures conn.banRequests == old(conn.banRequests)
    {
      var msg := NewGiveMorePeers(toTimestamp(discoveredSince, false));
      conn.Send(msg);
    }

    /**
     * Answer a request from the registry's discovery response; report it in every
     * case except when building the response throws, which ends the dispatch.
     */
    method OnPeersAsked(msg: Message) returns (fired: seq<Event>, threw: bool)
      requires msg.GiveMorePeers?
      modifies conn
      ensures var answer := Answer(toTimestamp, registry.discoveryResponse(msg.discoveredSinceTimestamp));
        && threw == answer.None?
        && conn.sent == old(conn.sent) + (if threw then [] else answer.value)
        && fired == (if threw then [] else [AskedForPeers])
      ensures conn.peerAddress == old(conn.peerAddress) && conn.closeRequests == old(conn.closeRequests)
      ensures conn.banRequests == old(conn.banRequests)
    {
      var data := registry.discoveryResponse(msg.discoveredSinceTimestamp);
      threw := false;
      if |data.addresses| > 0 {
        var resp := NewHereArePeers(toTimestamp(data.timestamp, true), data.addresses);
        if resp.Failure? {
          threw := true;
          return [], true;
        }
        conn.Send(resp.value);
      }
      fired := [AskedForPeers];
    }

    /** Adopt the response's watermark and report the addresses it carries. */
    method OnPeersReceived(msg: Message) returns (fired: seq<Event>)
      requires msg.HereArePeers?
      modifies this
      ensures discoveredSince == msg.timestamp
      ensures active == old(active) && ticking == old(ticking)
      ensures fired == [PeersDiscovered(PeerAddressesOf(msg))]
    {
      discoveredSince := msg.timestamp;
      fired := [PeersDiscovered(PeerAddressesOf(msg))];
    }
  }

  /**
   * One discovery round between a requester and a responder: the requester's first
   * request has watermark zero; the responder answers it from its registry; the
   * requester adopts the watermark of the response, reports the addresses, and its
   * next request carries that watermark.
   */
  method DiscoveryRound(toTimestamp: (Value, bool) -> Option<nat>, data: DiscoveryData,
                        requesterAddress: PeerAddress, responderAddress: PeerAddress)
    returns (firstRequest: Message, discovered: seq<Event>, nextRequest: Message)
    requires |data.addresses| > 0 && TruthyTimestamp(toTimestamp(data.timestamp, true))
    ensures firstRequest == Request(toTimestamp, Num(0))
    ensures discovered == [PeersDiscovered(AddressVectors(data.addresses))]
    ensures nextRequest == Request(toTimestamp, Num(toTimestamp(data.timestamp, true).value))
  {
    var toResponder := new Connection(responderAddress, false);
    var toRequester := new Connection(requesterAddress, true);
    var registry := new Registry(0, 0, 0, [], _ => [], _ => data, _ => false);
    var requester := new PeersDiscoverer(toResponder, registry, toTimestamp);
    var responder := new PeersDiscoverer(toRequester, registry, toTimestamp);
    requester.Handle();
    firstRequest := toResponder.sent[0];
    // On the wire the request carries only its vectors; the receiver decodes the watermark from them.
    var asked, threw := responder.OnPeersAsked(DecodeGiveMorePeers(firstRequest.(discoveredSinceTimestamp := None)));
    AnswerDecodesAtRequester(toTimestamp, data);
    var response := DecodeHereArePeers(toRequester.sent[0]);
    discovered := requester.OnPeersReceived(response);
    requester.AskForPeers();
    nextRequest := toResponder.sent[1];
  }

  /**
   * A response built by the answering side decodes, at the requester, to the
   * watermark and addresses the registry gave.
   */
  lemma AnswerDecodesAtRequester(toTimestamp: (Value, bool) -> Option<nat>, data: DiscoveryData)
    requires |data.addresses| > 0 && Answer(toTimestamp, data).Some?
    ensures var resp := DecodeHereArePeers(Answer(toTimestamp, data).value[0]);
      && resp.timestamp == Num(toTimestamp(data.timestamp, true).value)
      && PeerAddressesOf(resp) == AddressVectors(data.addresses)
  {
    var t := toTimestamp(data.timestamp, true).value;
    HereArePeersDecodeRoundTrip(t, data.addresses);
  }
}
