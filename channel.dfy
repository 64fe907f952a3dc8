/**
 * A peer channel: one connection, its handshake handler, and once the handshake
 * is done the liveness and discovery handlers. Each incoming frame is decoded,
 * recorded as activity, dispatched to the handler of its message type and
 * reported.
 */
module Channel {
  import opened Wrappers
  import opened Addresses
  import opened Vectors
  import opened Messages
  import opened Environment
  import opened Events
  import opened Handshake
  import opened Liveness
  import opened Discovery

  /** Everything of a channel that a message can change. */
  datatype ChannelView = ChannelView(
    handshake: HandshakeState,
    declared: Option<PeerAddress>,
    peerAddress: PeerAddress,
    awaiting: bool,
    toBeClosed: bool,
    pending: map<Value, nat>,
    timeouts: map<Value, nat>,
    discoveredSince: Value,
    active: bool,
    ticking: bool)

  /** What a channel consults while reacting: its configuration and the registry's answer. */
  datatype ChannelEnv = ChannelEnv(
    pingTimeout: nat,
    toTimestamp: (Value, bool) -> Option<nat>,
    discoveryResponse: Option<Value> -> DiscoveryData,
    now: nat)

  /** The new view, the messages sent, the events fired and whether a close was requested. */
  datatype Reaction = Reaction(view: ChannelView, sent: seq<Message>, fired: seq<Event>, closeRequested: bool)

  /** The handler state of a channel that has no handlers yet, or has fresh ones. */
  function Unhandled(v: ChannelView): ChannelView {
    v.(pending := map[], timeouts := map[], discoveredSince := Num(0), active := true, ticking := false)
  }

  /** The views a well-formed channel can be in. */
  ghost predicate Coherent(v: ChannelView, pingTimeout: nat) {
    && (v.handshake.received <==> v.declared.Some?)
    && (Done(v.handshake) ==> !v.awaiting)
    && (!Done(v.handshake) ==> v == Unhandled(v))
    && v.timeouts.Keys == v.pending.Keys
    && (forall n :: n in v.pending ==> v.timeouts[n] == v.pending[n] + pingTimeout)
  }

  /** No handler listens: the message is only announced. */
  function Quiet(v: ChannelView, m: Message): Reaction {
    Reaction(v, [], [Typed(m), MessageReceived(m)], false)
  }

  /**
   * The channel's reaction to one decoded message. Before the handshake is done
   * only the handshake handler listens; the first success sets up the other two
   * handlers, which ask for peers straight away. A response that cannot be built
   * aborts the dispatch before the message is announced.
   */
  function React(v: ChannelView, m: Message, env: ChannelEnv): Reaction {
    match m
    case Handshake(declared) =>
      var (h, success) := Step(v.handshake, ReceiveInput);
      var received := v.(handshake := h, declared := Some(declared));
      if success then
        var address := Corrected(v.peerAddress, declared);
        var ready := Unhandled(received).(peerAddress := address, awaiting := false, ticking := true);
        Reaction(ready, [Request(env.toTimestamp, Num(0))],
                 [Typed(m), HandshakeSuccess(address), MessageReceived(m)], false)
      else
        Quiet(received, m)
    case Ping(nonce, vectors) =>
      if !Done(v.handshake) then Quiet(v, m)
      else Reaction(v, [NewPong(FirstVector(vectors))], [Typed(m), PingReceived(nonce), MessageReceived(m)], false)
    case Pong(nonce, _) =>
      if !Done(v.handshake) || !Matches(m, v.pending) then Quiet(v, m)
      else
        var n := nonce.value;
        Reaction(v.(pending := v.pending - {n}, timeouts := v.timeouts - {n}), [],
                 [Typed(m), PongReceived(n, env.now - v.pending[n]), MessageReceived(m)], false)
    case GiveMorePeers(since, _) =>
      if !Done(v.handshake) then Quiet(v, m)
      else
        var answer := Answer(env.toTimestamp, env.discoveryResponse(since));
        if answer.None? then Reaction(v, [], [Typed(m)], false)
        else Reaction(v, answer.value, [Typed(m), AskedForPeers, MessageReceived(m)], v.toBeClosed)
    case HereArePeers(timestamp, _) =>
      if !Done(v.handshake) then Quiet(v, m)
      else Reaction(v.(discoveredSince := timestamp), [],
                    [Typed(m), PeersDiscovered(PeerAddressesOf(m)), MessageReceived(m)], false)
  }

  /** The number of handshake successes among some events. */
  function Successes(events: seq<Event>): (n: nat)
    ensures n <= |events|
  {
    if events == [] then 0
    else Successes(events[..|events| - 1]) + (if events[|events| - 1].HandshakeSuccess? then 1 else 0)
  }

  lemma {:induction false} SuccessesAppend(a: seq<Event>, b: seq<Event>)
    ensures Successes(a + b) == Successes(a) + Successes(b)
  {
    if b == [] {
      assert a + b == a;
    } else {
      assert (a + b)[..|a + b| - 1] == a + b[..|b| - 1];
      SuccessesAppend(a, b[..|b| - 1]);
    }
  }

  lemma {:induction false} NoSuccesses(events: seq<Event>)
    requires forall k :: 0 <= k < |events| ==> !events[k].HandshakeSuccess?
    ensures Successes(events) == 0
  {
    if events != [] {
      NoSuccesses(events[..|events| - 1]);
    }
  }

  // ---------------------------------------------------------------------------
  // Properties of the reaction

  /** A reaction keeps a coherent view coherent. */
  lemma ReactPreservesCoherence(v: ChannelView, m: Message, env: ChannelEnv)
    requires Coherent(v, env.pingTimeout)
    ensures Coherent(React(v, m, env).view, env.pingTimeout)
  {
  }

  /**
   * A channel succeeds at most once: exactly when a message completes the
   * handshake, which only a handshake message does and which ends the wait for it;
   * afterwards the channel stays done and its connection's address stays fixed.
   */
  lemma ReactSucceedsOnce(v: ChannelView, m: Message, env: ChannelEnv)
    ensures Successes(React(v, m, env).fired) == (if !Done(v.handshake) && Done(React(v, m, env).view.handshake) then 1 else 0)
    ensures Successes(React(v, m, env).fired) == 1 ==> m.Handshake? && !React(v, m, env).view.awaiting
    ensures Done(v.handshake) ==> Done(React(v, m, env).view.handshake)
    ensures Done(v.handshake) ==> React(v, m, env).view.peerAddress == v.peerAddress
  {
    var r := React(v, m, env);
    if m.Handshake? && !Done(v.handshake) && Done(r.view.handshake) {
      assert r.fired == [Typed(m), HandshakeSuccess(r.view.peerAddress), MessageReceived(m)];
      assert r.fired[..2] == [Typed(m), HandshakeSuccess(r.view.peerAddress)];
      assert r.fired[..2][..1] == [Typed(m)];
      NoSuccesses([Typed(m)]);
    } else {
      NoSuccesses(r.fired);
    }
  }

  /** Building the response to this request throws, which ends the dispatch. */
  predicate Aborts(v: ChannelView, m: Message, env: ChannelEnv) {
    Done(v.handshake) && m.GiveMorePeers? && Answer(env.toTimestamp, env.discoveryResponse(m.discoveredSinceTimestamp)).None?
  }

  /**
   * Every message is announced twice, by its type first and as a message last,
   * unless the dispatch aborts, which leaves the channel as it was.
   */
  lemma ReactAnnounces(v: ChannelView, m: Message, env: ChannelEnv)
    ensures var r := React(v, m, env); |r.fired| >= 1 && r.fired[0] == Typed(m)
    ensures !Aborts(v, m, env) ==> var r := React(v, m, env); |r.fired| >= 2 && r.fired[|r.fired| - 1] == MessageReceived(m)
    ensures Aborts(v, m, env) ==> React(v, m, env) == Reaction(v, [], [Typed(m)], false)
  {
  }

  /** Until the handshake is done, other messages change nothing and send nothing. */
  lemma ReactBeforeHandshake(v: ChannelView, m: Message, env: ChannelEnv)
    requires !Done(v.handshake) && !m.Handshake?
    ensures React(v, m, env) == Quiet(v, m)
  {
  }

  /**
   * On a channel whose wait for the handshake lasts exactly until the handshake is
   * done, that stays so, and one success fired is one channel that stopped waiting.
   */
  lemma ReactTracksAwaiting(v: ChannelView, m: Message, env: ChannelEnv)
    requires v.awaiting == !Done(v.handshake)
    ensures React(v, m, env).view.awaiting == !Done(React(v, m, env).view.handshake)
    ensures Successes(React(v, m, env).fired) == (if v.awaiting && !React(v, m, env).view.awaiting then 1 else 0)
  {
    ReactSucceedsOnce(v, m, env);
  }

  /** A channel marked for closing asks to close exactly when it answers a request. */
  lemma ReactClosesAfterAnswering(v: ChannelView, m: Message, env: ChannelEnv)
    ensures React(v, m, env).closeRequested <==> v.toBeClosed && AskedForPeers in React(v, m, env).fired
  {
  }

  /**
   * A ping from one handshaken channel, answered by another, completes at the first:
   * the pong reports the same nonce with the elapsed time and clears it.
   */
  lemma ChannelsPingRoundTrip(a: ChannelView, b: ChannelView, nonceOption: Option<string>, sentAt: nat,
                              envA: ChannelEnv, envB: ChannelEnv)
    requires Done(a.handshake) && Done(b.handshake)
    ensures var ping := NewPing(nonceOption, sentAt);
      var waiting := a.(pending := a.pending[ping.nonce := sentAt],
                       timeouts := a.timeouts[ping.nonce := sentAt + envA.pingTimeout]);
      var answered := React(b, DecodePing(ping).value, envB);
      var pong := DecodePong(answered.sent[0]).value;
      && answered.fired == [Typed(ping), PingReceived(ping.nonce), MessageReceived(ping)]
      && React(waiting, pong, envA).fired
         == [Typed(pong), PongReceived(ping.nonce, envA.now - sentAt), MessageReceived(pong)]
      && React(waiting, pong, envA).view.pending == a.pending - {ping.nonce}
  {
    PingDecodeRoundTrip(nonceOption, sentAt);
    PongEchoesNewPing(nonceOption, sentAt);
  }

  /**
   * Two channels that have each sent their handshake and receive the other's both
   * succeed, each adopting the address the other declared where it may.
   */
  lemma ChannelsHandshake(a: ChannelView, b: ChannelView, localA: PeerAddress, localB: PeerAddress,
                          envA: ChannelEnv, envB: ChannelEnv)
    requires a.handshake == HandshakeState(true, false) && b.handshake == HandshakeState(true, false)
    ensures var ra := React(a, Handshake(localB), envA);
      && Done(ra.view.handshake) && HandshakeSuccess(Corrected(a.peerAddress, localB)) in ra.fired
      && ra.view.peerAddress == Corrected(a.peerAddress, localB) && !ra.view.awaiting
      && ra.sent == [Request(envA.toTimestamp, Num(0))]
    ensures var rb := React(b, Handshake(localA), envB);
      && Done(rb.view.handshake) && HandshakeSuccess(Corrected(b.peerAddress, localA)) in rb.fired
      && rb.view.peerAddress == Corrected(b.peerAddress, localA) && !rb.view.awaiting
      && rb.sent == [Request(envB.toTimestamp, Num(0))]
  {
  }

  // ---------------------------------------------------------------------------
  // The channel object

  class PeerChannel {
    const conn: Connection
    const registry: Registry
    const localPeerAddress: PeerAddress
    const pingTimeout: nat
    /** Frame decoding, malformed frames included; its code is not part of this model. */
    const decode: seq<byte> -> Option<Message>
    const toTimestamp: (Value, bool) -> Option<nat>
    const handshaker: Handshaker
    /** Whether the network counts this channel as waiting for its handshake. */
    var awaitingForHandshake: bool
    var toBeClosed: bool
    var pingponger: PingPonger?
    var discoverer: PeersDiscoverer?

    /** The objects are wired together, whatever the handshake's progress. */
    ghost predicate Wired()
      reads this, conn, handshaker, pingponger, discoverer
    {
      && handshaker.conn == conn && handshaker.localPeerAddress == localPeerAddress && handshaker.Valid()
      && (pingponger != null ==>
            pingponger.conn == conn && pingponger.pingTimeout == pingTimeout && pingponger.Valid())
      && (discoverer != null ==>
            discoverer.conn == conn && discoverer.registry == registry && discoverer.toTimestamp == toTimestamp)
    }

    /** The handlers stay the same objects once they exist, and new ones are new objects. */
    twostate predicate HandlersKept()
      reads this
    {
      && (old(pingponger) != null ==> pingponger == old(pingponger))
      && (old(pingponger) == null && pingponger != null ==> fresh(pingponger))
      && (old(discoverer) != null ==> discoverer == old(discoverer))
      && (old(discoverer) == null && discoverer != null ==> fresh(discoverer))
    }

    /** The handlers exist exactly once the handshake is done, and then nothing awaits it. */
    ghost predicate Valid()
      reads this, conn, handshaker, pingponger, discoverer
    {
      && Wired()
      && (pingponger != null <==> Done(handshaker.State()))
      && (discoverer != null <==> Done(handshaker.State()))
      && (Done(handshaker.State()) ==> !awaitingForHandshake)
    }

    function View(): ChannelView
      reads this, conn, handshaker, pingponger, discoverer
    {
      ChannelView(
        handshaker.State(), handshaker.peerAddress, conn.peerAddress, awaitingForHandshake, toBeClosed,
        if pingponger != null then pingponger.sentTimestamps else map[],
        if pingponger != null then pingponger.timeouts else map[],
        if discoverer != null then discoverer.discoveredSince else Num(0),
        if discoverer != null then discoverer.active else true,
        if discoverer != null then discoverer.ticking else false)
    }

    /** The reaction's environment: the registry's discovery answer as it is now. */
    function Env(now: nat): ChannelEnv
      reads registry
    {
      ChannelEnv(pingTimeout, toTimestamp, registry.discoveryResponse, now)
    }

    /** A new channel starts its handshake by sending the local one. */
    constructor (conn: Connection, registry: Registry, localPeerAddress: PeerAddress, pingTimeout: nat,
                 decode: seq<byte> -> Option<Message>, toTimestamp: (Value, bool) -> Option<nat>,
                 awaitingForHandshake: bool)
      modifies conn
      ensures Valid() && fresh(handshaker)
      ensures this.conn == conn && this.registry == registry && this.localPeerAddress == localPeerAddress
      ensures this.pingTimeout == pingTimeout && this.decode == decode && this.toTimestamp == toTimestamp
      ensures View() == Unhandled(View()) && View().handshake == HandshakeState(true, false)
      ensures View().declared.None? && View().peerAddress == old(conn.peerAddress)
      ensures View().awaiting == awaitingForHandshake && !View().toBeClosed
      ensures Coherent(View(), pingTimeout)
      ensures conn.sent == old(conn.sent) + [Handshake(localPeerAddress)]
      ensures conn.closeRequests == old(conn.closeRequests) && conn.banRequests == old(conn.banRequests)
    {
      this.conn, this.registry, this.localPeerAddress, this.pingTimeout := conn, registry, localPeerAddress, pingTimeout;
      this.decode, this.toTimestamp := decode, toTimestamp;
      var h := new Handshaker(conn, localPeerAddress);
      this.handshaker := h;
      this.awaitingForHandshake := awaitingForHandshake;
      toBeClosed := false;
      pingponger, discoverer := null, null;
      new;
      var success := handshaker.Handle();
    }

    /** Take over the port, host and ssl the remote declared, where allowed. */
    method UpdateRemotePeerAddress(declared: PeerAddress)
      modifies conn
      ensures conn.peerAddress == Corrected(old(conn.peerAddress), declared)
      ensures conn.sent == old(conn.sent) && conn.closeRequests == old(conn.closeRequests)
      ensures conn.banRequests == old(conn.banRequests)
    {
      conn.peerAddress := Corrected(conn.peerAddress, declared);
    }

    /** The handshake just completed: set up liveness and discovery and report it. */
    method OnHandshakeSuccess() returns (fired: seq<Event>)
      requires Wired() && Done(handshaker.State()) && handshaker.peerAddress.Some?
      requires pingponger == null && discoverer == null
      modifies this, conn
      ensures Valid() && HandlersKept()
      ensures View() == Unhandled(old(View())).(peerAddress := Corrected(old(conn.peerAddress), handshaker.peerAddress.value),
                                                 awaiting := false, ticking := true)
      ensures conn.sent == old(conn.sent) + [Request(toTimestamp, Num(0))]
      ensures conn.closeRequests == old(conn.closeRequests) && conn.banRequests == old(conn.banRequests)
      ensures fired == [HandshakeSuccess(conn.peerAddress)]
    {
      UpdateRemotePeerAddress(handshaker.peerAddress.value);
      awaitingForHandshake := false;
      var p := new PingPonger(conn, pingTimeout);
      pingponger := p;
      p.Handle();
      var d := new PeersDiscoverer(conn, registry, toTimestamp);
      discoverer := d;
      d.Handle();
      fired := [HandshakeSuccess(conn.peerAddress)];
    }

    /**
     * One frame from the connection: a frame that does not decode bans the peer;
     * any other is recorded as activity of the connection's address and then
     * handled as its reaction says.
     */
    method OnMessage(raw: seq<byte>, now: nat) returns (fired: seq<Event>)
      requires Valid()
      modifies this, conn, handshaker, pingponger, discoverer, registry
      ensures Valid() && HandlersKept()
      ensures decode(raw).None? ==>
        && View() == old(View()) && fired == [] && conn.sent == old(conn.sent)
        && conn.banRequests == old(conn.banRequests) + 1 && conn.closeRequests == old(conn.closeRequests)
        && registry.calls == old(registry.calls)
      ensures decode(raw).Some? ==>
        && Reacted(decode(raw).value, now, fired)
        && registry.calls == old(registry.calls) + [BumpActivity(old(conn.peerAddress))]
    {
      var decoded := decode(raw);
      if decoded.None? {
        Ban();
        return [];
      }
      registry.Record(BumpActivity(conn.peerAddress));
      fired := Dispatch(decoded.value, now);
    }

    /** The handlers listening for the type of `m` run. */
    method Dispatch(m: Message, now: nat) returns (fired: seq<Event>)
      requires Valid()
      modifies this, conn, handshaker, pingponger, discoverer
      ensures Valid() && HandlersKept() && Reacted(m, now, fired)
    {
      match m {
        case Handshake(_) => fired := ReceiveHandshake(m, now);
        case Ping(_, _) => fired := ReceivePing(m, now);
        case Pong(_, _) => fired := ReceivePong(m, now);
        case GiveMorePeers(_, _) => fired := ReceiveGiveMorePeers(m, now);
        case HereArePeers(_, _) => fired := ReceiveHereArePeers(m, now);
      }
    }

    /** The channel reacted to `m` as `React` says, and fired `fired`. */
    twostate predicate Reacted(m: Message, now: nat, fired: seq<Event>)
      reads this, conn, handshaker, pingponger, discoverer, registry
    {
      var r := React(old(View()), m, Env(now));
      && View() == r.view && fired == r.fired && conn.sent == old(conn.sent) + r.sent
      && conn.closeRequests == old(conn.closeRequests) + (if r.closeRequested then 1 else 0)
      && conn.banRequests == old(conn.banRequests)
    }

    /** The handshake handler takes the remote's handshake; the first success sets up the rest. */
    method ReceiveHandshake(m: Message, now: nat) returns (fired: seq<Event>)
      requires Valid() && m.Handshake?
      modifies this, conn, handshaker
      ensures Valid() && HandlersKept() && Reacted(m, now, fired)
    {
      var success := handshaker.OnHandshakeReceived(m.peerAddress);
      fired := [Typed(m)];
      if success {
        var e := OnHandshakeSuccess();
        fired := fired + e;
      }
      fired := fired + [MessageReceived(m)];
    }

    /** Once the handshake is done, a ping is answered with a pong. */
    method ReceivePing(m: Message, now: nat) returns (fired: seq<Event>)
      requires Valid() && m.Ping?
      modifies conn
      ensures Valid() && Reacted(m, now, fired)
    {
      fired := [Typed(m)];
      if pingponger != null {
        var e := pingponger.OnPingReceived(m);
        fired := fired + e;
      }
      fired := fired + [MessageReceived(m)];
    }

    /** Once the handshake is done, a pong settles the ping it answers. */
    method ReceivePong(m: Message, now: nat) returns (fired: seq<Event>)
      requires Valid() && m.Pong?
      modifies pingponger
      ensures Valid() && Reacted(m, now, fired)
    {
      fired := [Typed(m)];
      if pingponger != null {
        var e := pingponger.OnPongReceived(m, now);
        fired := fired + e;
      }
      fired := fired + [MessageReceived(m)];
    }

    /**
     * Once the handshake is done, a request for peers is answered; an answer that
     * cannot be built ends the dispatch, and a channel kept only for this closes.
     */
    method ReceiveGiveMorePeers(m: Message, now: nat) returns (fired: seq<Event>)
      requires Valid() && m.GiveMorePeers?
      modifies conn
      ensures Valid() && Reacted(m, now, fired)
    {
      fired := [Typed(m)];
      if discoverer != null {
        var e, threw := discoverer.OnPeersAsked(m);
        if threw {
          return;
        }
        fired := fired + e;
        if toBeClosed {
          Close();
        }
      }
      fired := fired + [MessageReceived(m)];
    }

    /** Once the handshake is done, a response moves the discovery watermark. */
    method ReceiveHereArePeers(m: Message, now: nat) returns (fired: seq<Event>)
      requires Valid() && m.HereArePeers?
      modifies discoverer
      ensures Valid() && Reacted(m, now, fired)
    {
      fired := [Typed(m)];
      if discoverer != null {
        var e := discoverer.OnPeersReceived(m);
        fired := fired + e;
      }
      fired := fired + [MessageReceived(m)];
    }

    function Inbound(): bool {
      conn.inbound
    }

    /** A channel is outbound exactly when it is not inbound. */
    function Outbound(): (r: bool)
      ensures r != Inbound()
    {
      !conn.inbound
    }

    /** Keep the channel only until it has answered one request for peers. */
    method AwaitForDiscoveryAndClose()
      requires Valid()
      modifies this
      ensures Valid() && pingponger == old(pingponger) && discoverer == old(discoverer)
      ensures View() == old(View()).(toBeClosed := true)
    {
      toBeClosed := true;
    }

    method Close()
      modifies conn
      ensures conn.closeRequests == old(conn.closeRequests) + 1
      ensures conn.sent == old(conn.sent) && conn.peerAddress == old(conn.peerAddress)
      ensures conn.banRequests == old(conn.banRequests)
    {
      conn.Close();
    }

    method Ban()
      modifies conn
      ensures conn.banRequests == old(conn.banRequests) + 1
      ensures conn.sent == old(conn.sent) && conn.peerAddress == old(conn.peerAddress)
      ensures conn.closeRequests == old(conn.closeRequests)
    {
      conn.Ban();
    }

    /** Ping the remote; before the handshake there is no handler and the call fails. */
    method Ping(nonceOption: Option<string>, now: nat) returns (ok: bool)
      requires Valid()
      modifies conn, pingponger
      ensures Valid()
      ensures ok <==> Done(old(View()).handshake)
      ensures !ok ==> View() == old(View()) && conn.sent == old(conn.sent)
      ensures ok ==>
        var ping := NewPing(nonceOption, now);
        && View() == old(View()).(pending := old(View()).pending[ping.nonce := now],
                                  timeouts := old(View()).timeouts[ping.nonce := now + pingTimeout])
        && conn.sent == old(conn.sent) + [ping]
    {
      ok := pingponger != null;
      if ok {
        var nonce := pingponger.Ping(nonceOption, now);
      }
    }

    /** Ask the remote for peers now; before the handshake the call fails. */
    method AskForMorePeers() returns (ok: bool)
      requires Valid()
      modifies conn
      ensures Valid()
      ensures ok <==> Done(old(View()).handshake)
      ensures View() == old(View())
      ensures conn.sent == old(conn.sent) + (if ok then [Request(toTimestamp, View().discoveredSince)] else [])
    {
      ok := discoverer != null;
      if ok {
        discoverer.AskForPeers();
      }
    }
  }
}
