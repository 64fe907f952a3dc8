/**
 * The network orchestrator: admission of dials, bookkeeping of new and closed
 * connections, the periodic prune-and-dial cycle, and the count of channels
 * still waiting for their handshake, which together with the registry's active
 * count is what the connection limits are checked against.
 */
module PeerNetwork {
  import opened Wrappers
  import opened Addresses
  import opened Vectors
  import opened Messages
  import opened NetworkSettings
  import opened Environment
  import opened Events
  import opened Handshake
  import opened Channel

  // ---------------------------------------------------------------------------
  // Admission

  /** The dial admission check: refuse at the outbound limit or the total limit. */
  predicate DialRefused(limits: Limits, activeOutboundCount: nat, connectionsCount: int) {
    activeOutboundCount >= limits.outboundPeers || connectionsCount >= limits.peers
  }

  /**
   * An inbound connection is kept only to answer one discovery request when, with
   * it counted, the connections exceed the total limit, or the active inbound ones
   * exceed the inbound limit.
   */
  predicate OverInboundLimits(limits: Limits, inbound: bool, connectionsCount: int, activeInboundCount: nat) {
    inbound && (connectionsCount > limits.peers || activeInboundCount > limits.inboundPeers)
  }

  /** Both admission comparisons are strict: reaching a limit exactly is still admitted. */
  lemma AdmissionAtLimits(limits: Limits)
    ensures !OverInboundLimits(limits, true, limits.peers, limits.inboundPeers)
    ensures OverInboundLimits(limits, true, limits.peers + 1, 0)
    ensures OverInboundLimits(limits, true, 0, limits.inboundPeers + 1)
    ensures forall c: int, a: nat :: !OverInboundLimits(limits, false, c, a)
  {
  }

  /** A dial is refused at exactly the count at which an inbound one is still kept. */
  lemma DialRefusedAtTotalLimit(limits: Limits, activeOutboundCount: nat)
    requires activeOutboundCount < limits.outboundPeers
    ensures DialRefused(limits, activeOutboundCount, limits.peers)
    ensures !DialRefused(limits, activeOutboundCount, limits.peers - 1)
  {
  }

  // ---------------------------------------------------------------------------
  // What the network's listeners do with a channel's events

  /** The registry calls the network's listeners make for one event. */
  function ListenerCallsOf(e: Event): seq<RegistryCall> {
    match e
    case HandshakeSuccess(address) => [ActiveTo(address)]
    case PeersDiscovered(addresses) => [Discovered(addresses)]
    case _ => []
  }

  /** The registry calls the network's listeners make for a channel's events, in order. */
  function ListenerCalls(events: seq<Event>): (r: seq<RegistryCall>)
    ensures |r| <= |events|
  {
    if events == [] then []
    else ListenerCalls(events[..|events| - 1]) + ListenerCallsOf(events[|events| - 1])
  }

  lemma {:induction false} ListenerCallsAppend(a: seq<Event>, b: seq<Event>)
    ensures ListenerCalls(a + b) == ListenerCalls(a) + ListenerCalls(b)
  {
    if b == [] {
      assert a + b == a;
    } else {
      assert (a + b)[..|a + b| - 1] == a + b[..|b| - 1];
      ListenerCallsAppend(a, b[..|b| - 1]);
    }
  }

  /** The outcome of one dial attempt of the periodic cycle. */
  datatype DialOutcome = Refused | Declined | Dialing

  /** The addresses actually dialled. */
  function Dialled(addresses: seq<PeerAddress>, outcomes: seq<DialOutcome>): (r: seq<PeerAddress>)
    requires |outcomes| == |addresses|
    ensures |r| <= |addresses|
  {
    if addresses == [] then []
    else Dialled(addresses[..|addresses| - 1], outcomes[..|outcomes| - 1])
         + (if outcomes[|outcomes| - 1] == Dialing then [addresses[|addresses| - 1]] else [])
  }

  /** A dialled address is one of the candidates, and the dials keep their order. */
  lemma {:induction false} DialledFromCandidates(addresses: seq<PeerAddress>, outcomes: seq<DialOutcome>)
    requires |outcomes| == |addresses|
    ensures forall a :: a in Dialled(addresses, outcomes) ==> a in addresses
    ensures (forall k :: 0 <= k < |outcomes| ==> outcomes[k] == Dialing) ==> Dialled(addresses, outcomes) == addresses
    ensures (forall k :: 0 <= k < |outcomes| ==> outcomes[k] != Dialing) ==> Dialled(addresses, outcomes) == []
  {
    if addresses != [] {
      var n := |addresses| - 1;
      DialledFromCandidates(addresses[..n], outcomes[..n]);
      assert addresses[..n] + [addresses[n]] == addresses;
      forall a | a in Dialled(addresses[..n], outcomes[..n])
        ensures a in addresses
      {
        assert a in addresses[..n];
      }
    }
  }

  function ClosedCalls(addresses: seq<PeerAddress>): (r: seq<RegistryCall>)
    ensures |r| == |addresses|
    ensures forall k :: 0 <= k < |r| ==> r[k] == Closed(addresses[k])
  {
    if addresses == [] then [] else ClosedCalls(addresses[..|addresses| - 1]) + [Closed(addresses[|addresses| - 1])]
  }

  function ConnectingCalls(addresses: seq<PeerAddress>, outcomes: seq<DialOutcome>): (r: seq<RegistryCall>)
    requires |outcomes| == |addresses|
    ensures |r| == |Dialled(addresses, outcomes)|
    ensures forall k :: 0 <= k < |r| ==> r[k] == ConnectingTo(Dialled(addresses, outcomes)[k])
  {
    if addresses == [] then []
    else ConnectingCalls(addresses[..|addresses| - 1], outcomes[..|outcomes| - 1])
         + (if outcomes[|outcomes| - 1] == Dialing then [ConnectingTo(addresses[|addresses| - 1])] else [])
  }

  /** One more dial extends the dialled addresses and the connecting calls by that dial alone. */
  lemma DialStep(addresses: seq<PeerAddress>, j: nat, outcomes: seq<DialOutcome>, outcome: DialOutcome)
    requires j < |addresses| && |outcomes| == j
    ensures Dialled(addresses[..j + 1], outcomes + [outcome])
      == Dialled(addresses[..j], outcomes) + (if outcome == Dialing then [addresses[j]] else [])
    ensures ConnectingCalls(addresses[..j + 1], outcomes + [outcome])
      == ConnectingCalls(addresses[..j], outcomes) + (if outcome == Dialing then [ConnectingTo(addresses[j])] else [])
  {
    assert addresses[..j + 1][..j] == addresses[..j];
    assert (outcomes + [outcome])[..j] == outcomes;
  }

  // ---------------------------------------------------------------------------
  // The orchestrator

  ghost predicate NoDuplicates<T>(s: seq<T>) {
    forall i, j :: 0 <= i < j < |s| ==> s[i] != s[j]
  }

  /** The sequence with every occurrence of `x` dropped. */
  ghost function Without<T>(s: seq<T>, x: T): (r: seq<T>)
    ensures |r| <= |s|
  {
    if s == [] then [] else (if s[0] == x then [] else [s[0]]) + Without(s[1..], x)
  }

  /** The tail of a duplicate-free sequence is duplicate-free and misses the head. */
  lemma NoDuplicatesTail<T>(s: seq<T>)
    requires s != [] && NoDuplicates(s)
    ensures NoDuplicates(s[1..]) && s[0] !in s[1..]
  {
    forall i, j | 0 <= i < j < |s[1..]| ensures s[1..][i] != s[1..][j] {
      assert s[1..][i] == s[i + 1] && s[1..][j] == s[j + 1];
    }
    forall k | 0 <= k < |s[1..]| ensures s[1..][k] != s[0] {
      assert s[1..][k] == s[k + 1];
    }
  }

  /** Putting a new element in front of a duplicate-free sequence keeps it duplicate-free. */
  lemma NoDuplicatesCons<T>(a: T, r: seq<T>)
    requires a !in r && NoDuplicates(r)
    ensures NoDuplicates([a] + r)
  {
    forall i, j | 0 <= i < j < |[a] + r| ensures ([a] + r)[i] != ([a] + r)[j] {
      if i == 0 {
        assert ([a] + r)[j] == r[j - 1];
      } else {
        assert ([a] + r)[i] == r[i - 1] && ([a] + r)[j] == r[j - 1];
      }
    }
  }

  /** Dropping an element that occurs once shortens the sequence by one and keeps it free of duplicates. */
  lemma {:induction false} WithoutOne<T>(s: seq<T>, x: T)
    requires NoDuplicates(s)
    ensures forall y :: y in Without(s, x) <==> y in s && y != x
    ensures NoDuplicates(Without(s, x))
    ensures |Without(s, x)| == if x in s then |s| - 1 else |s|
  {
    if s != [] {
      NoDuplicatesTail(s);
      WithoutOne(s[1..], x);
      assert s == [s[0]] + s[1..];
      var r := Without(s[1..], x);
      if s[0] == x {
        assert Without(s, x) == r;
      } else {
        assert Without(s, x) == [s[0]] + r;
        NoDuplicatesCons(s[0], r);
      }
    }
  }

  /** A channel of this network, counted exactly while it waits for its handshake. */
  ghost predicate Member(c: PeerChannel, registry: Registry, decode: seq<byte> -> Option<Message>,
                         toTimestamp: (Value, bool) -> Option<nat>, counted: bool)
    reads c
  {
    && c.registry == registry && c.decode == decode && c.toTimestamp == toTimestamp
    && c.awaitingForHandshake == counted
  }

  /** A channel ready for its next frame: valid, and waiting exactly until its handshake is done. */
  ghost predicate Ready(c: PeerChannel)
    reads c, c.conn, c.handshaker, c.pingponger, c.discoverer
  {
    c.Valid() && c.awaitingForHandshake == !Done(c.handshaker.State())
  }

  class Network {
    /** The effective settings; they are a mutable record. */
    var settings: Settings
    const localPeerAddress: PeerAddress
    const registry: Registry
    const socket: LocalSocket
    const decode: seq<byte> -> Option<Message>
    const toTimestamp: (Value, bool) -> Option<nat>
    var awaitingForHandshakeCount: int
    /** Traffic of the channels closed so far. */
    var bytesSent: nat
    var bytesReceived: nat
    /** The channels whose connection is open. */
    ghost var open: set<PeerChannel>
    /** The open channels still waiting for their handshake. */
    ghost var awaiting: seq<PeerChannel>

    /** Every open channel belongs to this network, and those still waiting are the ones counted. */
    ghost predicate Structure()
      reads this, open
    {
      && NoDuplicates(awaiting) && (forall c :: c in awaiting ==> c in open)
      && (forall c :: c in open ==> Member(c, registry, decode, toTimestamp, c in awaiting))
    }

    /** The awaiting counter is the number of open channels still waiting for their handshake. */
    ghost predicate Valid()
      reads this, open
    {
      Structure() && awaitingForHandshakeCount == |awaiting|
    }

    function ConnectionsCount(): int
      reads this, registry
    {
      registry.activeCount + awaitingForHandshakeCount
    }

    /**
     * Under the invariant the connection count is the registry's active count plus
     * the number of open channels still waiting for their handshake.
     */
    lemma CountsAwaitingChannels()
      requires Valid()
      ensures ConnectionsCount() == registry.activeCount + |awaiting|
      ensures forall c :: c in awaiting <==> c in open && c.awaitingForHandshake
    {
    }

    constructor (options: Options, localPeerAddress: PeerAddress, registry: Registry, socket: LocalSocket,
                 decode: seq<byte> -> Option<Message>, toTimestamp: (Value, bool) -> Option<nat>)
      ensures Valid() && open == {}
      ensures settings == FromOptions(options) && this.localPeerAddress == localPeerAddress
      ensures this.registry == registry && this.socket == socket
      ensures this.decode == decode && this.toTimestamp == toTimestamp
      ensures awaitingForHandshakeCount == 0 && bytesSent == 0 && bytesReceived == 0
    {
      settings := FromOptions(options);
      this.localPeerAddress, this.registry, this.socket := localPeerAddress, registry, socket;
      this.decode, this.toTimestamp := decode, toTimestamp;
      awaitingForHandshakeCount := 0;
      bytesSent, bytesReceived := 0, 0;
      open, awaiting := {}, [];
    }

    /**
     * Dial an address unless a limit is reached; the registry learns of the dial
     * only when the socket started it.
     */
    method Connect(address: PeerAddress) returns (outcome: DialOutcome)
      modifies registry, socket
      ensures outcome == Refused <==>
        DialRefused(settings.limits, old(registry.activeOutboundCount), old(ConnectionsCount()))
      ensures socket.dials == old(socket.dials) + (if outcome == Dialing then [address] else [])
      ensures registry.calls == old(registry.calls) + (if outcome == Dialing then [ConnectingTo(address)] else [])
      ensures outcome != Dialing ==>
        registry.activeOutboundCount == old(registry.activeOutboundCount) && registry.activeCount == old(registry.activeCount)
      ensures outcome == Refused ==> unchanged(registry) && unchanged(socket)
      ensures outcome == Declined ==> unchanged(registry)
    {
      if DialRefused(settings.limits, registry.activeOutboundCount, ConnectionsCount()) {
        return Refused;
      }
      var accepted := socket.Connect(address);
      if accepted {
        registry.Record(ConnectingTo(address));
        outcome := Dialing;
      } else {
        outcome := Declined;
      }
    }

    /** A connection attempt failed. */
    method OnError(address: PeerAddress)
      modifies registry
      ensures registry.calls == old(registry.calls) + [FailedToCommunicateWith(address)]
    {
      registry.Record(FailedToCommunicateWith(address));
    }

    /**
     * The periodic cycle: close every peer silent since the activity timeout, then,
     * unless the active count has reached the limit, dial every available address
     * through the admission check.
     */
    method ConnectToMorePeers(now: int)
      returns (falling: seq<PeerAddress>, dialling: bool, available: seq<PeerAddress>, outcomes: seq<DialOutcome>)
      modifies registry, socket
      ensures falling == old(registry.fallingPeerAddresses)(now - settings.timeouts.waitingForActivity)
      ensures dialling <==> old(registry.activeCount) < settings.limits.peers
      ensures !dialling ==> available == [] && outcomes == []
      ensures dialling ==> available == old(registry.availablePeerAddresses)
      ensures |outcomes| == |available|
      ensures registry.calls == old(registry.calls) + ClosedCalls(falling) + ConnectingCalls(available, outcomes)
      ensures socket.dials == old(socket.dials) + Dialled(available, outcomes)
      ensures DialRefused(settings.limits, old(registry.activeOutboundCount), old(ConnectionsCount())) ==>
        forall k :: 0 <= k < |outcomes| ==> outcomes[k] == Refused
      ensures (dialling && |outcomes| > 0
               && !DialRefused(settings.limits, old(registry.activeOutboundCount), old(ConnectionsCount())))
        ==> outcomes[0] != Refused
    {
      var minActivityTimestamp := now - settings.timeouts.waitingForActivity;
      falling := registry.fallingPeerAddresses(minActivityTimestamp);
      CloseAll(falling);
      if registry.activeCount >= settings.limits.peers {
        return falling, false, [], [];
      }
      dialling := true;
      available := registry.availablePeerAddresses;
      outcomes := ConnectAll(available);
    }

    /** Close each of the addresses through the registry, which changes none of its answers. */
    method CloseAll(addresses: seq<PeerAddress>)
      modifies registry
      ensures registry.calls == old(registry.calls) + ClosedCalls(addresses)
      ensures registry.activeCount == old(registry.activeCount)
      ensures registry.activeOutboundCount == old(registry.activeOutboundCount)
      ensures registry.availablePeerAddresses == old(registry.availablePeerAddresses)
    {
      var i := 0;
      while i < |addresses|
        invariant 0 <= i <= |addresses|
        invariant registry.calls == old(registry.calls) + ClosedCalls(addresses[..i])
        invariant registry.activeCount == old(registry.activeCount)
        invariant registry.activeOutboundCount == old(registry.activeOutboundCount)
        invariant registry.availablePeerAddresses == old(registry.availablePeerAddresses)
      {
        assert addresses[..i + 1][..i] == addresses[..i];
        registry.Close(addresses[i]);
        i := i + 1;
      }
      assert addresses[..|addresses|] == addresses;
    }

    /** Dial each of the addresses through the admission check, in order. */
    method ConnectAll(addresses: seq<PeerAddress>) returns (outcomes: seq<DialOutcome>)
      modifies registry, socket
      ensures |outcomes| == |addresses|
      ensures registry.calls == old(registry.calls) + ConnectingCalls(addresses, outcomes)
      ensures socket.dials == old(socket.dials) + Dialled(addresses, outcomes)
      ensures DialRefused(settings.limits, old(registry.activeOutboundCount), old(ConnectionsCount())) ==>
        forall k :: 0 <= k < |outcomes| ==> outcomes[k] == Refused
      ensures (!DialRefused(settings.limits, old(registry.activeOutboundCount), old(ConnectionsCount())) && |outcomes| > 0)
        ==> outcomes[0] != Refused
    {
      ghost var refused := DialRefused(settings.limits, registry.activeOutboundCount, ConnectionsCount());
      outcomes := [];
      var j := 0;
      while j < |addresses|
        invariant 0 <= j <= |addresses| && |outcomes| == j
        invariant registry.calls == old(registry.calls) + ConnectingCalls(addresses[..j], outcomes)
        invariant socket.dials == old(socket.dials) + Dialled(addresses[..j], outcomes)
        invariant refused || j == 0 ==>
          registry.activeOutboundCount == old(registry.activeOutboundCount) && registry.activeCount == old(registry.activeCount)
        invariant refused ==> forall k :: 0 <= k < j ==> outcomes[k] == Refused
        invariant !refused && j > 0 ==> outcomes[0] != Refused
      {
        var outcome := Connect(addresses[j]);
        assert refused ==> outcome == Refused;
        assert j == 0 && !refused ==> outcome != Refused;
        DialStep(addresses, j, outcomes, outcome);
        outcomes := outcomes + [outcome];
        j := j + 1;
      }
      assert addresses[..|addresses|] == addresses;
    }

    /** Count a new channel, still waiting for its handshake, among the open ones. */
    method Admit(c: PeerChannel)
      requires Valid() && c !in open && Member(c, registry, decode, toTimestamp, true)
      modifies this
      ensures Valid() && open == old(open) + {c}
      ensures awaitingForHandshakeCount == old(awaitingForHandshakeCount) + 1
      ensures settings == old(settings) && bytesSent == old(bytesSent) && bytesReceived == old(bytesReceived)
    {
      assert c !in awaiting;
      awaitingForHandshakeCount := awaitingForHandshakeCount + 1;
      open, awaiting := open + {c}, awaiting + [c];
    }

    /**
     * A new connection: count it as waiting for its handshake, record an outbound
     * one as connected, open its channel (which sends the handshake), and put an
     * inbound one over the limits into answer-then-close mode.
     */
    method OnConnection(conn: Connection) returns (c: PeerChannel, fired: seq<Event>)
      requires Valid()
      modifies this, conn, registry
      ensures Valid() && fresh(c) && fresh(c.handshaker) && c.conn == conn && open == old(open) + {c} && Ready(c)
      ensures awaitingForHandshakeCount == old(awaitingForHandshakeCount) + 1
      ensures registry.calls == old(registry.calls) + (if conn.inbound then [] else [ConnectedTo(old(conn.peerAddress))])
      ensures c.View().handshake == HandshakeState(true, false) && c.View().peerAddress == old(conn.peerAddress)
      ensures c.View().awaiting
      ensures c.View().toBeClosed <==>
        OverInboundLimits(settings.limits, conn.inbound, old(ConnectionsCount()) + 1, old(registry.activeInboundCount))
      ensures conn.sent == old(conn.sent) + [Handshake(localPeerAddress)]
      ensures conn.closeRequests == old(conn.closeRequests) && conn.banRequests == old(conn.banRequests)
      ensures fired == [NewChannel(conn.peerAddress)]
      ensures settings == old(settings) && bytesSent == old(bytesSent) && bytesReceived == old(bytesReceived)
    {
      if !conn.inbound {
        registry.Record(ConnectedTo(conn.peerAddress));
      }
      c := new PeerChannel(conn, registry, localPeerAddress, settings.timeouts.ping, decode, toTimestamp, true);
      if OverInboundLimits(settings.limits, conn.inbound, ConnectionsCount() + 1, registry.activeInboundCount) {
        c.AwaitForDiscoveryAndClose();
      }
      Admit(c);
      fired := [NewChannel(conn.peerAddress)];
    }

    /**
     * The listeners the network puts on every channel, for one event: a handshake
     * success marks the peer active and counts, discovered addresses go to the
     * registry, and a forwarded event is fired again by the network.
     */
    method Listener(e: Event) returns (success: nat, forwarded: seq<Event>)
      modifies registry
      ensures registry.calls == old(registry.calls) + ListenerCallsOf(e)
      ensures success == if e.HandshakeSuccess? then 1 else 0
      ensures forwarded == if ForwardedByNetwork(e) then [e] else []
    {
      success := 0;
      match e {
        case HandshakeSuccess(address) =>
          registry.Record(ActiveTo(address));
          success := 1;
        case PeersDiscovered(addresses) =>
          registry.Record(Discovered(addresses));
        case _ =>
      }
      forwarded := if ForwardedByNetwork(e) then [e] else [];
    }

    /** The listeners run over the events a channel fired, in order. */
    method Listen(events: seq<Event>) returns (successes: nat, forwarded: seq<Event>)
      modifies registry
      ensures registry.calls == old(registry.calls) + ListenerCalls(events)
      ensures successes == Successes(events)
      ensures forwarded == Forwarded(events)
      decreases |events|
    {
      if events == [] {
        return 0, [];
      }
      var n := |events| - 1;
      var earlier, forwardedEarlier := Listen(events[..n]);
      var success, f := Listener(events[n]);
      successes, forwarded := earlier + success, forwardedEarlier + f;
    }

    /**
     * A frame arrives on a channel of this network: the channel reacts to it and
     * the network's listeners run over the events it fired. `successes` is the
     * number of handshake successes among them, and `answers` is the registry's
     * discovery answer at the time the channel consulted it.
     */
    method Dispatch(c: PeerChannel, raw: seq<byte>, now: nat)
      returns (successes: nat, fired: seq<Event>, ghost answers: Option<Value> -> DiscoveryData)
      requires Ready(c) && c.registry == registry && c.decode == decode && c.toTimestamp == toTimestamp
      modifies c, c.conn, c.handshaker, c.pingponger, c.discoverer, registry
      ensures Ready(c)
      ensures decode(raw).None? ==>
        && c.View() == old(c.View()) && fired == [] && successes == 0 && c.conn.sent == old(c.conn.sent)
        && c.conn.banRequests == old(c.conn.banRequests) + 1 && registry.calls == old(registry.calls)
      ensures decode(raw).Some? ==>
        var r := React(old(c.View()), decode(raw).value, ChannelEnv(c.pingTimeout, toTimestamp, answers, now));
        && c.View() == r.view && fired == Forwarded(r.fired) && c.conn.sent == old(c.conn.sent) + r.sent
        && c.conn.closeRequests == old(c.conn.closeRequests) + (if r.closeRequested then 1 else 0)
        && registry.calls == old(registry.calls) + [BumpActivity(old(c.conn.peerAddress))] + ListenerCalls(r.fired)
        && successes == (if old(c.View()).awaiting && !r.view.awaiting then 1 else 0)
    {
      ghost var v := c.View();
      var events := c.OnMessage(raw, now);
      answers := registry.discoveryResponse;
      successes, fired := Listen(events);
      if decode(raw).Some? {
        ReactTracksAwaiting(v, decode(raw).value, ChannelEnv(c.pingTimeout, toTimestamp, answers, now));
      }
    }

    /**
     * A frame arrives on an open channel. A handshake success among the channel's
     * events takes the channel out of the awaiting count; the network forwards the
     * message, success, asked-for-peers and peers-discovered events.
     */
    method Deliver(c: PeerChannel, raw: seq<byte>, now: nat)
      returns (fired: seq<Event>, ghost answers: Option<Value> -> DiscoveryData)
      requires Valid() && c in open && Ready(c)
      modifies this, c, c.conn, c.handshaker, c.pingponger, c.discoverer, registry
      ensures Valid() && open == old(open) && Ready(c)
      ensures settings == old(settings) && bytesSent == old(bytesSent) && bytesReceived == old(bytesReceived)
      ensures decode(raw).None? ==>
        && c.View() == old(c.View()) && fired == [] && c.conn.sent == old(c.conn.sent)
        && c.conn.banRequests == old(c.conn.banRequests) + 1
        && registry.calls == old(registry.calls) && awaitingForHandshakeCount == old(awaitingForHandshakeCount)
      ensures decode(raw).Some? ==>
        var r := React(old(c.View()), decode(raw).value, ChannelEnv(c.pingTimeout, toTimestamp, answers, now));
        && c.View() == r.view && fired == Forwarded(r.fired) && c.conn.sent == old(c.conn.sent) + r.sent
        && c.conn.closeRequests == old(c.conn.closeRequests) + (if r.closeRequested then 1 else 0)
        && registry.calls == old(registry.calls) + [BumpActivity(old(c.conn.peerAddress))] + ListenerCalls(r.fired)
        && awaitingForHandshakeCount ==
             old(awaitingForHandshakeCount) - (if old(c.View()).awaiting && !r.view.awaiting then 1 else 0)
    {
      ghost var wasAwaiting := c.awaitingForHandshake;
      assert ValidApartFrom(c);
      var successes;
      successes, fired, answers := Dispatch(c, raw, now);
      Settle(c, wasAwaiting, successes);
    }

    /** The invariant, for every open channel but `c`. */
    ghost predicate ValidApartFrom(c: PeerChannel)
      reads this, open - {c}
    {
      && NoDuplicates(awaiting) && (forall d :: d in awaiting ==> d in open)
      && (forall d :: d in open && d != c ==> Member(d, registry, decode, toTimestamp, d in awaiting))
      && awaitingForHandshakeCount == |awaiting|
    }

    /** Take the successes of `c`, which was counted as `wasAwaiting` says, into the count. */
    method Settle(c: PeerChannel, ghost wasAwaiting: bool, successes: nat)
      requires ValidApartFrom(c) && c in open && (c in awaiting <==> wasAwaiting)
      requires c.registry == registry && c.decode == decode && c.toTimestamp == toTimestamp
      requires successes == if wasAwaiting && !c.awaitingForHandshake then 1 else 0
      requires !wasAwaiting ==> !c.awaitingForHandshake
      modifies this
      ensures Valid() && open == old(open)
      ensures awaitingForHandshakeCount == old(awaitingForHandshakeCount) - successes
      ensures settings == old(settings) && bytesSent == old(bytesSent) && bytesReceived == old(bytesReceived)
    {
      awaitingForHandshakeCount := awaitingForHandshakeCount - successes;
      if successes == 1 {
        WithoutOne(awaiting, c);
        awaiting := Without(awaiting, c);
      }
    }

    /**
     * A channel's connection closed: keep its traffic, tell the registry the peer
     * disconnected when it knows the address, and stop counting the channel if it
     * was still waiting for its handshake.
     */
    method OnClose(c: PeerChannel) returns (fired: seq<Event>)
      requires Valid() && c in open
      modifies this, registry
      ensures Valid() && open == old(open) - {c}
      ensures settings == old(settings)
      ensures bytesSent == old(bytesSent) + c.conn.bytesSent
      ensures bytesReceived == old(bytesReceived) + c.conn.bytesReceived
      ensures registry.calls == old(registry.calls) +
        (if old(registry.known)(c.conn.peerAddress) then [DisconnectedFrom(c.conn.peerAddress)] else [])
      ensures awaitingForHandshakeCount == old(awaitingForHandshakeCount) - (if c.awaitingForHandshake then 1 else 0)
      ensures fired == [ChannelClosed(c.conn.peerAddress)]
    {
      if registry.known(c.conn.peerAddress) {
        registry.Record(DisconnectedFrom(c.conn.peerAddress));
      }
      Retire(c);
      fired := [ChannelClosed(c.conn.peerAddress)];
    }

    /** Keep a closed channel's traffic, stop counting it, and drop it from the open channels. */
    method Retire(c: PeerChannel)
      requires Valid() && c in open
      modifies this
      ensures Valid() && open == old(open) - {c}
      ensures settings == old(settings)
      ensures bytesSent == old(bytesSent) + c.conn.bytesSent
      ensures bytesReceived == old(bytesReceived) + c.conn.bytesReceived
      ensures awaitingForHandshakeCount == old(awaitingForHandshakeCount) - (if c.awaitingForHandshake then 1 else 0)
    {
      bytesSent := bytesSent + c.conn.bytesSent;
      bytesReceived := bytesReceived + c.conn.bytesReceived;
      if c.awaitingForHandshake {
        awaitingForHandshakeCount := awaitingForHandshakeCount - 1;
      }
      WithoutOne(awaiting, c);
      open, awaiting := open - {c}, Without(awaiting, c);
    }

    /** A channel's connection banned its peer: the registry records the ban. */
    method OnBan(c: PeerChannel)
      modifies registry
      ensures registry.calls == old(registry.calls) + [Banned(c.conn.peerAddress)]
    {
      registry.Record(Banned(c.conn.peerAddress));
    }
  }
}
