/** The named events the channel and its handlers fire, as values. */
module Events {
  import opened Addresses
  import opened Vectors
  import opened Messages

  datatype Event =
    | HandshakeSuccess(address: PeerAddress)
    | PingReceived(nonce: Value)
    | PongReceived(nonce: Value, rtt: int)
    | Lost(nonce: Value)
    | AskedForPeers
    | PeersDiscovered(addresses: seq<Vector>)
    /** The event named after the message's type, which the handlers listen to. */
    | Typed(message: Message)
    | MessageReceived(message: Message)
    | NewChannel(address: PeerAddress)
    | ChannelClosed(address: PeerAddress)

  /** The channel events the network forwards to its own listeners. */
  predicate ForwardedByNetwork(e: Event) {
    e.MessageReceived? || e.HandshakeSuccess? || e.AskedForPeers? || e.PeersDiscovered?
  }

  function Forwarded(events: seq<Event>): (r: seq<Event>)
    ensures |r| <= |events|
  {
    if events == [] then []
    else
      var last := events[|events| - 1];
      Forwarded(events[..|events| - 1]) + (if ForwardedByNetwork(last) then [last] else [])
  }

  /** The network forwards only events it was given, only ones it forwards, and each of those. */
  lemma {:induction false} ForwardedExactly(events: seq<Event>)
    ensures forall e :: e in Forwarded(events) <==> e in events && ForwardedByNetwork(e)
  {
    if events != [] {
      var n := |events| - 1;
      ForwardedExactly(events[..n]);
      assert events == events[..n] + [events[n]];
    }
  }

  lemma {:induction false} ForwardedAppend(a: seq<Event>, b: seq<Event>)
    ensures Forwarded(a + b) == Forwarded(a) + Forwarded(b)
  {
    if b == [] {
      assert a + b == a;
    } else {
      assert (a + b)[..|a + b| - 1] == a + b[..|b| - 1];
      ForwardedAppend(a, b[..|b| - 1]);
    }
  }
}
