/**
 * Liveness probing: pings are remembered by nonce with their send time and a
 * timeout; a matching pong completes the probe, the timeout loses it.
 */
module Liveness {
  import opened Wrappers
  import opened Vectors
  import opened Messages
  import opened Environment
  import opened Events

  class PingPonger {
    const conn: Connection
    const pingTimeout: nat
    /** Pending nonces and the time their ping was sent. */
    var sentTimestamps: map<Value, nat>
    /** The armed timeout of each pending nonce, by the time it fires. */
    var timeouts: map<Value, nat>

    /** Every pending nonce has exactly one timeout, due one ping timeout after sending. */
    ghost predicate Valid()
      reads this
    {
      && timeouts.Keys == sentTimestamps.Keys
      && forall n :: n in sentTimestamps ==> timeouts[n] == sentTimestamps[n] + pingTimeout
    }

    constructor (conn: Connection, pingTimeout: nat)
      ensures this.conn == conn && this.pingTimeout == pingTimeout
      ensures Valid() && sentTimestamps == map[] && timeouts == map[]
    {
      this.conn := conn;
      this.pingTimeout := pingTimeout;
      sentTimestamps, timeouts := map[], map[];
    }

    /** `handle()` does nothing for this handler. */
    method Handle()
      requires Valid()
      ensures Valid()
    {
    }

    /**
     * Send a ping and remember its nonce; a nonce already pending has its old entry
     * and timeout replaced, so it is pending once.
     */
    method Ping(nonceOption: Option<string>, now: nat) returns (nonce: Value)
      requires Valid()
      modifies this, conn
      ensures Valid()
      ensures nonce == NewPing(nonceOption, now).nonce
      ensures sentTimestamps == old(sentTimestamps)[nonce := now]
      ensures timeouts == old(timeouts)[nonce := now + pingTimeout]
      ensures conn.sent == old(conn.sent) + [NewPing(nonceOption, now)]
      ensures conn.peerAddress == old(conn.peerAddress) && conn.closeRequests == old(conn.closeRequests)
      ensures conn.banRequests == old(conn.banRequests)
    {
      var msg := NewPing(nonceOption, now);
      nonce := msg.nonce;
      if nonce in sentTimestamps {
        timeouts := timeouts - {nonce};
        sentTimestamps := sentTimestamps - {nonce};
      }
      sentTimestamps := sentTimestamps[nonce := now];
      timeouts := timeouts[nonce := now + pingTimeout];
      conn.Send(msg);
    }

    /** The timeout of a pending ping fires: forget it and report it lost. */
    method OnTimeout(nonce: Value) returns (fired: seq<Event>)
      requires Valid() && nonce in timeouts
      modifies this
      ensures Valid()
      ensures sentTimestamps == old(sentTimestamps) - {nonce} && timeouts == old(timeouts) - {nonce}
      ensures fired == [Lost(nonce)]
    {
      timeouts := timeouts - {nonce};
      sentTimestamps := sentTimestamps - {nonce};
      fired := [Lost(nonce)];
    }

    /** Answer a ping with a pong carrying the same vector, and report it. */
    method OnPingReceived(msg: Message) returns (fired: seq<Event>)
      requires Valid() && msg.Ping?
      modifies conn
      ensures conn.sent == old(conn.sent) + [NewPong(FirstVector(msg.vectors))]
      ensures conn.peerAddress == old(conn.peerAddress) && conn.closeRequests == old(conn.closeRequests)
      ensures conn.banRequests == old(conn.banRequests)
      ensures fired == [PingReceived(msg.nonce)]
    {
      conn.Send(NewPong(FirstVector(msg.vectors)));
      fired := [PingReceived(msg.nonce)];
    }

    /**
     * A pong for a pending nonce completes the probe with its round-trip time; any
     * other pong is dropped without a trace.
     */
    method OnPongReceived(msg: Message, now: nat) returns (fired: seq<Event>)
      requires Valid() && msg.Pong?
      modifies this
      ensures Valid()
      ensures Matches(msg, old(sentTimestamps)) ==>
        && sentTimestamps == old(sentTimestamps) - {msg.pongNonce.value}
        && timeouts == old(timeouts) - {msg.pongNonce.value}
        && fired == [PongReceived(msg.pongNonce.value, now - old(sentTimestamps)[msg.pongNonce.value])]
      ensures !Matches(msg, old(sentTimestamps)) ==>
        sentTimestamps == old(sentTimestamps) && timeouts == old(timeouts) && fired == []
    {
      if msg.pongNonce.Some? && msg.pongNonce.value in sentTimestamps {
        var nonce := msg.pongNonce.value;
        var timeDiff := now - sentTimestamps[nonce];
        timeouts := timeouts - {nonce};
        sentTimestamps := sentTimestamps - {nonce};
        fired := [PongReceived(nonce, timeDiff)];
      } else {
        fired := [];
      }
    }
  }

  predicate Matches(msg: Message, pending: map<Value, nat>)
    requires msg.Pong?
  {
    msg.pongNonce.Some? && msg.pongNonce.value in pending
  }

  /**
   * One probe between two peers: A pings with a nonce, B answers the ping it
   * received, A receives the pong. A reports the same nonce with the elapsed time
   * and has nothing pending any more; B reports the ping.
   */
  method PingRoundTrip(nonceOption: Option<string>, sentAt: nat, answeredAt: nat, timeout: nat,
                       a: Connection, b: Connection)
    returns (nonce: Value, pingEvents: seq<Event>, pongEvents: seq<Event>, pendingAfter: map<Value, nat>)
    requires a != b
    modifies a, b
    ensures nonce == NewPing(nonceOption, sentAt).nonce
    ensures pingEvents == [PingReceived(nonce)]
    ensures pongEvents == [PongReceived(nonce, answeredAt - sentAt)]
    ensures pendingAfter == map[]
  {
    var pa := new PingPonger(a, timeout);
    var pb := new PingPonger(b, timeout);
    nonce := pa.Ping(nonceOption, sentAt);
    var ping := a.sent[|a.sent| - 1];
    PingDecodeRoundTrip(nonceOption, sentAt);
    var decodedPing := DecodePing(ping).value;
    pingEvents := pb.OnPingReceived(decodedPing);
    var pong := b.sent[|b.sent| - 1];
    PongEchoesNewPing(nonceOption, sentAt);
    var decodedPong := DecodePong(pong).value;
    pongEvents := pa.OnPongReceived(decodedPong, answeredAt);
    pendingAfter := pa.sentTimestamps;
  }
}
