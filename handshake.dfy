/**
 * The mutual handshake: each side sends its address and waits for the other's.
 * Success is signalled once both the local handshake has been sent and the
 * remote one received, in whichever order the two happen.
 */
module Handshake {
  import opened Wrappers
  import opened Addresses
  import opened Messages
  import opened Environment

  datatype HandshakeState = HandshakeState(sent: bool, received: bool)
  datatype HandshakeInput = SendInput | ReceiveInput

  const Initial := HandshakeState(false, false)

  predicate Done(s: HandshakeState) {
    s.sent && s.received
  }

  function Apply(s: HandshakeState, input: HandshakeInput): HandshakeState {
    match input
    case SendInput => s.(sent := true)
    case ReceiveInput => s.(received := true)
  }

  /**
   * The transition as written: sending signals success whenever a handshake was
   * received before, receiving whenever one was sent before, every time.
   */
  function StepAsWritten(s: HandshakeState, input: HandshakeInput): (r: (HandshakeState, bool))
    ensures r.0 == Apply(s, input)
    ensures r.1 <==> (if input == SendInput then s.received else s.sent)
  {
    match input
    case SendInput => (Apply(s, input), s.received)
    case ReceiveInput => (Apply(s, input), s.sent)
  }

  /** The corrected transition: success is signalled on entering the done state only. */
  function Step(s: HandshakeState, input: HandshakeInput): (r: (HandshakeState, bool))
    ensures r.0 == Apply(s, input)
    ensures r.1 <==> !Done(s) && Done(r.0)
  {
    var next := Apply(s, input);
    (next, !Done(s) && Done(next))
  }

  /** The state and the number of successes after a trace of inputs. */
  function Run(trace: seq<HandshakeInput>): (HandshakeState, nat)
  {
    if trace == [] then (Initial, 0)
    else
      var (s, n) := Run(trace[..|trace| - 1]);
      var (s', fired) := Step(s, trace[|trace| - 1]);
      (s', if fired then n + 1 else n)
  }

  function RunAsWritten(trace: seq<HandshakeInput>): (HandshakeState, nat)
  {
    if trace == [] then (Initial, 0)
    else
      var (s, n) := RunAsWritten(trace[..|trace| - 1]);
      var (s', fired) := StepAsWritten(s, trace[|trace| - 1]);
      (s', if fired then n + 1 else n)
  }

  /**
   * After any trace the flags record which inputs occurred, and success has been
   * signalled exactly once if both occurred, never otherwise.
   */
  lemma {:induction false} RunSignalsSuccessOnce(trace: seq<HandshakeInput>)
    ensures Run(trace).0.sent <==> SendInput in trace
    ensures Run(trace).0.received <==> ReceiveInput in trace
    ensures Run(trace).1 == if Done(Run(trace).0) then 1 else 0
  {
    if trace != [] {
      var prefix := trace[..|trace| - 1];
      RunSignalsSuccessOnce(prefix);
      assert trace == prefix + [trace[|trace| - 1]];
    }
  }

  /** Both orders end in the same state with one success. */
  lemma EitherOrderSucceedsOnce()
    ensures Run([SendInput, ReceiveInput]) == Run([ReceiveInput, SendInput]) == (HandshakeState(true, true), 1)
  {
  }

  /** As written, a second handshake from the remote signals success a second time. */
  lemma RepeatedHandshakeAsWrittenSucceedsTwice()
    ensures RunAsWritten([SendInput, ReceiveInput, ReceiveInput]).1 == 2
    ensures Run([SendInput, ReceiveInput, ReceiveInput]).1 == 1
  {
    var t := [SendInput, ReceiveInput, ReceiveInput];
    assert t[..2] == [SendInput, ReceiveInput];
    assert t[..2][..1] == [SendInput];
    assert [SendInput][..0] == [];
  }

  /**
   * The as-written and corrected machines agree on every trace without repeats,
   * so the correction changes behaviour only when an input occurs twice.
   */
  lemma {:induction false} AsWrittenAgreesWithoutRepeats(trace: seq<HandshakeInput>)
    requires forall i, j :: 0 <= i < j < |trace| ==> trace[i] != trace[j]
    ensures RunAsWritten(trace) == Run(trace)
  {
    if trace != [] {
      var prefix := trace[..|trace| - 1];
      AsWrittenAgreesWithoutRepeats(prefix);
      RunSignalsSuccessOnce(prefix);
      assert trace[|trace| - 1] !in prefix;
    }
  }

  /** The per-channel handshake handler. */
  class Handshaker {
    const conn: Connection
    const localPeerAddress: PeerAddress
    var handshakeSent: bool
    var handshakeReceived: bool
    /** The address the remote declared, once its handshake arrived. */
    var peerAddress: Option<PeerAddress>

    function State(): HandshakeState
      reads this
    {
      HandshakeState(handshakeSent, handshakeReceived)
    }

    ghost predicate Valid()
      reads this
    {
      handshakeReceived <==> peerAddress.Some?
    }

    constructor (conn: Connection, localPeerAddress: PeerAddress)
      ensures this.conn == conn && this.localPeerAddress == localPeerAddress
      ensures Valid() && State() == Initial && peerAddress.None?
    {
      this.conn := conn;
      this.localPeerAddress := localPeerAddress;
      handshakeSent, handshakeReceived := false, false;
      peerAddress := None;
    }

    /** `handle()`: send the local handshake. */
    method Handle() returns (success: bool)
      requires Valid()
      modifies this, conn
      ensures Valid() && (State(), success) == Step(old(State()), SendInput)
      ensures peerAddress == old(peerAddress)
      ensures conn.sent == old(conn.sent) + [Handshake(localPeerAddress)]
      ensures conn.peerAddress == old(conn.peerAddress) && conn.closeRequests == old(conn.closeRequests)
      ensures conn.banRequests == old(conn.banRequests)
    {
      success := SendHandshake();
    }

    method SendHandshake() returns (success: bool)
      requires Valid()
      modifies this, conn
      ensures Valid() && (State(), success) == Step(old(State()), SendInput)
      ensures peerAddress == old(peerAddress)
      ensures conn.sent == old(conn.sent) + [Handshake(localPeerAddress)]
      ensures conn.peerAddress == old(conn.peerAddress) && conn.closeRequests == old(conn.closeRequests)
      ensures conn.banRequests == old(conn.banRequests)
    {
      conn.Send(Handshake(localPeerAddress));
      success := handshakeReceived && !handshakeSent;
      handshakeSent := true;
    }

    method OnHandshakeReceived(declared: PeerAddress) returns (success: bool)
      requires Valid()
      modifies this
      ensures Valid() && (State(), success) == Step(old(State()), ReceiveInput)
      ensures peerAddress == Some(declared)
    {
      success := handshakeSent && !handshakeReceived;
      handshakeReceived := true;
      peerAddress := Some(declared);
    }
  }

  /** Sending first, then receiving: both flags set, one success, the remote address kept. */
  method SendThenReceive(local: PeerAddress, transport: PeerAddress, remote: PeerAddress)
    returns (state: HandshakeState, successes: nat, declared: Option<PeerAddress>, sent: seq<Message>)
    ensures state == HandshakeState(true, true) && successes == 1 && declared == Some(remote)
    ensures sent == [Handshake(local)]
  {
    var conn := new Connection(transport, false);
    var h := new Handshaker(conn, local);
    var s1 := h.Handle();
    var s2 := h.OnHandshakeReceived(remote);
    state, declared, sent := h.State(), h.peerAddress, conn.sent;
    successes := (if s1 then 1 else 0) + (if s2 then 1 else 0);
  }

  /** Receiving first: nothing until the local handshake goes out, then one success. */
  method ReceiveThenSend(local: PeerAddress, transport: PeerAddress, remote: PeerAddress)
    returns (firstSuccess: bool, sentBefore: seq<Message>,
             state: HandshakeState, successes: nat, declared: Option<PeerAddress>, sent: seq<Message>)
    ensures !firstSuccess && sentBefore == []
    ensures state == HandshakeState(true, true) && successes == 1 && declared == Some(remote)
    ensures sent == [Handshake(local)]
  {
    var conn := new Connection(transport, true);
    var h := new Handshaker(conn, local);
    var s1 := h.OnHandshakeReceived(remote);
    firstSuccess, sentBefore := s1, conn.sent;
    var s2 := h.SendHandshake();
    state, declared, sent := h.State(), h.peerAddress, conn.sent;
    successes := (if s1 then 1 else 0) + (if s2 then 1 else 0);
  }
}
