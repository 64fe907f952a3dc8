/**
 * The collaborators the core calls but whose code is not part of this model: the
 * transport connection, the address registry and the listening socket. Each one
 * records the calls made on it; the registry's counters and query answers are its
 * state, and after a mutating call the model promises nothing about them.
 */
module Environment {
  import opened Wrappers
  import opened Addresses
  import opened Vectors
  import opened Messages

  /** One accepted or opened transport connection. */
  class Connection {
    var peerAddress: PeerAddress
    const inbound: bool
    /** The messages handed to `send`, in order. */
    var sent: seq<Message>
    var closeRequests: nat
    var banRequests: nat
    var bytesSent: nat
    var bytesReceived: nat

    constructor (peerAddress: PeerAddress, inbound: bool)
      ensures this.peerAddress == peerAddress && this.inbound == inbound
      ensures sent == [] && closeRequests == 0 && banRequests == 0
      ensures bytesSent == 0 && bytesReceived == 0
    {
      this.peerAddress := peerAddress;
      this.inbound := inbound;
      sent := [];
      closeRequests, banRequests := 0, 0;
      bytesSent, bytesReceived := 0, 0;
    }

    method Send(m: Message)
      modifies this
      ensures sent == old(sent) + [m]
      ensures peerAddress == old(peerAddress) && closeRequests == old(closeRequests)
      ensures banRequests == old(banRequests)
    {
      sent := sent + [m];
    }

    method Close()
      modifies this
      ensures closeRequests == old(closeRequests) + 1
      ensures sent == old(sent) && peerAddress == old(peerAddress) && banRequests == old(banRequests)
    {
      closeRequests := closeRequests + 1;
    }

    method Ban()
      modifies this
      ensures banRequests == old(banRequests) + 1
      ensures sent == old(sent) && peerAddress == old(peerAddress) && closeRequests == old(closeRequests)
    {
      banRequests := banRequests + 1;
    }
  }

  datatype RegistryCall =
    | ConnectingTo(address: PeerAddress)
    | ConnectedTo(address: PeerAddress)
    | ActiveTo(address: PeerAddress)
    | FailedToCommunicateWith(address: PeerAddress)
    | DisconnectedFrom(address: PeerAddress)
    | Banned(address: PeerAddress)
    | Closed(address: PeerAddress)
    | BumpActivity(address: PeerAddress)
    | Discovered(addresses: seq<Vector>)

  datatype DiscoveryData = DiscoveryData(addresses: seq<PeerAddress>, timestamp: Value)

  /** The known-addresses registry, as the core sees it. */
  class Registry {
    var activeCount: nat
    var activeInboundCount: nat
    var activeOutboundCount: nat
    var availablePeerAddresses: seq<PeerAddress>
    /** `getFallingPeerAddresses(minActivityTimestamp)` */
    var fallingPeerAddresses: int -> seq<PeerAddress>
    /** `getDiscoveryResponse(sinceTimestamp)` */
    var discoveryResponse: Option<Value> -> DiscoveryData
    var known: PeerAddress -> bool
    var calls: seq<RegistryCall>

    constructor (activeCount: nat, activeInboundCount: nat, activeOutboundCount: nat,
                 available: seq<PeerAddress>, falling: int -> seq<PeerAddress>,
                 discoveryResponse: Option<Value> -> DiscoveryData, known: PeerAddress -> bool)
      ensures this.activeCount == activeCount && this.activeInboundCount == activeInboundCount
      ensures this.activeOutboundCount == activeOutboundCount && availablePeerAddresses == available
      ensures fallingPeerAddresses == falling && this.discoveryResponse == discoveryResponse
      ensures this.known == known && calls == []
    {
      this.activeCount, this.activeInboundCount, this.activeOutboundCount :=
        activeCount, activeInboundCount, activeOutboundCount;
      availablePeerAddresses, fallingPeerAddresses := available, falling;
      this.discoveryResponse, this.known := discoveryResponse, known;
      calls := [];
    }

    /** A status-changing call: recorded; its effect on the answers is not modelled. */
    method Record(call: RegistryCall)
      requires !call.Closed?
      modifies this
      ensures calls == old(calls) + [call]
    {
      calls := calls + [call];
    }

    /** `close(address)` closes the address's channel and changes no registry state. */
    method Close(address: PeerAddress)
      modifies this
      ensures calls == old(calls) + [Closed(address)]
      ensures activeCount == old(activeCount) && activeInboundCount == old(activeInboundCount)
      ensures activeOutboundCount == old(activeOutboundCount)
      ensures availablePeerAddresses == old(availablePeerAddresses)
      ensures fallingPeerAddresses == old(fallingPeerAddresses) && known == old(known)
      ensures discoveryResponse == old(discoveryResponse)
    {
      calls := calls + [Closed(address)];
    }
  }

  /** The listening and dialling socket. */
  class LocalSocket {
    /** Addresses whose connect attempt is still pending. */
    var connecting: set<PeerAddress>
    /** The connect attempts started, in order. */
    var dials: seq<PeerAddress>

    constructor ()
      ensures connecting == {} && dials == []
    {
      connecting, dials := {}, [];
    }

    /** `connect`: true when an attempt was started; the reason for false is not modelled. */
    method Connect(address: PeerAddress) returns (accepted: bool)
      modifies this
      ensures dials == old(dials) + (if accepted then [address] else [])
    {
      accepted := address !in connecting;
      if accepted {
        connecting := connecting + {address};
        dials := dials + [address];
      }
    }
  }
}
