/**
 * Peer addresses as the core reads them. The address class itself is not part of
 * this model; only the four fields the channel and the handshake touch are kept.
 */
module Addresses {
  import opened Wrappers

  /** `port` is None for an inbound connection whose port is learnt by handshake. */
  datatype PeerAddress = PeerAddress(ip: string, host: Option<string>, port: Option<nat>, ssl: bool)

  predicate IpEquals(a: PeerAddress, b: PeerAddress) {
    a.ip == b.ip
  }

  /** JavaScript truthiness of `address.host`: present and not the empty string. */
  predicate HasHost(a: PeerAddress) {
    a.host.Some? && a.host.value != ""
  }

  /** Whether a handshake may correct the transport's address with the declared one. */
  predicate MayCorrect(current: PeerAddress, declared: PeerAddress) {
    IpEquals(current, declared) || HasHost(declared)
  }

  /**
   * The address of a connection after the remote declared `declared` in its handshake:
   * port, host and ssl are taken over when the ip matches or a host is declared;
   * otherwise the address stays as it was (the source only logs the anomaly).
   */
  function Corrected(current: PeerAddress, declared: PeerAddress): (r: PeerAddress)
    ensures r.ip == current.ip
    ensures MayCorrect(current, declared) ==>
      r.port == declared.port && r.host == declared.host && r.ssl == declared.ssl
    ensures !MayCorrect(current, declared) ==> r == current
  {
    if MayCorrect(current, declared) then
      current.(port := declared.port, host := declared.host, ssl := declared.ssl)
    else
      current
  }

  /** When the ips agree, correction makes the connection's address the declared one. */
  lemma CorrectedMatchingIpIsDeclared(current: PeerAddress, declared: PeerAddress)
    requires IpEquals(current, declared)
    ensures Corrected(current, declared) == declared
  {
  }

  /** Correcting twice with the same declaration changes nothing more. */
  lemma CorrectedIdempotent(current: PeerAddress, declared: PeerAddress)
    ensures Corrected(Corrected(current, declared), declared) == Corrected(current, declared)
  {
  }
}
