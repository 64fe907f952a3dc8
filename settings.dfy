/**
 * Network settings: a record of defaults deep-merged with the caller's options.
 * An option left out (undefined) keeps the default; one given replaces it.
 */
module NetworkSettings {
  import opened Wrappers

  datatype PeerSettings = PeerSettings(port: nat, ip: string, allowPortIncrementation: bool, maxPort: nat)
  datatype Limits = Limits(peers: nat, inboundPeers: nat, outboundPeers: nat)
  datatype Ssl = SslDisabled | SslFiles(key: string, cert: string)
  datatype Timeouts = Timeouts(ping: nat, waitingForActivity: nat)
  datatype Testing = Testing(enableNetworkGraphBroadcast: bool, networkGraphBroadcastDebounceDelay: nat,
                             networkGraphBroadcastPort: nat)
  datatype Discovery = Discovery(connectMoreInterval: nat, askMoreInterval: nat)
  datatype Settings = Settings(peer: PeerSettings, limits: Limits, ssl: Ssl, timeouts: Timeouts,
                               testing: Testing, discovery: Discovery, version: string)

  datatype PeerOptions = PeerOptions(port: Option<nat>, ip: Option<string>,
                                     allowPortIncrementation: Option<bool>, maxPort: Option<nat>)
  datatype LimitsOptions = LimitsOptions(peers: Option<nat>, inboundPeers: Option<nat>, outboundPeers: Option<nat>)
  datatype TimeoutsOptions = TimeoutsOptions(ping: Option<nat>, waitingForActivity: Option<nat>)
  datatype TestingOptions = TestingOptions(enableNetworkGraphBroadcast: Option<bool>,
                                           networkGraphBroadcastDebounceDelay: Option<nat>,
                                           networkGraphBroadcastPort: Option<nat>)
  datatype DiscoveryOptions = DiscoveryOptions(connectMoreInterval: Option<nat>, askMoreInterval: Option<nat>)
  datatype Options = Options(peer: PeerOptions, limits: LimitsOptions, ssl: Option<Ssl>, timeouts: TimeoutsOptions,
                             testing: TestingOptions, discovery: DiscoveryOptions, version: Option<string>)

  const Defaults := Settings(
    PeerSettings(7132, "127.0.0.1", true, 8200),
    Limits(25, 17, 19),
    SslDisabled,
    Timeouts(5000, 15000),
    Testing(true, 200, 5588),
    Discovery(2000, 3000),
    "0.001")

  const NoOptions := Options(
    PeerOptions(None, None, None, None),
    LimitsOptions(None, None, None),
    None,
    TimeoutsOptions(None, None),
    TestingOptions(None, None, None),
    DiscoveryOptions(None, None),
    None)

  function Pick<T>(option: Option<T>, default: T): T {
    if option.Some? then option.value else default
  }

  /** Deep merge of `options` onto `base`, field by field. */
  function MergeOnto(base: Settings, o: Options): Settings
  {
    Settings(
      PeerSettings(Pick(o.peer.port, base.peer.port), Pick(o.peer.ip, base.peer.ip),
                   Pick(o.peer.allowPortIncrementation, base.peer.allowPortIncrementation),
                   Pick(o.peer.maxPort, base.peer.maxPort)),
      Limits(Pick(o.limits.peers, base.limits.peers), Pick(o.limits.inboundPeers, base.limits.inboundPeers),
             Pick(o.limits.outboundPeers, base.limits.outboundPeers)),
      Pick(o.ssl, base.ssl),
      Timeouts(Pick(o.timeouts.ping, base.timeouts.ping),
               Pick(o.timeouts.waitingForActivity, base.timeouts.waitingForActivity)),
      Testing(Pick(o.testing.enableNetworkGraphBroadcast, base.testing.enableNetworkGraphBroadcast),
              Pick(o.testing.networkGraphBroadcastDebounceDelay, base.testing.networkGraphBroadcastDebounceDelay),
              Pick(o.testing.networkGraphBroadcastPort, base.testing.networkGraphBroadcastPort)),
      Discovery(Pick(o.discovery.connectMoreInterval, base.discovery.connectMoreInterval),
                Pick(o.discovery.askMoreInterval, base.discovery.askMoreInterval)),
      Pick(o.version, base.version))
  }

  /** The settings a network is built with. */
  function FromOptions(o: Options): Settings {
    MergeOnto(Defaults, o)
  }

  /** The options that supply every field of `s`. */
  function Supplying(s: Settings): Options {
    Options(
      PeerOptions(Some(s.peer.port), Some(s.peer.ip), Some(s.peer.allowPortIncrementation), Some(s.peer.maxPort)),
      LimitsOptions(Some(s.limits.peers), Some(s.limits.inboundPeers), Some(s.limits.outboundPeers)),
      Some(s.ssl),
      TimeoutsOptions(Some(s.timeouts.ping), Some(s.timeouts.waitingForActivity)),
      TestingOptions(Some(s.testing.enableNetworkGraphBroadcast), Some(s.testing.networkGraphBroadcastDebounceDelay),
                     Some(s.testing.networkGraphBroadcastPort)),
      DiscoveryOptions(Some(s.discovery.connectMoreInterval), Some(s.discovery.askMoreInterval)),
      Some(s.version))
  }

  /** Without options the defaults are: 25/17/19 peers, 5000/15000 ms timeouts, ... */
  lemma DefaultSettings()
    ensures FromOptions(NoOptions) == Defaults
    ensures Defaults.limits == Limits(25, 17, 19)
    ensures Defaults.timeouts == Timeouts(5000, 15000)
    ensures Defaults.discovery == Discovery(2000, 3000)
    ensures Defaults.peer == PeerSettings(7132, "127.0.0.1", true, 8200) && Defaults.ssl == SslDisabled
  {
  }

  /** Merging nothing leaves any base as it is. */
  lemma MergeNothing(base: Settings)
    ensures MergeOnto(base, NoOptions) == base
  {
  }

  /** Options that supply every field decide the result whatever the base. */
  lemma MergeSupplyingAll(base: Settings, s: Settings)
    ensures MergeOnto(base, Supplying(s)) == s
  {
  }

  /** Merging the same options twice gives what merging them once gave. */
  lemma MergeIdempotent(base: Settings, o: Options)
    ensures MergeOnto(MergeOnto(base, o), o) == MergeOnto(base, o)
  {
  }

  /** A supplied limit overrides its default and leaves the other limits at theirs. */
  lemma MergeOneLimit(peers: nat)
    ensures FromOptions(NoOptions.(limits := LimitsOptions(Some(peers), None, None)))
      == Defaults.(limits := Limits(peers, 17, 19))
  {
  }
}
