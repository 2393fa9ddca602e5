/** What the plugin reads from the operating system during one call: the two
    location permissions and, per provider, whether it is enabled and what
    its last-known fix is. The model reads one consistent snapshot. */
module Platform {
  import opened Values

  datatype Provider = Gps | Network | Passive

  /** The outcome of asking a provider for its last-known fix: a fix, none,
      or an exception carrying an optional message. */
  datatype Cache = Cached(location: Fix) | Empty | Failed(message: Option<string>)

  datatype ProviderState = ProviderState(enabled: bool, lastKnown: Cache)

  datatype PlatformState = PlatformState(
    fineGranted: bool,
    coarseGranted: bool,
    gps: ProviderState,
    network: ProviderState,
    passive: ProviderState)
  {
    function State(p: Provider): ProviderState {
      match p
      case Gps => gps
      case Network => network
      case Passive => passive
    }

    predicate Enabled(p: Provider) {
      State(p).enabled
    }
  }

  /** Either the fine or the coarse location permission is enough. */
  predicate HasLocationPermission(pl: PlatformState): (r: bool)
    ensures pl.fineGranted ==> r
    ensures pl.coarseGranted ==> r
    ensures r ==> pl.fineGranted || pl.coarseGranted
  {
    pl.fineGranted || pl.coarseGranted
  }

  /** Location counts as enabled when GPS or the network provider is; the
      passive provider alone does not count. */
  predicate IsLocationEnabled(pl: PlatformState): (r: bool)
    ensures r <==> exists p :: p != Passive && pl.Enabled(p)
  {
    pl.Enabled(Gps) || pl.Enabled(Network)
  }

  /** The provider a fresh request subscribes to: GPS when enabled, else the
      network provider when enabled, else none. The passive provider is
      never chosen. */
  function ChooseProvider(pl: PlatformState): (r: Option<Provider>)
    ensures r.Some? ==> r.value != Passive && pl.Enabled(r.value)
    ensures r == Some(Network) ==> !pl.Enabled(Gps)
    ensures pl.Enabled(Gps) ==> r == Some(Gps)
    ensures r.Some? <==> IsLocationEnabled(pl)
  {
    if pl.Enabled(Gps) then Some(Gps)
    else if pl.Enabled(Network) then Some(Network)
    else None
  }
}
