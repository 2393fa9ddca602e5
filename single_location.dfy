/** The single-location request: check the permission, then that location
    is enabled, then answer with any cached fix whatever its accuracy;
    failing that, subscribe to one provider for a fresh fix. */
module SingleLocation {
  import opened Values
  import opened Platform
  import opened LastKnown
  import opened FreshLocation

  /** What registering the listener with the location manager does: it
      succeeds, or it throws with an optional message. */
  datatype Registration = Registered | RegistrationFails(message: Option<string>)

  /** How a request starts: answered at once, or subscribed to a provider
      and waiting for updates and the timeout. */
  datatype Plan = Answer(reply: Reply) | Subscribe(provider: Provider)

  /** A cached-location reply that carries a fix. */
  predicate IsFixReply(r: Reply) {
    r.Success? && r.value != Null
  }

  /** How a fresh request starts: no provider, a failed registration (no
      timeout is posted then), or a subscription. */
  function FreshPlan(pl: PlatformState, registration: Registration): Plan {
    match ChooseProvider(pl)
    case None => Answer(NoProviderReply)
    case Some(provider) =>
      match registration
      case RegistrationFails(message) => Answer(Error(LocationError, message))
      case Registered => Subscribe(provider)
  }

  /** How a single-location request starts. */
  ghost function SinglePlan(pl: PlatformState, registration: Registration): Plan {
    if !HasLocationPermission(pl) then Answer(PermissionDeniedReply)
    else if !IsLocationEnabled(pl) then Answer(LocationDisabledReply)
    else if IsFixReply(LastKnownReply(pl)) then Answer(LastKnownReply(pl))
    else FreshPlan(pl, registration)
  }

  /** The request started as the plan says: the answer sent, or a new
      session listening to the planned provider with the caller's timeout
      and accuracy bound. */
  ghost predicate Launched(plan: Plan, timeoutMs: int, accuracyMeters: real,
                           reply: Option<Reply>, session: Session?)
    reads session
  {
    match plan
    case Answer(r) => reply == Some(r) && session == null
    case Subscribe(provider) =>
      && reply == None && session != null
      && session.Valid() && session.history == [] && session.subscribed
      && session.provider == provider
      && session.timeoutMs == timeoutMs && session.accuracyMeters == accuracyMeters
  }

  method RequestFreshLocation(pl: PlatformState, timeoutMs: int, accuracyMeters: real,
                              registration: Registration)
    returns (reply: Option<Reply>, session: Session?)
    ensures Launched(FreshPlan(pl, registration), timeoutMs, accuracyMeters, reply, session)
    ensures session != null ==> fresh(session)
  {
    var provider;
    if pl.Enabled(Gps) {
      provider := Gps;
    } else if pl.Enabled(Network) {
      provider := Network;
    } else {
      return Some(NoProviderReply), null;
    }
    match registration
    case RegistrationFails(message) =>
      reply, session := Some(Error(LocationError, message)), null;
    case Registered =>
      session := new Session(provider, timeoutMs, accuracyMeters);
      reply := None;
  }

  method RequestSingleLocation(pl: PlatformState, timeoutMs: int, accuracyMeters: real,
                               registration: Registration)
    returns (reply: Option<Reply>, session: Session?)
    ensures Launched(SinglePlan(pl, registration), timeoutMs, accuracyMeters, reply, session)
    ensures session != null ==> fresh(session)
  {
    if !HasLocationPermission(pl) {
      return Some(PermissionDeniedReply), null;
    }
    if !IsLocationEnabled(pl) {
      return Some(LocationDisabledReply), null;
    }
    var cached := GetLastKnownLocation(pl);
    match cached
    case Success(location) =>
      if location != Null {
        reply, session := Some(cached), null;
      } else {
        reply, session := RequestFreshLocation(pl, timeoutMs, accuracyMeters, registration);
      }
    case Error(_, _) =>
      reply, session := RequestFreshLocation(pl, timeoutMs, accuracyMeters, registration);
    case NotImplemented =>
      reply, session := RequestFreshLocation(pl, timeoutMs, accuracyMeters, registration);
  }

  /** Without permission both queries fail with PERMISSION_DENIED and nothing
      is read or subscribed, whatever the providers hold. */
  lemma PermissionCheckedFirst(pl: PlatformState, registration: Registration)
    requires !HasLocationPermission(pl)
    ensures SinglePlan(pl, registration) == Answer(PermissionDeniedReply)
    ensures LastKnownReply(pl) == PermissionDeniedReply
  {
  }

  /** With permission but neither GPS nor the network provider enabled, the
      request fails with LOCATION_DISABLED before the cache is read, even if
      the passive provider holds a fix. */
  lemma DisabledBeforeCache(pl: PlatformState, registration: Registration)
    requires HasLocationPermission(pl) && !pl.Enabled(Gps) && !pl.Enabled(Network)
    ensures SinglePlan(pl, registration) == Answer(LocationDisabledReply)
  {
  }

  /** The request subscribes only after the permission and enabled checks
      pass and the cache yields no fix, and then to GPS when enabled, else
      to the network provider. */
  lemma SubscribesOnlyOnCacheMiss(pl: PlatformState, registration: Registration, p: Provider)
    requires SinglePlan(pl, registration) == Subscribe(p)
    ensures HasLocationPermission(pl) && IsLocationEnabled(pl)
    ensures !IsFixReply(LastKnownReply(pl)) && registration == Registered
    ensures p == (if pl.Enabled(Gps) then Gps else Network)
  {
  }

  /** Any cached fix is the answer, unchanged, whatever its accuracy and
      whatever accuracy was asked for. */
  lemma CachedFixAnswers(pl: PlatformState, registration: Registration, location: Fix)
    requires HasLocationPermission(pl) && IsLocationEnabled(pl)
    requires LastKnownReply(pl) == Success(LocationMap(LocationToMap(location)))
    ensures SinglePlan(pl, registration) == Answer(Success(LocationMap(LocationToMap(location))))
  {
  }

  /** When no enabled provider holds a fix newer than time zero and no read
      fails, a registered request subscribes to GPS if enabled, else to the
      network provider. */
  lemma EmptyCacheSubscribes(pl: PlatformState)
    requires HasLocationPermission(pl) && IsLocationEnabled(pl)
    requires forall p :: !ReadFails(pl, p) && !Eligible(pl, p)
    ensures SinglePlan(pl, Registered) == Subscribe(if pl.Enabled(Gps) then Gps else Network)
  {
    NullIffNothingEligible(pl);
  }

  /** A failing cache read does not fail the request: it falls back to a
      fresh request. */
  lemma FailedCacheReadFallsBack(pl: PlatformState, registration: Registration, p: Provider)
    requires HasLocationPermission(pl) && IsLocationEnabled(pl) && ReadFails(pl, p)
    ensures SinglePlan(pl, registration) == FreshPlan(pl, registration)
  {
    NullIffNothingEligible(pl);
    FirstFailureExists(pl, p);
  }

  /** The enabled check comes first, so a single-location request never
      ends in NO_PROVIDER. */
  lemma NeverNoProvider(pl: PlatformState, registration: Registration)
    ensures SinglePlan(pl, registration) != Answer(NoProviderReply)
  {
    if HasLocationPermission(pl) && IsLocationEnabled(pl) && !IsFixReply(LastKnownReply(pl)) {
      assert ChooseProvider(pl).Some?;
    }
  }
}
