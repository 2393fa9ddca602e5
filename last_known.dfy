/** The last-known-location query: scan GPS, network and passive in that
    order, skip disabled providers, and keep the cached fix with the
    strictly greatest timestamp, starting from a best time of zero. */
module LastKnown {
  import opened Values
  import opened Platform

  /** The order in which providers are scanned. */
  const ScanOrder: seq<Provider> := [Gps, Network, Passive]

  /** The position of a provider in the scan order. */
  function Rank(p: Provider): (r: nat)
    ensures r < |ScanOrder| && ScanOrder[r] == p
  {
    match p
    case Gps => 0
    case Network => 1
    case Passive => 2
  }

  /** An enabled provider whose read yields a fix. */
  predicate HasFix(pl: PlatformState, p: Provider) {
    pl.Enabled(p) && pl.State(p).lastKnown.Cached?
  }

  function FixOf(pl: PlatformState, p: Provider): Fix
    requires HasFix(pl, p)
  {
    pl.State(p).lastKnown.location
  }

  /** A fix that can be selected: read from an enabled provider and newer
      than the starting best time of zero. */
  predicate Eligible(pl: PlatformState, p: Provider) {
    HasFix(pl, p) && FixOf(pl, p).time > 0
  }

  /** An enabled provider whose read throws. */
  predicate ReadFails(pl: PlatformState, p: Provider) {
    pl.Enabled(p) && pl.State(p).lastKnown.Failed?
  }

  /** The first provider, in scan order, whose read throws. */
  predicate FirstFailure(pl: PlatformState, p: Provider) {
    ReadFails(pl, p) && forall q :: Rank(q) < Rank(p) ==> !ReadFails(pl, q)
  }

  /** Among the first k providers, p holds an eligible fix that no other
      eligible fix beats: none is newer, and an earlier provider's fix is
      older (a tie keeps the earlier provider). */
  predicate BestAmong(pl: PlatformState, p: Provider, k: nat) {
    && Rank(p) < k
    && Eligible(pl, p)
    && forall q :: Rank(q) < k && Eligible(pl, q) ==>
         FixOf(pl, q).time <= FixOf(pl, p).time
         && (Rank(q) < Rank(p) ==> FixOf(pl, q).time < FixOf(pl, p).time)
  }

  /** The provider whose fix the query selects. */
  predicate IsLatest(pl: PlatformState, p: Provider) {
    BestAmong(pl, p, |ScanOrder|)
  }

  lemma RankInjective()
    ensures forall p, q :: Rank(p) == Rank(q) ==> p == q
  {
  }

  lemma FirstFailureUnique(pl: PlatformState)
    ensures forall p, q :: FirstFailure(pl, p) && FirstFailure(pl, q) ==> p == q
  {
  }

  lemma LatestUnique(pl: PlatformState)
    ensures forall p, q :: IsLatest(pl, p) && IsLatest(pl, q) ==> p == q
  {
  }

  /** What the query answers, stated without the scan: permission denied;
      else the first failing read, as a location error with its message;
      else the map of the latest fix; else null (a success). */
  ghost function LastKnownReply(pl: PlatformState): Reply {
    if !HasLocationPermission(pl) then
      PermissionDeniedReply
    else if exists p :: FirstFailure(pl, p) then
      var p :| FirstFailure(pl, p);
      Error(LocationError, pl.State(p).lastKnown.message)
    else if exists p :: IsLatest(pl, p) then
      var p :| IsLatest(pl, p);
      Success(LocationMap(LocationToMap(FixOf(pl, p))))
    else
      Success(Null)
  }

  /** The scan. `bestLocation` and `bestTime` change as providers are
      visited; a throwing read ends the query with a location error. */
  method GetLastKnownLocation(pl: PlatformState) returns (reply: Reply)
    ensures reply == LastKnownReply(pl)
  {
    if !HasLocationPermission(pl) {
      return PermissionDeniedReply;
    }
    FirstFailureUnique(pl);
    LatestUnique(pl);
    var bestLocation: Option<Fix> := None;
    var bestTime := 0;
    ghost var bestProvider := Gps;
    for i := 0 to |ScanOrder|
      invariant forall q :: Rank(q) < i ==> !ReadFails(pl, q)
      invariant bestLocation.None? ==> bestTime == 0 && forall q :: Rank(q) < i ==> !Eligible(pl, q)
      invariant bestLocation.Some? ==>
        && BestAmong(pl, bestProvider, i)
        && bestLocation.value == FixOf(pl, bestProvider)
        && bestTime == bestLocation.value.time
    {
      var provider := ScanOrder[i];
      assert Rank(provider) == i;
      RankInjective();
      var state := pl.State(provider);
      if state.enabled {
        match state.lastKnown
        case Failed(message) =>
          assert FirstFailure(pl, provider);
          return Error(LocationError, message);
        case Empty =>
        case Cached(location) =>
          if location.time > bestTime {
            bestLocation := Some(location);
            bestTime := location.time;
            bestProvider := provider;
          }
      }
    }
    assert !exists p :: FirstFailure(pl, p);
    match bestLocation
    case Some(location) =>
      assert IsLatest(pl, bestProvider);
      reply := Success(LocationMap(LocationToMap(location)));
    case None =>
      reply := Success(Null);
  }

  /** Among the first k providers, one holding an eligible fix means one is
      the best among them. */
  lemma {:induction false} BestAmongExists(pl: PlatformState, k: nat)
    requires k <= |ScanOrder|
    requires exists q :: Rank(q) < k && Eligible(pl, q)
    ensures exists p :: BestAmong(pl, p, k)
  {
    RankInjective();
    var q :| Rank(q) < k && Eligible(pl, q);
    if Rank(q) == k - 1 && !exists r :: Rank(r) < k - 1 && Eligible(pl, r) {
      assert BestAmong(pl, q, k);
    } else {
      var r :| Rank(r) < k - 1 && Eligible(pl, r);
      BestAmongExists(pl, k - 1);
      var p :| BestAmong(pl, p, k - 1);
      var last := ScanOrder[k - 1];
      assert Rank(last) == k - 1;
      if Eligible(pl, last) && FixOf(pl, last).time > FixOf(pl, p).time {
        assert BestAmong(pl, last, k);
      } else {
        assert BestAmong(pl, p, k);
      }
    }
  }

  /** The query answers null exactly when no provider is read that fails,
      and no enabled provider holds a fix with a positive time. */
  lemma NullIffNothingEligible(pl: PlatformState)
    requires HasLocationPermission(pl)
    ensures LastKnownReply(pl) == Success(Null) <==>
      (forall p :: !ReadFails(pl, p)) && (forall p :: !Eligible(pl, p))
  {
    if forall p :: !ReadFails(pl, p) {
      assert !exists p :: FirstFailure(pl, p);
      if exists p :: Eligible(pl, p) {
        BestAmongExists(pl, |ScanOrder|);
        var p :| BestAmong(pl, p, |ScanOrder|);
        assert IsLatest(pl, p);
      }
    } else {
      var p :| ReadFails(pl, p);
      FirstFailureExists(pl, p);
    }
  }

  /** Some failing read means a first failing read. */
  lemma {:induction false} FirstFailureExists(pl: PlatformState, p: Provider)
    requires ReadFails(pl, p)
    ensures exists f :: FirstFailure(pl, f)
    decreases Rank(p)
  {
    if !FirstFailure(pl, p) {
      var q :| Rank(q) < Rank(p) && ReadFails(pl, q);
      FirstFailureExists(pl, q);
    }
  }

  /** A fix with a non-positive time is never the selected one, and a
      disabled provider's fix never is either. */
  lemma SelectedFixIsEligible(pl: PlatformState, location: Fix)
    requires location.provider.Some?
    requires LastKnownReply(pl) == Success(LocationMap(LocationToMap(location)))
    ensures exists p :: Eligible(pl, p) && WithProviderName(FixOf(pl, p)) == location
  {
  }

  /** Disabled providers are never read: two platforms that agree on the
      permissions, on which providers are enabled and on what the enabled
      ones hold give the same answer. */
  lemma DisabledProvidersIgnored(pl: PlatformState, pl': PlatformState)
    requires pl.fineGranted == pl'.fineGranted && pl.coarseGranted == pl'.coarseGranted
    requires forall p :: pl.Enabled(p) == pl'.Enabled(p)
    requires forall p :: pl.Enabled(p) ==> pl.State(p).lastKnown == pl'.State(p).lastKnown
    ensures LastKnownReply(pl) == LastKnownReply(pl')
  {
    FirstFailureUnique(pl);
    FirstFailureUnique(pl');
    LatestUnique(pl);
    LatestUnique(pl');
    assert forall p :: FirstFailure(pl, p) <==> FirstFailure(pl', p);
    assert forall p :: IsLatest(pl, p) <==> IsLatest(pl', p);
  }
}
