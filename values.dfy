/** Values that cross the method channel: location fixes, the map a fix is
    turned into, and the replies (success, error, not implemented) the
    plugin sends back to the application. */
module Values {

  datatype Option<T> = None | Some(value: T)

  /** One measurement as the location subsystem reports it. Coordinates,
      altitude, speed and bearing are passed through untouched; `accuracy`
      is compared against the requested bound and `time` (milliseconds
      since the epoch) decides which cached fix is the most recent. The
      provider name may be absent. */
  datatype Fix = Fix(
    latitude: real,
    longitude: real,
    accuracy: real,
    altitude: real,
    speed: real,
    bearing: real,
    time: int,
    provider: Option<string>)

  /** One entry of the map sent to the application. */
  datatype Field = Double(d: real) | Long(n: int) | Text(s: string)

  /** The payload of a successful reply. */
  datatype Value = Null | Bool(b: bool) | LocationMap(fields: map<string, Field>)

  datatype ErrorCode = PermissionDenied | LocationDisabled | NoProvider | TimedOut | LocationError
  {
    /** The error code string the application receives. */
    function Name(): string {
      match this
      case PermissionDenied => "PERMISSION_DENIED"
      case LocationDisabled => "LOCATION_DISABLED"
      case NoProvider => "NO_PROVIDER"
      case TimedOut => "TIMEOUT"
      case LocationError => "LOCATION_ERROR"
    }
  }

  /** Different errors reach the application under different code strings. */
  lemma ErrorNamesDistinct(a: ErrorCode, b: ErrorCode)
    requires a.Name() == b.Name()
    ensures a == b
  {
  }

  /** What a method-channel call is answered with. */
  datatype Reply = Success(value: Value) | Error(code: ErrorCode, message: Option<string>) | NotImplemented

  const PermissionDeniedReply := Error(PermissionDenied, Some("Location permission not granted"))
  const LocationDisabledReply := Error(LocationDisabled, Some("Location services are disabled"))
  const NoProviderReply := Error(NoProvider, Some("No location provider available"))
  const TimeoutReply := Error(TimedOut, Some("Location request timed out"))

  const DefaultProviderName := "unknown"

  /** The keys every location map carries. */
  const LocationKeys: set<string> :=
    {"latitude", "longitude", "accuracy", "altitude", "speed", "bearing", "timestamp", "provider"}

  /** The provider name reported for a fix: its own, or "unknown". */
  function ProviderName(location: Fix): string {
    match location.provider
    case Some(name) => name
    case None => DefaultProviderName
  }

  /** The map the application receives for a fix. */
  function LocationToMap(location: Fix): (m: map<string, Field>)
    ensures m.Keys == LocationKeys
    ensures m["provider"] == Text(ProviderName(location))
  {
    map[
      "latitude" := Double(location.latitude),
      "longitude" := Double(location.longitude),
      "accuracy" := Double(location.accuracy),
      "altitude" := Double(location.altitude),
      "speed" := Double(location.speed),
      "bearing" := Double(location.bearing),
      "timestamp" := Long(location.time),
      "provider" := Text(ProviderName(location))]
  }

  /** How a reader of the map recovers the fix: every key present with the
      type LocationToMap gives it, or nothing. */
  function FixOfMap(m: map<string, Field>): Option<Fix> {
    if && "latitude" in m && m["latitude"].Double?
       && "longitude" in m && m["longitude"].Double?
       && "accuracy" in m && m["accuracy"].Double?
       && "altitude" in m && m["altitude"].Double?
       && "speed" in m && m["speed"].Double?
       && "bearing" in m && m["bearing"].Double?
       && "timestamp" in m && m["timestamp"].Long?
       && "provider" in m && m["provider"].Text?
    then
      Some(Fix(m["latitude"].d, m["longitude"].d, m["accuracy"].d, m["altitude"].d,
               m["speed"].d, m["bearing"].d, m["timestamp"].n, Some(m["provider"].s)))
    else
      None
  }

  /** The fix as the application sees it: the same, with the provider name
      filled in. */
  function WithProviderName(location: Fix): (r: Fix)
    ensures r.provider.Some?
  {
    location.(provider := Some(ProviderName(location)))
  }

  /** Everything in a fix survives the map, except that a missing provider
      name comes back as "unknown". */
  lemma LocationMapRoundTrip(location: Fix)
    ensures FixOfMap(LocationToMap(location)) == Some(WithProviderName(location))
  {
  }

  /** Conversely, a map with exactly the eight keys that reads back as a fix
      is the map of that fix. */
  lemma MapOfDecodedFix(m: map<string, Field>)
    requires m.Keys == LocationKeys && FixOfMap(m).Some?
    ensures LocationToMap(FixOfMap(m).value) == m
  {
  }

  /** Two fixes with named providers have the same map only if they are the
      same fix. */
  lemma LocationToMapInjective(a: Fix, b: Fix)
    requires a.provider.Some? && b.provider.Some?
    requires LocationToMap(a) == LocationToMap(b)
    ensures a == b
  {
  }
}
