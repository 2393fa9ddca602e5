# Native location plugin: a verified model of its decision policy

The Traccar client's `NativeLocationPlugin` answers location queries that come from the
Flutter application over a method channel. It does this by asking Android's `LocationManager`.
This project models the decisions the plugin makes and proves what they guarantee:

- **Last-known location.** The plugin scans the providers GPS, network and passive in that
  order and skips disabled ones. It keeps the cached fix whose timestamp is strictly greater
  than the best so far, starting from a best time of zero. A provider read that throws ends
  the scan with `LOCATION_ERROR`. If nothing qualifies, the answer is `null`, which is a
  success. `LastKnown.GetLastKnownLocation` is the scan, written as the loop the source
  has. It is proved equal to `LastKnown.LastKnownReply`, a definition with no loop: the
  first failing read, else the latest eligible fix with ties going to the earlier provider,
  else null.
- **Single-location request.** The checks run in this order: permission
  (`PERMISSION_DENIED`), then GPS-or-network enabled (`LOCATION_DISABLED`), then the
  cache. Any cached fix is returned unchanged, whatever its accuracy. On a cache miss or a
  cache error, a fresh request subscribes to GPS if it is enabled, else to the network
  provider (`NO_PROVIDER` when neither is). `SingleLocation.SinglePlan` states this
  policy, and `SingleLocation.RequestSingleLocation` is proved to follow it.
- **Fresh-request completion.** Location updates and the timeout are both run on the main
  looper, so they arrive one at a time as a sequence of events. `FreshLocation.Session`
  holds the one-shot `locationReceived` flag, the listener registration, the pending
  timeout and every answer sent so far. Its invariant ties these fields to the events
  delivered. Whatever the event sequence, at most one answer is sent. That answer belongs
  to the first settling event: an update whose accuracy is within the bound, or the
  timeout.
- **Dispatch.** `MethodDispatch.Dispatch` maps method names to actions. A missing timeout
  defaults to 30000 and a missing accuracy to 100.0. `start`, `stop` and `isRunning`
  answer `true`, and unknown names answer "not implemented". `Values.LocationToMap`
  builds the eight-key map, with the provider defaulting to `"unknown"`.

The operating system is an input, `Platform.PlatformState`. It holds the two permissions
and, for each provider, an enabled flag and the outcome of reading its last-known fix
(a fix, none, or an exception). Registering the listener is the input
`SingleLocation.Registration`, which either succeeds or throws. Updates and the timeout
are `FreshLocation.Event` values.

Three consequences of the code are worth stating plainly:

- The cached fix's accuracy is not checked (line 157): a cached fix of any accuracy is
  returned as it is, and only fresh updates are held to the accuracy bound.
- A fix with time zero or less is never selected, because `bestTime` starts at 0.
- The timeout runnable is not removed after an update succeeds. It still runs and does
  nothing, which `Session.timeoutPending` records.

## Model

| member | source | states |
|---|---|---|
| `Values.ErrorNamesDistinct` | android/app/src/main/kotlin/org/traccar/client/NativeLocationPlugin.kt:104-236 | the error code strings sent to the application (PERMISSION_DENIED, LOCATION_DISABLED, NO_PROVIDER, TIMEOUT, LOCATION_ERROR) tell every error apart |
| `Values.LocationToMap` | android/app/src/main/kotlin/org/traccar/client/NativeLocationPlugin.kt:238-249 | the map always has exactly the eight keys; its provider entry is the fix's provider name or "unknown" |
| `Values.LocationMapRoundTrip` | android/app/src/main/kotlin/org/traccar/client/NativeLocationPlugin.kt:238-249 | reading the map back gives the fix unchanged, except that a missing provider becomes "unknown" |
| `Values.MapOfDecodedFix` | android/app/src/main/kotlin/org/traccar/client/NativeLocationPlugin.kt:238-249 | a map with the eight keys that reads back as a fix is that fix's map (the other direction of the round trip) |
| `Values.LocationToMapInjective` | android/app/src/main/kotlin/org/traccar/client/NativeLocationPlugin.kt:238-249 | two fixes with named providers that give the same map are equal |
| `Platform.HasLocationPermission` | android/app/src/main/kotlin/org/traccar/client/NativeLocationPlugin.kt:88-91 | either the fine or the coarse location permission is enough, and nothing else grants it |
| `Platform.IsLocationEnabled` | android/app/src/main/kotlin/org/traccar/client/NativeLocationPlugin.kt:93-101 | enabled iff some provider other than passive (GPS or network) is enabled; the source also answers false when `isProviderEnabled` throws, which is not modelled |
| `Platform.ChooseProvider` | android/app/src/main/kotlin/org/traccar/client/NativeLocationPlugin.kt:182-189 | GPS when enabled, else network when enabled, never passive; a provider is chosen iff location is enabled (GPS or network, lines 93-101) |
| `LastKnown.Rank` | android/app/src/main/kotlin/org/traccar/client/NativeLocationPlugin.kt:112-116 | each provider's position in the scan order GPS, network, passive |
| `LastKnown.LatestUnique` | android/app/src/main/kotlin/org/traccar/client/NativeLocationPlugin.kt:121-129 | at most one provider's fix is the latest once ties go to the earlier provider |
| `LastKnown.GetLastKnownLocation` | android/app/src/main/kotlin/org/traccar/client/NativeLocationPlugin.kt:104-140 | the scan's answer: permission denied; else the first enabled provider whose read throws, as LOCATION_ERROR; else the fix with the strictly greatest positive time, ties going to the earlier provider; else null |
| `LastKnown.BestAmongExists` | android/app/src/main/kotlin/org/traccar/client/NativeLocationPlugin.kt:118-129 | whenever some scanned provider holds an eligible fix, a best one exists among them |
| `LastKnown.NullIffNothingEligible` | android/app/src/main/kotlin/org/traccar/client/NativeLocationPlugin.kt:118-135 | with permission, the answer is null iff no enabled read throws and no enabled provider holds a fix with a positive time |
| `LastKnown.FirstFailureExists` | android/app/src/main/kotlin/org/traccar/client/NativeLocationPlugin.kt:121-139 | a throwing read at an enabled provider means there is a first one in scan order |
| `LastKnown.SelectedFixIsEligible` | android/app/src/main/kotlin/org/traccar/client/NativeLocationPlugin.kt:122-132 | a returned fix comes from an enabled provider and has a positive time |
| `LastKnown.DisabledProvidersIgnored` | android/app/src/main/kotlin/org/traccar/client/NativeLocationPlugin.kt:121-123 | what a disabled provider holds never changes the answer |
| `FreshLocation.FirstSettling` | android/app/src/main/kotlin/org/traccar/client/NativeLocationPlugin.kt:192-217 | the position of the first event that is a timeout or an update within the bound, with no such event before it; none iff there is no such event |
| `FreshLocation.Replies` | android/app/src/main/kotlin/org/traccar/client/NativeLocationPlugin.kt:192-217 | at most one answer for any event sequence; none iff no event settles the request |
| `FreshLocation.SettledIsFinal` | android/app/src/main/kotlin/org/traccar/client/NativeLocationPlugin.kt:196-216 | once answered, later updates and the timeout change nothing |
| `FreshLocation.RepliesAfterEvent` | android/app/src/main/kotlin/org/traccar/client/NativeLocationPlugin.kt:196-216 | one more event answers iff nothing answered before and the event settles |
| `FreshLocation.UnsettledPrefixIgnored` | android/app/src/main/kotlin/org/traccar/client/NativeLocationPlugin.kt:196-216 | events before the first settling one decide nothing: the answers are those of the events after them |
| `FreshLocation.InaccurateUpdateIgnored` | android/app/src/main/kotlin/org/traccar/client/NativeLocationPlugin.kt:196 | an update less accurate than the bound, at any position in the sequence, changes no answer |
| `FreshLocation.TimeoutUnlessAccurateUpdateFirst` | android/app/src/main/kotlin/org/traccar/client/NativeLocationPlugin.kt:210-217 | the first timeout answers TIMEOUT iff no update within the bound came before it; otherwise the earlier answer stands |
| `FreshLocation.FirstAccurateUpdateWins` | android/app/src/main/kotlin/org/traccar/client/NativeLocationPlugin.kt:195-201 | accuracies 150, 120, 80, 200 against 100: the third update answers |
| `FreshLocation.Session.constructor` | android/app/src/main/kotlin/org/traccar/client/NativeLocationPlugin.kt:191-230 | a new request: listener registered, timeout posted, flag clear, nothing answered |
| `FreshLocation.Session.OnLocationChanged` | android/app/src/main/kotlin/org/traccar/client/NativeLocationPlugin.kt:195-202 | the first update within the bound sends its map and unregisters the listener; any other update leaves every field as it was |
| `FreshLocation.Session.OnTimeout` | android/app/src/main/kotlin/org/traccar/client/NativeLocationPlugin.kt:210-217 | unless already answered, sends TIMEOUT and unregisters the listener; afterwards the flag is set and the listener is gone |
| `FreshLocation.Session.Deliver` | android/app/src/main/kotlin/org/traccar/client/NativeLocationPlugin.kt:191-230 | after any events the answers are those of the first settling event, at most one |
| `FreshLocation.RunSession` | android/app/src/main/kotlin/org/traccar/client/NativeLocationPlugin.kt:178-236 | a fresh request fed any events answers at most once, with the first settling event's answer, and stays subscribed iff unanswered |
| `SingleLocation.RequestFreshLocation` | android/app/src/main/kotlin/org/traccar/client/NativeLocationPlugin.kt:178-236 | NO_PROVIDER when neither GPS nor network is enabled; LOCATION_ERROR and no session when registration throws; otherwise a new session on the chosen provider with the caller's timeout and bound |
| `SingleLocation.RequestSingleLocation` | android/app/src/main/kotlin/org/traccar/client/NativeLocationPlugin.kt:143-175 | permission check, then enabled check, then any cached fix unchanged, else a fresh request |
| `SingleLocation.PermissionCheckedFirst` | android/app/src/main/kotlin/org/traccar/client/NativeLocationPlugin.kt:144-147 | without permission both queries answer PERMISSION_DENIED and nothing is subscribed (lines 105-108 too) |
| `SingleLocation.DisabledBeforeCache` | android/app/src/main/kotlin/org/traccar/client/NativeLocationPlugin.kt:149-152 | with neither GPS nor network enabled the answer is LOCATION_DISABLED, even if passive holds a fix |
| `SingleLocation.SubscribesOnlyOnCacheMiss` | android/app/src/main/kotlin/org/traccar/client/NativeLocationPlugin.kt:155-189 | a subscription happens only after both checks pass and the cache gave no fix, and goes to GPS if enabled, else network |
| `SingleLocation.CachedFixAnswers` | android/app/src/main/kotlin/org/traccar/client/NativeLocationPlugin.kt:156-160 | any cached fix is the answer, unchanged, whatever its accuracy |
| `SingleLocation.EmptyCacheSubscribes` | android/app/src/main/kotlin/org/traccar/client/NativeLocationPlugin.kt:160-163 | with no eligible cached fix and no failing read, the request subscribes |
| `SingleLocation.FailedCacheReadFallsBack` | android/app/src/main/kotlin/org/traccar/client/NativeLocationPlugin.kt:166-169 | a failing cache read leads to a fresh request, not to an error answer |
| `SingleLocation.NeverNoProvider` | android/app/src/main/kotlin/org/traccar/client/NativeLocationPlugin.kt:182-189 | because the enabled check comes first, a single-location request never answers NO_PROVIDER |
| `MethodDispatch.Dispatch` | android/app/src/main/kotlin/org/traccar/client/NativeLocationPlugin.kt:47-81 | each of the seven method names gets its own action (requestSingleLocation, getLastKnownLocation, isLocationEnabled, hasLocationPermission, start, stop, isRunning), every other name is unknown; missing arguments default to 30000 ms and 100.0 m, given ones pass through |
| `MethodDispatch.DirectReply` | android/app/src/main/kotlin/org/traccar/client/NativeLocationPlugin.kt:58-79 | start, stop and isRunning answer true; isLocationEnabled answers GPS-or-network; hasLocationPermission answers fine-or-coarse; not implemented exactly for unknown names |
| `MethodDispatch.CommandOf` | android/app/src/main/kotlin/org/traccar/client/NativeLocationPlugin.kt:65-72 | start issues Start, stop issues Stop, and no other action touches the foreground service |
| `MethodDispatch.OnMethodCall` | android/app/src/main/kotlin/org/traccar/client/NativeLocationPlugin.kt:47-81 | by method name: requestSingleLocation starts the single-location request with the defaulted arguments; getLastKnownLocation answers the scan's reply; isLocationEnabled and hasLocationPermission answer their booleans; start and stop answer true and issue Start or Stop; isRunning answers true; any other name answers not implemented; only start and stop issue a command, and only requestSingleLocation creates a session |

## Left out

- The foreground service itself (`LocationForegroundService.kt`) is not modelled: its notification, wake lock and SDK-version branch are operating-system calls. The model only records that `start` and `stop` issue a command to it.
- Channel registration (`onAttachedToEngine`, `onDetachedFromEngine`) and logging are left out. They are plumbing. The same handler serves both channels, so one `Dispatch` covers both.
- Each call reads one consistent snapshot of the platform. The source asks `isProviderEnabled` several times, and a provider switched on or off between those asks is not modelled.
- An exception from `isProviderEnabled` is not modelled. In `isLocationEnabled` it would read as "disabled". An exception from a provider's last-known read is modelled.
- Time is not modelled: the timeout is one event in the sequence, and `timeoutMs` is only carried along.
- Accuracy is a real number, so the float-to-double widening and NaN are not modelled. The other coordinates pass through unchanged.
- A method-channel argument of the wrong type (a cast failure in `call.argument`) is not modelled. The 32-bit range of the timeout argument is not modelled either.
- The cache callback's `notImplemented` branch (lines 171-173) is modelled. It cannot occur, because the last-known query never answers "not implemented".
- Updates that arrive after the listener is unregistered are still delivered. The operating system stops sending them, but the model allows any sequence, and the proof shows they change nothing.
