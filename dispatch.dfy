/** The method-channel handler: map a method name to an action, filling in
    the default timeout and accuracy, and answer the simple queries and the
    foreground-service commands directly. */
module MethodDispatch {
  import opened Values
  import opened Platform
  import opened LastKnown
  import opened FreshLocation
  import opened SingleLocation

  /** A call from the application: the method name and the two optional
      arguments of a single-location request. */
  datatype MethodCall = MethodCall(name: string, timeout: Option<int>, accuracy: Option<real>)

  datatype Action =
    | RequestSingle(timeoutMs: int, accuracyMeters: real)
    | LastKnownQuery
    | EnabledQuery
    | PermissionQuery
    | StartService
    | StopService
    | RunningQuery
    | Unknown

  /** What the handler asks of the foreground service. */
  datatype ServiceCommand = Start | Stop

  const DefaultTimeoutMs := 30000
  const DefaultAccuracyMeters := 100.0

  const LocationMethods: set<string> :=
    {"requestSingleLocation", "getLastKnownLocation", "isLocationEnabled", "hasLocationPermission"}
  const ServiceMethods: set<string> := {"start", "stop", "isRunning"}

  function OrElse<T>(o: Option<T>, default: T): T {
    match o
    case Some(v) => v
    case None => default
  }

  /** The action for a call. Missing arguments of a single-location request
      take their defaults; a name the handler does not know is not
      implemented. */
  function Dispatch(call: MethodCall): (a: Action)
    ensures a.RequestSingle? <==> call.name == "requestSingleLocation"
    ensures a.RequestSingle? && call.timeout.None? ==> a.timeoutMs == DefaultTimeoutMs
    ensures a.RequestSingle? && call.accuracy.None? ==> a.accuracyMeters == DefaultAccuracyMeters
    ensures a.RequestSingle? && call.timeout.Some? ==> a.timeoutMs == call.timeout.value
    ensures a.RequestSingle? && call.accuracy.Some? ==> a.accuracyMeters == call.accuracy.value
    ensures a == LastKnownQuery <==> call.name == "getLastKnownLocation"
    ensures a == EnabledQuery <==> call.name == "isLocationEnabled"
    ensures a == PermissionQuery <==> call.name == "hasLocationPermission"
    ensures a == StartService <==> call.name == "start"
    ensures a == StopService <==> call.name == "stop"
    ensures a == RunningQuery <==> call.name == "isRunning"
    ensures a.Unknown? <==> call.name !in LocationMethods + ServiceMethods
  {
    match call.name
    case "requestSingleLocation" =>
      RequestSingle(OrElse(call.timeout, DefaultTimeoutMs), OrElse(call.accuracy, DefaultAccuracyMeters))
    case "getLastKnownLocation" => LastKnownQuery
    case "isLocationEnabled" => EnabledQuery
    case "hasLocationPermission" => PermissionQuery
    case "start" => StartService
    case "stop" => StopService
    case "isRunning" => RunningQuery
    case _ => Unknown
  }

  /** The answer to an action that needs no location query: the two status
      queries, the service commands and an unknown method. */
  function DirectReply(a: Action, pl: PlatformState): (r: Option<Reply>)
    requires !a.RequestSingle? && !a.LastKnownQuery?
    ensures a in {StartService, StopService, RunningQuery} ==> r == Some(Success(Bool(true)))
    ensures a.Unknown? <==> r == Some(NotImplemented)
    ensures a.EnabledQuery? ==> r == Some(Success(Bool(pl.Enabled(Gps) || pl.Enabled(Network))))
    ensures a.PermissionQuery? ==> r == Some(Success(Bool(pl.fineGranted || pl.coarseGranted)))
  {
    match a
    case EnabledQuery => Some(Success(Bool(IsLocationEnabled(pl))))
    case PermissionQuery => Some(Success(Bool(HasLocationPermission(pl))))
    case StartService => Some(Success(Bool(true)))
    case StopService => Some(Success(Bool(true)))
    case RunningQuery => Some(Success(Bool(true)))
    case Unknown => Some(NotImplemented)
  }

  /** The service command a call issues, if any. */
  function CommandOf(a: Action): (c: Option<ServiceCommand>)
    ensures c == Some(Start) <==> a.StartService?
    ensures c == Some(Stop) <==> a.StopService?
    ensures c.None? <==> !a.StartService? && !a.StopService?
  {
    match a
    case StartService => Some(Start)
    case StopService => Some(Stop)
    case _ => None
  }

  /** Handle one call: answer it, or start a fresh-location session whose
      answer comes later; start or stop the foreground service when asked. */
  method OnMethodCall(call: MethodCall, pl: PlatformState, registration: Registration)
    returns (reply: Option<Reply>, session: Session?, command: Option<ServiceCommand>)
    ensures session != null ==> fresh(session)
    ensures call.name == "requestSingleLocation" ==>
      Launched(SinglePlan(pl, registration), OrElse(call.timeout, DefaultTimeoutMs),
               OrElse(call.accuracy, DefaultAccuracyMeters), reply, session)
    ensures call.name == "getLastKnownLocation" ==> reply == Some(LastKnownReply(pl))
    ensures call.name == "isLocationEnabled" ==> reply == Some(Success(Bool(IsLocationEnabled(pl))))
    ensures call.name == "hasLocationPermission" ==>
      reply == Some(Success(Bool(HasLocationPermission(pl))))
    ensures call.name == "start" ==> command == Some(Start) && reply == Some(Success(Bool(true)))
    ensures call.name == "stop" ==> command == Some(Stop) && reply == Some(Success(Bool(true)))
    ensures call.name == "isRunning" ==> reply == Some(Success(Bool(true)))
    ensures call.name !in {"start", "stop"} ==> command == None
    ensures call.name !in LocationMethods + ServiceMethods ==> reply == Some(NotImplemented)
    ensures call.name != "requestSingleLocation" ==> session == null
  {
    var action := Dispatch(call);
    command := CommandOf(action);
    match action
    case RequestSingle(timeoutMs, accuracyMeters) =>
      reply, session := RequestSingleLocation(pl, timeoutMs, accuracyMeters, registration);
    case LastKnownQuery =>
      var r := GetLastKnownLocation(pl);
      reply, session := Some(r), null;
    case _ =>
      reply, session := DirectReply(action, pl), null;
  }
}
