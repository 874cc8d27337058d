/** The MCP session actor as a pure step function: a generic state machine whose three state
    handlers react to one message at a time. What the environment decides while a message is
    handled (clock, scheduler, decoders, executors) is the message's `Env`. */
module Session {
  import opened Wrappers
  import opened Rpc
  import Dispatch

  type Pid = nat

  /** State identifiers are open strings in the actor; these three are the ones in use. */
  datatype StateId = Uninitialized | Initialized | Shutdown | Custom(name: string)

  datatype StateHandler = OnUninitialized | OnInitialized | OnShutdown

  datatype Message =
    | PostStart
    | RegisterConnection(connectionId: string)
    | Wrapped(isAsk: bool, respondTo: string, request: Request, authInfo: string)
    | TryCleanup
    | CheckTtl
    | Foreign

  /** Decoding the parameters of an initialize request. */
  datatype Params = Parsed(version: string, clientInfo: string) | Malformed(error: string)

  /** What a method handler returns: the response it built, or its error. */
  datatype ExecOutcome = Success(response: Response) | Fails(failure: Failure)

  /** What a built-in executor meets: whether its registry is there, whether the parameters decode,
      and the marshalled result or the error of the feature itself. */
  datatype Feature = Feature(available: bool, paramsError: Option<string>, result: FeatureResult)

  datatype FeatureResult = Json(json: string) | FeatureError(failure: Failure)

  datatype Env = Env(
    now: int,
    scheduleOk: bool,
    shutdownOk: bool,
    authOk: bool,
    params: Params,
    marshalError: Option<string>,
    feature: Feature,
    custom: ExecOutcome)

  datatype Context = Context(message: Message, sender: Pid, env: Env)

  datatype Effect =
    | ScheduleOnce(delay: int)
    | SchedulePeriodic(interval: int)
    | Stop
    | Ack(to: Pid)
    | Answer(response: Response)
    | Tell(to: Pid, response: Response)
    | Dropped(connectionId: string, response: Response)
    | Invoke(route: Dispatch.Route)
    | Unhandled
    | HookTaken
    | Raise

  datatype Server = Server(
    ttl: int,
    initializeTimeout: int,
    hasAuth: bool,
    executors: Dispatch.Executors)

  datatype Data = Data(
    sessionId: string,
    protocolVersion: string,
    clientInfo: string,
    lastActivity: int,
    initializeTimeout: int,
    sessionTimeout: int,
    connections: map<string, Pid>,
    notificationsInitialized: bool)

  /** What a state handler returns. `data` is the record after the handler's updates in place,
      which stay even when the handler returns an error. */
  datatype Outcome =
    | Handled(next: Option<StateId>, data: Data, effects: seq<Effect>)
    | Failed(data: Data, effects: seq<Effect>)

  datatype Machine = Machine(
    current: StateId,
    handlers: map<StateId, StateHandler>,
    hook: bool,
    data: Data)

  /** The lifecycle methods the two request handlers switch on. */
  datatype Verb = Initialize | ShutDown | NotifyInitialized | NotifyCancelled | FeatureCall

  function VerbOf(methodName: string): Verb {
    if methodName == "initialize" then Initialize
    else if methodName == "shutdown" then ShutDown
    else if methodName == "notifications/initialized" then NotifyInitialized
    else if methodName == "notifications/cancelled" then NotifyCancelled
    else FeatureCall
  }

  // ---- Construction ----

  const FIVE_MINUTES := 300_000_000_000

  function SessionTimeout(server: Server): (t: int)
    ensures t > 0
  {
    if server.ttl > 0 then server.ttl else FIVE_MINUTES
  }

  function InitializeTimeout(server: Server): (t: int)
    ensures t >= 0
  {
    if server.initializeTimeout > 0 then server.initializeTimeout else SessionTimeout(server) / 10
  }

  // The same timeouts, told from the configured values in nanoseconds.

  predicate IsSessionTimeout(server: Server, t: int) {
    && (server.ttl > 0 ==> t == server.ttl)
    && (server.ttl <= 0 ==> t == 300_000_000_000)
  }

  predicate IsInitializeTimeout(server: Server, t: int) {
    && (server.initializeTimeout > 0 ==> t == server.initializeTimeout)
    && (server.initializeTimeout <= 0 && server.ttl > 0 ==> 10 * t <= server.ttl < 10 * t + 10)
    && (server.initializeTimeout <= 0 && server.ttl <= 0 ==> t == 30_000_000_000)
  }

  function NewData(server: Server, sessionId: string, now: int): Data {
    Data(sessionId, "", "", now, InitializeTimeout(server), SessionTimeout(server), map[], false)
  }

  const HANDLERS: map<StateId, StateHandler> :=
    map[Uninitialized := OnUninitialized, Initialized := OnInitialized, Shutdown := OnShutdown]

  function NewMachine(server: Server, sessionId: string, now: int): Machine {
    Machine(Uninitialized, HANDLERS, true, NewData(server, sessionId, now))
  }

  // ---- Responses ----

  /** `sendResponse`: answer an ask, tell the registered connection, or drop the response. */
  function Deliver(connections: map<string, Pid>, w: Message, r: Response): Effect
    requires w.Wrapped?
  {
    if w.isAsk then Answer(r)
    else if w.respondTo in connections then Tell(connections[w.respondTo], r)
    else Dropped(w.respondTo, r)
  }

  const VERSIONS: seq<string> := ["2025-03-26", "2024-11-05"]

  function Negotiated(requested: string): string {
    if requested in VERSIONS then requested else VERSIONS[0]
  }

  /** `handleInitialize`: the response and the updated record. */
  function HandleInitialize(d: Data, req: Request, env: Env): (Response, Data) {
    if req.paramsJson == "" then
      (CreateErrorResponse(req, INVALID_PARAMS, "Invalid params: missing parameters"), d)
    else match env.params
      case Malformed(e) => (CreateErrorResponse(req, INVALID_PARAMS, "Invalid params: " + e), d)
      case Parsed(version, clientInfo) =>
        var d' := d.(protocolVersion := Negotiated(version), clientInfo := clientInfo, lastActivity := env.now);
        match env.marshalError
        case Some(e) => (CreateErrorResponse(req, INTERNAL, "Internal error: " + e), d')
        case None => (Response(CopyId(req.id), InitializeResult(d'.protocolVersion, d.sessionId)), d')
  }

  function HandleShutdown(req: Request): Response {
    Response(CopyId(req.id), ResultJson("{}"))
  }

  /** A feature request's outcome; `Panic` is a call on a nil executor. */
  datatype Reply = Reply(invoked: seq<Effect>, response: Response, succeeded: bool) | Panic

  /** A built-in executor: `ProcessRequest`, then the feature's result in the prepared response. */
  function RunBuiltIn(req: Request, available: bool, feature: Feature): ExecOutcome {
    if !available then Fails(MethodNotFound(req.methodName))
    else if feature.paramsError.Some? then
      Fails(JsonRpcError(INVALID_PARAMS, "Invalid params: Invalid parameters: " + feature.paramsError.value))
    else match feature.result
      case Json(json) => Success(PrepareResponse(req, json))
      case FeatureError(f) => Fails(f)
  }

  /** The utilities need no registry; a custom handler may return anything. */
  function RunExecutor(h: Dispatch.Handler, req: Request, env: Env): ExecOutcome {
    match h
    case Custom(_) => env.custom
    case UtilitiesExecutor => RunBuiltIn(req, true, env.feature)
    case _ => RunBuiltIn(req, env.feature.available, env.feature)
  }

  /** `handleNonLifecycleRequest` and the conversion of its error into a response. */
  function HandleFeature(server: Server, req: Request, env: Env): Reply {
    if !Dispatch.CanHandleMethod(server.executors, req.methodName) then
      Reply([], CreateFailureResponse(req, MethodNotFound(req.methodName)), false)
    else
      var route := Dispatch.HandleMethod(server.executors, req.methodName);
      if route == Dispatch.NilCall then Panic
      else if route == Dispatch.NotFound then
        Reply([], CreateFailureResponse(req, MethodNotFound(req.methodName)), false)
      else match RunExecutor(Dispatch.HandlerAt(server.executors, route).value, req, env)
        case Success(response) => Reply([Invoke(route)], response, true)
        case Fails(f) => Reply([Invoke(route)], CreateFailureResponse(req, f), false)
  }

  // ---- Message handlers ----

  function Stay(d: Data, effects: seq<Effect>): Outcome {
    Handled(None, d, effects)
  }

  function HandlePostStart(d: Data, env: Env): Outcome {
    if env.scheduleOk then Stay(d, [ScheduleOnce(d.initializeTimeout)]) else Failed(d, [])
  }

  function HandleRegister(d: Data, connectionId: string, sender: Pid, env: Env): Outcome {
    Stay(d.(lastActivity := env.now, connections := d.connections[connectionId := sender]), [Ack(sender)])
  }

  function HandleWrappedUninitialized(d: Data, w: Message, env: Env): Outcome
    requires w.Wrapped?
  {
    match VerbOf(w.request.methodName)
    case Initialize =>
      var (response, d') := HandleInitialize(d, w.request, env);
      Handled(Some(Initialized), d'.(lastActivity := env.now), [Deliver(d'.connections, w, response)])
    case _ =>
      var response := CreateErrorResponse(w.request, NOT_INITIALIZED, "Session not initialized");
      Stay(d, [Deliver(d.connections, w, response)])
  }

  predicate AuthPasses(server: Server, w: Message, env: Env)
    requires w.Wrapped?
  {
    !(w.authInfo != "" && server.hasAuth) || env.authOk
  }

  function HandleWrappedInitialized(server: Server, d: Data, w: Message, env: Env): Outcome
    requires w.Wrapped?
  {
    if !AuthPasses(server, w, env) then Failed(d, []) else
    match VerbOf(w.request.methodName)
    case Initialize =>
      var (response, d') := HandleInitialize(d, w.request, env);
      Stay(d'.(lastActivity := env.now), [Deliver(d'.connections, w, response)])
    case ShutDown =>
      Handled(Some(Shutdown), d, [Deliver(d.connections, w, HandleShutdown(w.request))])
    case NotifyInitialized => Stay(d.(lastActivity := env.now, notificationsInitialized := true), [])
    case NotifyCancelled => Stay(d.(lastActivity := env.now), [])
    case FeatureCall =>
      match HandleFeature(server, w.request, env)
      case Panic => Failed(d, [])
      case Reply(invoked, response, succeeded) =>
        var d' := if succeeded then d.(lastActivity := env.now) else d;
        Stay(d', invoked + [Deliver(d.connections, w, response)])
  }

  function HandleCleanupUninitialized(d: Data, env: Env): Outcome {
    if env.shutdownOk then Stay(d, [Stop]) else Failed(d, [])
  }

  function HandleCleanupInitialized(d: Data, env: Env): Outcome {
    var d' := d.(lastActivity := env.now);
    if env.scheduleOk then Stay(d', [SchedulePeriodic(d.sessionTimeout / 2)]) else Failed(d', [])
  }

  predicate Expired(d: Data, now: int) {
    d.lastActivity + d.sessionTimeout < now
  }

  function HandleCheckTtl(d: Data, env: Env): Outcome {
    Stay(d, if Expired(d, env.now) then [Stop] else [])
  }

  // ---- State handlers ----

  function InUninitialized(d: Data, c: Context): Outcome {
    match c.message
    case PostStart => HandlePostStart(d, c.env)
    case RegisterConnection(id) => HandleRegister(d, id, c.sender, c.env)
    case Wrapped(_, _, _, _) => HandleWrappedUninitialized(d, c.message, c.env)
    case TryCleanup => HandleCleanupUninitialized(d, c.env)
    case CheckTtl => HandleCheckTtl(d, c.env)
    case Foreign => Stay(d, [Unhandled])
  }

  function InInitialized(server: Server, d: Data, c: Context): Outcome {
    match c.message
    case RegisterConnection(id) => HandleRegister(d, id, c.sender, c.env)
    case Wrapped(_, _, _, _) => HandleWrappedInitialized(server, d, c.message, c.env)
    case CheckTtl => HandleCheckTtl(d, c.env)
    case TryCleanup => HandleCleanupInitialized(d, c.env)
    case _ => Stay(d, [Unhandled])
  }

  function InShutdown(d: Data, c: Context): Outcome {
    match c.message
    case CheckTtl => Stay(d, [Stop])
    case _ => Stay(d, [])
  }

  function Handle(server: Server, h: StateHandler, d: Data, c: Context): Outcome {
    match h
    case OnUninitialized => InUninitialized(d, c)
    case OnInitialized => InInitialized(server, d, c)
    case OnShutdown => InShutdown(d, c)
  }

  // ---- The generic machine ----

  /** `Receive` on a handler's outcome: an error leaves the state alone, a result commits. */
  function Commit(m: Machine, o: Outcome): (Machine, seq<Effect>) {
    match o
    case Failed(d, es) => (m.(data := d), es + [Raise])
    case Handled(next, d, es) =>
      (m.(current := if next.Some? then next.value else m.current, data := d), es)
  }

  function Receive(server: Server, m: Machine, c: Context): (Machine, seq<Effect>) {
    if m.current in m.handlers then Commit(m, Handle(server, m.handlers[m.current], m.data, c))
    else if m.hook then (m, [HookTaken])
    else (m, [Unhandled])
  }

  /** The machine after a sequence of messages. */
  function Run(server: Server, m: Machine, cs: seq<Context>): Machine {
    if cs == [] then m
    else Receive(server, Run(server, m, cs[..|cs| - 1]), cs[|cs| - 1]).0
  }
}
