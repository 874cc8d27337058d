/** What one message does to the session machine, attribute by attribute. */
module SessionSteps {
  import opened Wrappers
  import opened Rpc
  import opened Session
  import Dispatch

  predicate IsRequest(c: Context, v: Verb) {
    c.message.Wrapped? && VerbOf(c.message.request.methodName) == v
  }

  predicate Admitted(server: Server, c: Context) {
    c.message.Wrapped? && AuthPasses(server, c.message, c.env)
  }

  /** A machine in one of its three configured states. */
  predicate Proper(m: Machine) {
    m.handlers == HANDLERS && m.current in HANDLERS && m.hook
  }

  function NextPhase(server: Server, phase: StateId, c: Context): StateId {
    if phase == Uninitialized && IsRequest(c, Initialize) then Initialized
    else if phase == Initialized && IsRequest(c, ShutDown) && Admitted(server, c) then Shutdown
    else phase
  }

  /** The executor that the router calls for a feature request, if the guard admits it. */
  function RouteOf(server: Server, c: Context): Dispatch.Route
    requires c.message.Wrapped?
  {
    if Dispatch.CanHandleMethod(server.executors, c.message.request.methodName)
    then Dispatch.HandleMethod(server.executors, c.message.request.methodName)
    else Dispatch.NotFound
  }

  /** The handler that a feature request is routed to. */
  function HandlerOf(server: Server, c: Context): Dispatch.Handler
    requires c.message.Wrapped? && Dispatch.Calls(RouteOf(server, c))
  {
    Dispatch.HandlerAt(server.executors, RouteOf(server, c)).value
  }

  /** The registry behind a built-in executor is there; the utilities need none. */
  predicate IsAvailable(h: Dispatch.Handler, f: Feature) {
    h.UtilitiesExecutor? || f.available
  }

  /** A handler is reached and gives a result: a custom one returns a response; of a built-in one
      the registry is there, the parameters decode and the feature has no error. */
  predicate Succeeds(server: Server, c: Context)
    requires c.message.Wrapped?
  {
    && Dispatch.Calls(RouteOf(server, c))
    && var h, f := HandlerOf(server, c), c.env.feature;
       if h.Custom? then c.env.custom.Success?
       else IsAvailable(h, f) && f.paramsError.None? && f.result.Json?
  }

  /** The messages that renew a session's last activity. Requests refused, failed or unknown do
      not, and nothing does after shutdown. */
  predicate Renews(server: Server, phase: StateId, c: Context) {
    match phase
    case Uninitialized => c.message.RegisterConnection? || IsRequest(c, Initialize)
    case Initialized =>
      || c.message.RegisterConnection?
      || c.message == TryCleanup
      || (Admitted(server, c) &&
          match VerbOf(c.message.request.methodName)
          case ShutDown => false
          case FeatureCall => Succeeds(server, c)
          case _ => true)
    case _ => false
  }

  predicate Registers(phase: StateId, c: Context, id: string) {
    c.message == RegisterConnection(id) && phase != Shutdown
  }

  /** The initialize requests whose parameters reach version negotiation. */
  predicate Negotiates(server: Server, phase: StateId, c: Context) {
    && IsRequest(c, Initialize) && c.message.request.paramsJson != "" && c.env.params.Parsed?
    && (phase == Uninitialized || (phase == Initialized && Admitted(server, c)))
  }

  lemma StepPhase(server: Server, m: Machine, c: Context)
    requires Proper(m)
    ensures var m' := Receive(server, m, c).0;
            Proper(m') && m'.current == NextPhase(server, m.current, c)
  {
    hide VerbOf, Dispatch.CanHandleMethod, Dispatch.HandleMethod, HandleInitialize;
  }

  lemma StepActivity(server: Server, m: Machine, c: Context)
    requires Proper(m)
    ensures Receive(server, m, c).0.data.lastActivity ==
            if Renews(server, m.current, c) then c.env.now else m.data.lastActivity
  {
    hide VerbOf, Dispatch.CanHandleMethod, Dispatch.HandleMethod;
  }

  lemma StepConnections(server: Server, m: Machine, c: Context)
    requires Proper(m)
    ensures Receive(server, m, c).0.data.connections ==
            if c.message.RegisterConnection? && m.current != Shutdown
            then m.data.connections[c.message.connectionId := c.sender] else m.data.connections
  {
    hide VerbOf, Dispatch.CanHandleMethod, Dispatch.HandleMethod;
  }

  lemma StepVersion(server: Server, m: Machine, c: Context)
    requires Proper(m)
    ensures var d := Receive(server, m, c).0.data;
            && d.protocolVersion ==
               (if Negotiates(server, m.current, c) then Negotiated(c.env.params.version) else m.data.protocolVersion)
            && d.clientInfo ==
               (if Negotiates(server, m.current, c) then c.env.params.clientInfo else m.data.clientInfo)
  {
    hide VerbOf, Negotiated, HandleFeature, Dispatch.CanHandleMethod, Dispatch.HandleMethod;
  }

  /** The client has said that it finished initializing. */
  predicate Notifies(server: Server, phase: StateId, c: Context) {
    phase == Initialized && IsRequest(c, NotifyInitialized) && Admitted(server, c)
  }

  lemma StepNotification(server: Server, m: Machine, c: Context)
    requires Proper(m)
    ensures Receive(server, m, c).0.data.notificationsInitialized <==>
            m.data.notificationsInitialized || Notifies(server, m.current, c)
  {
    hide VerbOf, HandleFeature, Negotiated, Dispatch.CanHandleMethod, Dispatch.HandleMethod;
  }

  /** The id and the timeouts never change. */
  lemma StepConfiguration(server: Server, m: Machine, c: Context)
    requires Proper(m)
    ensures var d := Receive(server, m, c).0.data;
            && d.sessionId == m.data.sessionId
            && d.sessionTimeout == m.data.sessionTimeout
            && d.initializeTimeout == m.data.initializeTimeout
  {
    hide VerbOf, Dispatch.CanHandleMethod, Dispatch.HandleMethod;
  }
}
