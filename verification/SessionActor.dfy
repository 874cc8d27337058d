/** The session actor as it runs: a state-machine object whose handlers update one session record
    in place. Each method is proved to do what the step function of `Session` says. */
module SessionActor {
  import opened Wrappers
  import opened Rpc
  import S = Session
  import Dispatch

  class SessionData {
    const sessionId: string
    const initializeTimeout: int
    const sessionTimeout: int
    var protocolVersion: string
    var clientInfo: string
    var lastActivity: int
    var connections: map<string, S.Pid>
    var notificationsInitialized: bool

    constructor (server: S.Server, sessionId: string, now: int)
      ensures View() == S.NewData(server, sessionId, now)
    {
      this.sessionId := sessionId;
      initializeTimeout := S.InitializeTimeout(server);
      sessionTimeout := S.SessionTimeout(server);
      protocolVersion, clientInfo := "", "";
      lastActivity := now;
      connections := map[];
      notificationsInitialized := false;
    }

    function View(): S.Data
      reads this
    {
      S.Data(sessionId, protocolVersion, clientInfo, lastActivity, initializeTimeout, sessionTimeout,
             connections, notificationsInitialized)
    }
  }

  /** A handler's return value; an error carries neither state nor data. */
  datatype HandlingResult = Result(next: Option<S.StateId>, nextData: SessionData) | HandlerError

  /** What a handler returned, left in the record and caused, as one outcome. */
  function OutcomeOf(result: HandlingResult, view: S.Data, effects: seq<S.Effect>): S.Outcome {
    match result
    case Result(next, _) => S.Handled(next, view, effects)
    case HandlerError => S.Failed(view, effects)
  }

  ghost predicate Keeps(result: HandlingResult, d: SessionData) {
    result.Result? ==> result.nextData == d
  }

  method Stay(d: SessionData) returns (result: HandlingResult)
    ensures result == Result(None, d)
  {
    result := Result(None, d);
  }

  // ---- Responses ----

  method SendResponse(d: SessionData, w: S.Message, response: Response) returns (effect: S.Effect)
    requires w.Wrapped?
    ensures effect == S.Deliver(d.connections, w, response)
  {
    if w.isAsk {
      effect := S.Answer(response);
    } else {
      if w.respondTo !in d.connections {
        return S.Dropped(w.respondTo, response);
      }
      effect := S.Tell(d.connections[w.respondTo], response);
    }
  }

  /** The version loop: the requested version if the server supports it, else the newest. */
  method Negotiate(requested: string) returns (version: string)
    ensures version in S.VERSIONS
    ensures version == if requested in S.VERSIONS then requested else S.VERSIONS[0]
  {
    version := S.VERSIONS[0];
    for i := 0 to |S.VERSIONS|
      invariant version == S.VERSIONS[0]
      invariant requested !in S.VERSIONS[..i]
    {
      if requested == S.VERSIONS[i] {
        version := requested;
        return;
      }
    }
  }

  method HandleInitialize(d: SessionData, req: Request, env: S.Env) returns (response: Response)
    modifies d
    ensures (response, d.View()) == S.HandleInitialize(old(d.View()), req, env)
  {
    if req.paramsJson == "" {
      return CreateErrorResponse(req, INVALID_PARAMS, "Invalid params: missing parameters");
    }
    if env.params.Malformed? {
      return CreateErrorResponse(req, INVALID_PARAMS, "Invalid params: " + env.params.error);
    }
    var useVersion := Negotiate(env.params.version);
    d.protocolVersion := useVersion;
    d.clientInfo := env.params.clientInfo;
    d.lastActivity := env.now;
    if env.marshalError.Some? {
      return CreateErrorResponse(req, INTERNAL, "Internal error: " + env.marshalError.value);
    }
    response := Response(CopyId(req.id), InitializeResult(useVersion, d.sessionId));
  }

  // ---- Message handlers ----

  method HandlePostStart(d: SessionData, env: S.Env) returns (result: HandlingResult, effects: seq<S.Effect>)
    ensures Keeps(result, d)
    ensures OutcomeOf(result, d.View(), effects) == S.HandlePostStart(d.View(), env)
  {
    if !env.scheduleOk {
      return HandlerError, [];
    }
    effects := [S.ScheduleOnce(d.initializeTimeout)];
    result := Stay(d);
  }

  method HandleRegister(d: SessionData, connectionId: string, sender: S.Pid, env: S.Env)
    returns (result: HandlingResult, effects: seq<S.Effect>)
    modifies d
    ensures Keeps(result, d)
    ensures OutcomeOf(result, d.View(), effects) == S.HandleRegister(old(d.View()), connectionId, sender, env)
  {
    d.lastActivity := env.now;
    d.connections := d.connections[connectionId := sender];
    effects := [S.Ack(sender)];
    result := Stay(d);
  }

  method HandleWrappedUninitialized(d: SessionData, w: S.Message, env: S.Env)
    returns (result: HandlingResult, effects: seq<S.Effect>)
    requires w.Wrapped?
    modifies d
    ensures Keeps(result, d)
    ensures OutcomeOf(result, d.View(), effects) == S.HandleWrappedUninitialized(old(d.View()), w, env)
  {
    hide S.VerbOf, S.HandleInitialize;
    match S.VerbOf(w.request.methodName)
    case Initialize =>
      var response := HandleInitialize(d, w.request, env);
      var sent := SendResponse(d, w, response);
      effects := [sent];
      d.lastActivity := env.now;
      result := Result(Some(S.Initialized), d);
    case _ =>
      var response := CreateErrorResponse(w.request, NOT_INITIALIZED, "Session not initialized");
      var sent := SendResponse(d, w, response);
      effects := [sent];
      result := Stay(d);
  }

  method HandleWrappedInitialized(server: S.Server, d: SessionData, w: S.Message, env: S.Env)
    returns (result: HandlingResult, effects: seq<S.Effect>)
    requires w.Wrapped?
    modifies d
    ensures Keeps(result, d)
    ensures OutcomeOf(result, d.View(), effects) == S.HandleWrappedInitialized(server, old(d.View()), w, env)
  {
    hide S.VerbOf, S.HandleInitialize, S.HandleFeature;
    effects := [];
    if w.authInfo != "" && server.hasAuth {
      if !env.authOk {
        return HandlerError, [];
      }
    }
    match S.VerbOf(w.request.methodName)
    case Initialize =>
      var response := HandleInitialize(d, w.request, env);
      var sent := SendResponse(d, w, response);
      effects := [sent];
      d.lastActivity := env.now;
      result := Stay(d);
    case ShutDown =>
      var sent := SendResponse(d, w, S.HandleShutdown(w.request));
      effects := [sent];
      result := Result(Some(S.Shutdown), d);
    case NotifyInitialized =>
      d.lastActivity := env.now;
      d.notificationsInitialized := true;
      result := Stay(d);
    case NotifyCancelled =>
      d.lastActivity := env.now;
      result := Stay(d);
    case FeatureCall =>
      var reply := S.HandleFeature(server, w.request, env);
      if reply.Panic? {
        return HandlerError, [];
      }
      var sent := SendResponse(d, w, reply.response);
      effects := reply.invoked + [sent];
      if reply.succeeded {
        d.lastActivity := env.now;
      }
      result := Stay(d);
  }

  method HandleCleanupUninitialized(d: SessionData, env: S.Env)
    returns (result: HandlingResult, effects: seq<S.Effect>)
    ensures Keeps(result, d)
    ensures OutcomeOf(result, d.View(), effects) == S.HandleCleanupUninitialized(d.View(), env)
  {
    if !env.shutdownOk {
      return HandlerError, [];
    }
    effects := [S.Stop];
    result := Stay(d);
  }

  method HandleCleanupInitialized(d: SessionData, env: S.Env)
    returns (result: HandlingResult, effects: seq<S.Effect>)
    modifies d
    ensures Keeps(result, d)
    ensures OutcomeOf(result, d.View(), effects) == S.HandleCleanupInitialized(old(d.View()), env)
  {
    d.lastActivity := env.now;
    if !env.scheduleOk {
      return HandlerError, [];
    }
    effects := [S.SchedulePeriodic(d.sessionTimeout / 2)];
    result := Stay(d);
  }

  method HandleCheckTtl(d: SessionData, env: S.Env) returns (result: HandlingResult, effects: seq<S.Effect>)
    ensures Keeps(result, d)
    ensures OutcomeOf(result, d.View(), effects) == S.HandleCheckTtl(d.View(), env)
  {
    var timeoutAt := d.lastActivity + d.sessionTimeout;
    effects := [];
    if timeoutAt < env.now {
      effects := [S.Stop];
    }
    result := Stay(d);
  }

  // ---- State handlers ----

  method InUninitialized(d: SessionData, c: S.Context) returns (result: HandlingResult, effects: seq<S.Effect>)
    modifies d
    ensures Keeps(result, d)
    ensures OutcomeOf(result, d.View(), effects) == S.InUninitialized(old(d.View()), c)
  {
    hide S.HandleWrappedUninitialized;
    match c.message
    case PostStart => result, effects := HandlePostStart(d, c.env);
    case RegisterConnection(id) => result, effects := HandleRegister(d, id, c.sender, c.env);
    case Wrapped(_, _, _, _) => result, effects := HandleWrappedUninitialized(d, c.message, c.env);
    case TryCleanup => result, effects := HandleCleanupUninitialized(d, c.env);
    case CheckTtl => result, effects := HandleCheckTtl(d, c.env);
    case Foreign =>
      effects := [S.Unhandled];
      result := Stay(d);
  }

  method InInitialized(server: S.Server, d: SessionData, c: S.Context)
    returns (result: HandlingResult, effects: seq<S.Effect>)
    modifies d
    ensures Keeps(result, d)
    ensures OutcomeOf(result, d.View(), effects) == S.InInitialized(server, old(d.View()), c)
  {
    hide S.HandleWrappedInitialized;
    match c.message
    case RegisterConnection(id) => result, effects := HandleRegister(d, id, c.sender, c.env);
    case Wrapped(_, _, _, _) => result, effects := HandleWrappedInitialized(server, d, c.message, c.env);
    case CheckTtl => result, effects := HandleCheckTtl(d, c.env);
    case TryCleanup => result, effects := HandleCleanupInitialized(d, c.env);
    case _ =>
      effects := [S.Unhandled];
      result := Stay(d);
  }

  method InShutdown(d: SessionData, c: S.Context) returns (result: HandlingResult, effects: seq<S.Effect>)
    ensures Keeps(result, d)
    ensures OutcomeOf(result, d.View(), effects) == S.InShutdown(d.View(), c)
  {
    effects := [];
    if c.message == S.CheckTtl {
      effects := [S.Stop];
    }
    result := Stay(d);
  }

  /** The generic actor, with the session record as its data. */
  class StateMachineActor {
    const server: S.Server
    var currentState: S.StateId
    var stateHandlers: map<S.StateId, S.StateHandler>
    var unhandledHook: bool
    var data: SessionData

    constructor (server: S.Server, initial: S.StateId, data: SessionData)
      ensures this.server == server && this.data == data
      ensures View() == S.Machine(initial, map[], false, data.View())
    {
      this.server := server;
      currentState := initial;
      stateHandlers := map[];
      unhandledHook := false;
      this.data := data;
    }

    ghost function View(): S.Machine
      reads this, data
    {
      S.Machine(currentState, stateHandlers, unhandledHook, data.View())
    }

    method When(state: S.StateId, handler: S.StateHandler)
      modifies this
      ensures data == old(data) && View() == old(View()).(handlers := old(stateHandlers)[state := handler])
    {
      stateHandlers := stateHandlers[state := handler];
    }

    method WhenUnhandled()
      modifies this
      ensures data == old(data) && View() == old(View()).(hook := true)
    {
      unhandledHook := true;
    }

    /** One message: run the current state's handler, then commit its result or, on an error,
        keep the state while the handler's updates to the record stay. */
    method Receive(c: S.Context) returns (effects: seq<S.Effect>)
      modifies this, data
      ensures data == old(data)
      ensures (View(), effects) == S.Receive(server, old(View()), c)
    {
      hide S.InUninitialized, S.InInitialized;
      if currentState in stateHandlers {
        var result: HandlingResult;
        match stateHandlers[currentState] {
          case OnUninitialized => result, effects := InUninitialized(data, c);
          case OnInitialized => result, effects := InInitialized(server, data, c);
          case OnShutdown => result, effects := InShutdown(data, c);
        }
        if result.HandlerError? {
          effects := effects + [S.Raise];
          return;
        }
        if result.next.Some? && result.next.value != currentState {
          currentState := result.next.value;
        }
        data := result.nextData;
        return;
      }
      effects := [if unhandledHook then S.HookTaken else S.Unhandled];
    }
  }

  /** A new session: its machine is the one every history theorem starts from. */
  method NewMcpSessionStateMachine(server: S.Server, sessionId: string, now: int) returns (fsm: StateMachineActor)
    ensures fresh(fsm) && fresh(fsm.data) && fsm.server == server
    ensures fsm.View() == S.NewMachine(server, sessionId, now)
    ensures fsm.currentState == S.Uninitialized && fsm.data.sessionId == sessionId && fsm.data.lastActivity == now
    ensures fsm.data.connections == map[] && fsm.data.protocolVersion == "" && !fsm.data.notificationsInitialized
    ensures S.IsSessionTimeout(server, fsm.data.sessionTimeout)
    ensures S.IsInitializeTimeout(server, fsm.data.initializeTimeout)
  {
    var data := new SessionData(server, sessionId, now);
    fsm := new StateMachineActor(server, S.Uninitialized, data);
    fsm.When(S.Uninitialized, S.OnUninitialized);
    fsm.When(S.Initialized, S.OnInitialized);
    fsm.When(S.Shutdown, S.OnShutdown);
    fsm.WhenUnhandled();
  }

  /** Driving the actor with any message sequence folds the step function over it, so every
      theorem about `Session.Run` is one about the actor. */
  method Drive(fsm: StateMachineActor, cs: seq<S.Context>)
    modifies fsm, fsm.data
    ensures fsm.data == old(fsm.data)
    ensures fsm.View() == S.Run(fsm.server, old(fsm.View()), cs)
  {
    hide S.Receive;
    for i := 0 to |cs|
      invariant fsm.data == old(fsm.data)
      invariant fsm.View() == S.Run(fsm.server, old(fsm.View()), cs[..i])
    {
      var _ := fsm.Receive(cs[i]);
      assert cs[..i + 1][..i] == cs[..i];
    }
    assert cs[..|cs|] == cs;
  }
}
