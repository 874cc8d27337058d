/** What each message of any run leads to, with method names, codes, texts and times written out:
    the reply a request gets, whether it keeps the session alive, and what the timer messages do. */
module SessionReplies {
  import opened Wrappers
  import opened Rpc
  import opened Session
  import opened SessionSteps
  import opened SessionHistory
  import Dispatch

  /** The last effect carries a response with this body. */
  predicate Says(es: seq<Effect>, body: Body) {
    es != [] && Delivers(es[|es| - 1]) && ResponseIn(es[|es| - 1]).body == body
  }

  /** As an error code is cut to 32 bits. */
  predicate Wraps(told: int, code: int) {
    -0x8000_0000 <= told < 0x8000_0000 && (told - code) % 0x1_0000_0000 == 0
  }

  predicate SaysError(es: seq<Effect>, code: int, message: string) {
    && es != [] && Delivers(es[|es| - 1]) && ResponseIn(es[|es| - 1]).body.Error?
    && Wraps(ResponseIn(es[|es| - 1]).body.code, code)
    && ResponseIn(es[|es| - 1]).body.message == message
  }

  predicate Authentic(server: Server, c: Context) {
    c.message.Wrapped? && (c.message.authInfo == "" || !server.hasAuth || c.env.authOk)
  }

  ghost predicate WhileInitialized(server: Server, cs: seq<Context>) {
    SawInitialize(cs) && !SawShutdown(server, cs)
  }

  lemma Verbs(m: string)
    ensures VerbOf(m) == Initialize <==> m == "initialize"
    ensures VerbOf(m) == ShutDown <==> m == "shutdown"
    ensures VerbOf(m) == NotifyInitialized <==> m == "notifications/initialized"
    ensures VerbOf(m) == NotifyCancelled <==> m == "notifications/cancelled"
  {
    assert |"initialize"| == 10 && |"shutdown"| == 8;
    assert |"notifications/initialized"| == 25 && |"notifications/cancelled"| == 23;
  }

  /** Message `i` of a run as one step of the machine. */
  lemma At(server: Server, sessionId: string, created: int, cs: seq<Context>, i: nat)
    requires i < |cs|
    ensures var m := After(server, sessionId, created, cs[..i]);
            && Proper(m) && m.data.sessionId == sessionId
            && IsSessionTimeout(server, m.data.sessionTimeout)
            && IsInitializeTimeout(server, m.data.initializeTimeout)
            && (m.current == Uninitialized <==> !SawInitialize(cs[..i]))
            && (m.current == Initialized <==> WhileInitialized(server, cs[..i]))
            && (m.current == Shutdown <==> SawShutdown(server, cs[..i]))
            && Effects(server, sessionId, created, cs, i) == Receive(server, m, cs[i]).1
            && After(server, sessionId, created, cs[..i + 1]) == Receive(server, m, cs[i]).0
  {
    hide Receive, Proper, SawInitialize, SawShutdown;
    PhaseByHistory(server, sessionId, created, cs, i);
    ShutdownNeedsInitialize(server, cs[..i]);
    RunLast(server, NewMachine(server, sessionId, created), cs, i);
  }

  // ---- Lifecycle requests ----

  lemma UninitializedStep(server: Server, m: Machine, c: Context)
    requires Proper(m) && m.current == Uninitialized && c.message.Wrapped? && c.message.request.methodName != "initialize"
    ensures Receive(server, m, c).0 == m
    ensures Says(Receive(server, m, c).1, Error(-32002, "Session not initialized"))
  {
    Verbs(c.message.request.methodName);
    hide VerbOf;
  }

  /** Before any initialize request every other request is refused and changes nothing. */
  lemma RefusedUntilInitialized(server: Server, sessionId: string, created: int, cs: seq<Context>, i: nat)
    requires i < |cs| && cs[i].message.Wrapped? && !SawInitialize(cs[..i])
    requires cs[i].message.request.methodName != "initialize"
    ensures Says(Effects(server, sessionId, created, cs, i), Error(-32002, "Session not initialized"))
    ensures After(server, sessionId, created, cs[..i + 1]) == After(server, sessionId, created, cs[..i])
  {
    hide Receive, After, Effects, Proper, SawInitialize, SawShutdown, Says;
    At(server, sessionId, created, cs, i);
    UninitializedStep(server, After(server, sessionId, created, cs[..i]), cs[i]);
  }

  lemma InitializeStep(server: Server, m: Machine, c: Context)
    requires Proper(m) && c.message.Wrapped? && c.message.request.methodName == "initialize"
    requires m.current == Uninitialized || (m.current == Initialized && Authentic(server, c))
    ensures var (response, d) := HandleInitialize(m.data, c.message.request, c.env);
            var (m', es) := Receive(server, m, c);
            && es == [Deliver(d.connections, c.message, response)]
            && m'.current == Initialized && m'.data == d.(lastActivity := c.env.now)
  {
    Verbs(c.message.request.methodName);
    hide VerbOf, HandleInitialize;
  }

  lemma DeliveredBody(table: map<string, Pid>, w: Message, r: Response)
    requires w.Wrapped?
    ensures Says([Deliver(table, w, r)], r.body)
  {
  }

  /** Every admitted initialize request initializes and renews the session. The reply refuses
      missing and malformed parameters; else the request's version is recorded and announced with
      the session's id, or the newest version if the server does not know it, unless the result
      does not marshal. */
  lemma InitializeReplies(server: Server, sessionId: string, created: int, cs: seq<Context>, i: nat)
    requires i < |cs| && cs[i].message.Wrapped? && cs[i].message.request.methodName == "initialize"
    requires !SawInitialize(cs[..i]) || (WhileInitialized(server, cs[..i]) && Authentic(server, cs[i]))
    ensures var es, env := Effects(server, sessionId, created, cs, i), cs[i].env;
            var before, after := After(server, sessionId, created, cs[..i]), After(server, sessionId, created, cs[..i + 1]);
            && after.current == Initialized && after.data.lastActivity == env.now
            && (cs[i].message.request.paramsJson == "" ==>
                  Says(es, Error(-32602, "Invalid params: missing parameters")) &&
                  after.data.protocolVersion == before.data.protocolVersion)
            && (cs[i].message.request.paramsJson != "" && env.params.Malformed? ==>
                  Says(es, Error(-32602, "Invalid params: " + env.params.error)) &&
                  after.data.protocolVersion == before.data.protocolVersion)
            && (cs[i].message.request.paramsJson != "" && env.params.Parsed? ==>
                  && (env.params.version in {"2025-03-26", "2024-11-05"} ==>
                        after.data.protocolVersion == env.params.version)
                  && (env.params.version !in {"2025-03-26", "2024-11-05"} ==>
                        after.data.protocolVersion == "2025-03-26")
                  && (env.marshalError.Some? ==> Says(es, Error(-32603, "Internal error: " + env.marshalError.value)))
                  && (env.marshalError.None? ==> Says(es, InitializeResult(after.data.protocolVersion, sessionId))))
  {
    hide Receive, After, Effects, Proper, SawInitialize, SawShutdown, Says, Authentic;
    At(server, sessionId, created, cs, i);
    var m := After(server, sessionId, created, cs[..i]);
    InitializeStep(server, m, cs[i]);
    var (response, d) := HandleInitialize(m.data, cs[i].message.request, cs[i].env);
    DeliveredBody(d.connections, cs[i].message, response);
  }

  lemma ShutdownStep(server: Server, m: Machine, c: Context)
    requires Proper(m) && m.current == Initialized && Authentic(server, c) && c.message.request.methodName == "shutdown"
    ensures Receive(server, m, c).0 == m.(current := Shutdown)
    ensures Says(Receive(server, m, c).1, ResultJson("{}"))
  {
    Verbs(c.message.request.methodName);
    hide VerbOf;
  }

  /** An admitted shutdown request of an initialized session shuts it down, is answered with the
      empty object, and renews nothing. */
  lemma ShutdownReplies(server: Server, sessionId: string, created: int, cs: seq<Context>, i: nat)
    requires i < |cs| && WhileInitialized(server, cs[..i]) && Authentic(server, cs[i])
    requires cs[i].message.request.methodName == "shutdown"
    ensures Says(Effects(server, sessionId, created, cs, i), ResultJson("{}"))
    ensures After(server, sessionId, created, cs[..i + 1]) ==
            After(server, sessionId, created, cs[..i]).(current := Shutdown)
  {
    hide Receive, After, Effects, Proper, SawInitialize, SawShutdown, Says, Authentic;
    At(server, sessionId, created, cs, i);
    ShutdownStep(server, After(server, sessionId, created, cs[..i]), cs[i]);
  }

  lemma NotificationStep(server: Server, m: Machine, c: Context)
    requires Proper(m) && m.current == Initialized && Authentic(server, c)
    requires c.message.request.methodName in {"notifications/initialized", "notifications/cancelled"}
    ensures Receive(server, m, c).1 == []
    ensures Receive(server, m, c).0 ==
            m.(data := m.data.(
                 lastActivity := c.env.now,
                 notificationsInitialized :=
                   m.data.notificationsInitialized || c.message.request.methodName == "notifications/initialized"))
  {
    Verbs(c.message.request.methodName);
    hide VerbOf;
  }

  /** The two notifications get no reply and renew; one of them is remembered. */
  lemma NotificationsAreSilent(server: Server, sessionId: string, created: int, cs: seq<Context>, i: nat)
    requires i < |cs| && WhileInitialized(server, cs[..i]) && Authentic(server, cs[i])
    requires cs[i].message.request.methodName in {"notifications/initialized", "notifications/cancelled"}
    ensures Effects(server, sessionId, created, cs, i) == []
    ensures var before, after := After(server, sessionId, created, cs[..i]), After(server, sessionId, created, cs[..i + 1]);
            after == before.(data := before.data.(
                       lastActivity := cs[i].env.now,
                       notificationsInitialized :=
                         before.data.notificationsInitialized ||
                         cs[i].message.request.methodName == "notifications/initialized"))
  {
    hide Receive, After, Effects, Proper, SawInitialize, SawShutdown, Authentic;
    At(server, sessionId, created, cs, i);
    NotificationStep(server, After(server, sessionId, created, cs[..i]), cs[i]);
  }

  lemma UnauthenticStep(server: Server, m: Machine, c: Context)
    requires Proper(m) && m.current == Initialized && c.message.Wrapped? && !Authentic(server, c)
    ensures Receive(server, m, c) == (m, [Raise])
  {
    hide VerbOf, HandleInitialize, HandleFeature;
    assert HandleWrappedInitialized(server, m.data, c.message, c.env) == Failed(m.data, []);
    assert Receive(server, m, c) == Commit(m, Failed(m.data, []));
    assert [] + [Raise] == [Raise];
  }

  /** A request whose authentication does not decode raises an error and changes nothing, and a
      session that was shut down ignores every request. */
  lemma NotHandled(server: Server, sessionId: string, created: int, cs: seq<Context>, i: nat)
    requires i < |cs| && cs[i].message.Wrapped?
    requires (WhileInitialized(server, cs[..i]) && !Authentic(server, cs[i])) || SawShutdown(server, cs[..i])
    ensures Effects(server, sessionId, created, cs, i) == if SawShutdown(server, cs[..i]) then [] else [Raise]
    ensures After(server, sessionId, created, cs[..i + 1]) == After(server, sessionId, created, cs[..i])
  {
    hide After, Effects, SawInitialize, SawShutdown, Authentic, InInitialized, InUninitialized;
    At(server, sessionId, created, cs, i);
    if WhileInitialized(server, cs[..i]) {
      UnauthenticStep(server, After(server, sessionId, created, cs[..i]), cs[i]);
    }
  }

  // ---- Feature requests ----

  predicate IsFeatureMethod(m: string) {
    m !in {"initialize", "shutdown", "notifications/initialized", "notifications/cancelled"}
  }

  /** An admitted feature request of an initialized session. */
  ghost predicate Requested(server: Server, cs: seq<Context>, i: nat) {
    && i < |cs| && WhileInitialized(server, cs[..i]) && Authentic(server, cs[i])
    && IsFeatureMethod(cs[i].message.request.methodName)
  }

  lemma FeatureStep(server: Server, m: Machine, c: Context)
    requires Proper(m) && m.current == Initialized && Authentic(server, c)
    requires IsFeatureMethod(c.message.request.methodName)
    ensures var reply := HandleFeature(server, c.message.request, c.env);
            var (m', es) := Receive(server, m, c);
            if reply.Panic? then m' == m && es == [Raise]
            else
              && m' == (if reply.succeeded then m.(data := m.data.(lastActivity := c.env.now)) else m)
              && es == reply.invoked + [Deliver(m.data.connections, c.message, reply.response)]
  {
    Verbs(c.message.request.methodName);
    hide VerbOf, HandleFeature;
  }

  /** What a feature request leads to: a reply with this body, and a renewal or not. */
  lemma FeatureAt(server: Server, sessionId: string, created: int, cs: seq<Context>, i: nat)
    requires Requested(server, cs, i)
    ensures var reply := HandleFeature(server, cs[i].message.request, cs[i].env);
            var es := Effects(server, sessionId, created, cs, i);
            var before, after := After(server, sessionId, created, cs[..i]), After(server, sessionId, created, cs[..i + 1]);
            if reply.Panic? then after == before && es == [Raise]
            else
              && after == (if reply.succeeded then before.(data := before.data.(lastActivity := cs[i].env.now)) else before)
              && Says(es, reply.response.body)
  {
    hide Receive, After, Effects, Proper, SawInitialize, SawShutdown, Authentic, HandleFeature, IsFeatureMethod;
    At(server, sessionId, created, cs, i);
    FeatureStep(server, After(server, sessionId, created, cs[..i]), cs[i]);
  }

  /** The handler of `c` ran: the reply is made of what it returned. */
  lemma HandledFeature(server: Server, c: Context)
    requires c.message.Wrapped? && Dispatch.Calls(RouteOf(server, c))
    ensures var reply := HandleFeature(server, c.message.request, c.env);
            var outcome := RunExecutor(HandlerOf(server, c), c.message.request, c.env);
            && reply.Reply? && (reply.succeeded <==> outcome.Success?)
            && reply.response ==
               match outcome
               case Success(r) => r
               case Fails(f) => CreateFailureResponse(c.message.request, f)
  {
    hide Dispatch.CanHandleMethod, Dispatch.HandleMethod, RunExecutor, CreateFailureResponse;
  }

  lemma FailureSays(es: seq<Effect>, req: Request, f: Failure)
    requires Says(es, CreateFailureResponse(req, f).body)
    ensures f.JsonRpcError? ==> SaysError(es, f.code, f.message)
    ensures f.OtherError? ==> Says(es, Error(-32603, "Internal error: problem handling message"))
  {
  }

  /** An admitted feature request that reaches a built-in executor: without the registry it is an
      unknown method, undecodable parameters are refused, a result is sent as it is, and a feature's
      error with its code and text, or as an internal error. A result renews, nothing else does. */
  lemma BuiltInReplies(server: Server, sessionId: string, created: int, cs: seq<Context>, i: nat)
    requires Requested(server, cs, i)
    requires Dispatch.Calls(RouteOf(server, cs[i])) && !HandlerOf(server, cs[i]).Custom?
    ensures var es, req, f := Effects(server, sessionId, created, cs, i), cs[i].message.request, cs[i].env.feature;
            var before, after := After(server, sessionId, created, cs[..i]), After(server, sessionId, created, cs[..i + 1]);
            var available := f.available || HandlerOf(server, cs[i]).UtilitiesExecutor?;
            && (!available ==> Says(es, Error(-32601, "Method not found: " + req.methodName)))
            && (available && f.paramsError.Some? ==>
                  Says(es, Error(-32602, "Invalid params: Invalid parameters: " + f.paramsError.value)))
            && (available && f.paramsError.None? && f.result.Json? ==> Says(es, ResultJson(f.result.json)))
            && (available && f.paramsError.None? && f.result.FeatureError? ==>
                  match f.result.failure
                  case JsonRpcError(code, message) => SaysError(es, code, message)
                  case OtherError => Says(es, Error(-32603, "Internal error: problem handling message")))
            && (available && f.paramsError.None? && f.result.Json? ==>
                  after == before.(data := before.data.(lastActivity := cs[i].env.now)))
            && (!available || f.paramsError.Some? || f.result.FeatureError? ==> after == before)
  {
    hide Effects, After, RouteOf, HandleFeature, SawInitialize, SawShutdown, Says, SaysError;
    FeatureAt(server, sessionId, created, cs, i);
    HandledFeature(server, cs[i]);
    var es, req, f := Effects(server, sessionId, created, cs, i), cs[i].message.request, cs[i].env.feature;
    if f.result.FeatureError? && Says(es, CreateFailureResponse(req, f.result.failure).body) {
      FailureSays(es, req, f.result.failure);
    }
  }

  /** The response of a custom handler is sent as it is and renews; its error is reported like a
      feature's and does not. */
  lemma CustomReplies(server: Server, sessionId: string, created: int, cs: seq<Context>, i: nat)
    requires Requested(server, cs, i)
    requires Dispatch.Calls(RouteOf(server, cs[i])) && HandlerOf(server, cs[i]).Custom?
    ensures var es, outcome := Effects(server, sessionId, created, cs, i), cs[i].env.custom;
            var before, after := After(server, sessionId, created, cs[..i]), After(server, sessionId, created, cs[..i + 1]);
            match outcome
            case Success(r) => Says(es, r.body) && after == before.(data := before.data.(lastActivity := cs[i].env.now))
            case Fails(JsonRpcError(code, message)) => SaysError(es, code, message) && after == before
            case Fails(OtherError) =>
              Says(es, Error(-32603, "Internal error: problem handling message")) && after == before
  {
    hide Effects, After, RouteOf, HandleFeature, SawInitialize, SawShutdown, Says, SaysError;
    FeatureAt(server, sessionId, created, cs, i);
    HandledFeature(server, cs[i]);
    if cs[i].env.custom.Fails? {
      FailureSays(Effects(server, sessionId, created, cs, i), cs[i].message.request, cs[i].env.custom.failure);
    }
  }

  lemma UnhandledFeature(server: Server, c: Context)
    requires c.message.Wrapped? && !Dispatch.Calls(RouteOf(server, c))
    ensures var reply := HandleFeature(server, c.message.request, c.env);
            if RouteOf(server, c) == Dispatch.NilCall then reply.Panic?
            else
              reply.Reply? && !reply.succeeded &&
              reply.response.body == Error(-32601, "Method not found: " + c.message.request.methodName)
  {
    hide Dispatch.CanHandleMethod, Dispatch.HandleMethod, RunExecutor;
  }

  /** A feature request that reaches no handler is an unknown method, or fails in a nil executor;
      either way nothing changes. */
  lemma UnknownReplies(server: Server, sessionId: string, created: int, cs: seq<Context>, i: nat)
    requires Requested(server, cs, i) && !Dispatch.Calls(RouteOf(server, cs[i]))
    ensures var es := Effects(server, sessionId, created, cs, i);
            if RouteOf(server, cs[i]) == Dispatch.NilCall then es == [Raise]
            else Says(es, Error(-32601, "Method not found: " + cs[i].message.request.methodName))
    ensures After(server, sessionId, created, cs[..i + 1]) == After(server, sessionId, created, cs[..i])
  {
    hide Effects, After, RouteOf, HandleFeature, SawInitialize, SawShutdown, Says;
    FeatureAt(server, sessionId, created, cs, i);
    UnhandledFeature(server, cs[i]);
  }

  // ---- Other messages ----

  /** In a state nobody configured, the generic actor leaves everything as it is and runs the hook, or
      reports the message unhandled if there is no hook. */
  lemma WithoutHandler(server: Server, m: Machine, c: Context)
    requires m.current !in m.handlers
    ensures Receive(server, m, c).0 == m
    ensures HookTaken in Receive(server, m, c).1 <==> m.hook
    ensures Unhandled in Receive(server, m, c).1 <==> !m.hook
  {
  }

  lemma RegistrationStep(server: Server, m: Machine, c: Context)
    requires Proper(m) && c.message.RegisterConnection?
    ensures Receive(server, m, c) ==
            if m.current == Shutdown then (m, [])
            else (m.(data := m.data.(lastActivity := c.env.now,
                                     connections := m.data.connections[c.message.connectionId := c.sender])),
                  [Ack(c.sender)])
  {
  }

  /** A registration is acknowledged to its sender, recorded, and renews, until the session is shut
      down; then it is ignored. */
  lemma RegistrationsAreAcknowledged(server: Server, sessionId: string, created: int, cs: seq<Context>, i: nat)
    requires i < |cs| && cs[i].message.RegisterConnection?
    ensures var es := Effects(server, sessionId, created, cs, i);
            var before, after := After(server, sessionId, created, cs[..i]), After(server, sessionId, created, cs[..i + 1]);
            if SawShutdown(server, cs[..i]) then es == [] && after == before
            else
              && es == [Ack(cs[i].sender)]
              && after.data.lastActivity == cs[i].env.now
              && after.data.connections == before.data.connections[cs[i].message.connectionId := cs[i].sender]
              && after.current == before.current
  {
    hide Receive, After, Effects, Proper, SawInitialize, SawShutdown;
    At(server, sessionId, created, cs, i);
    RegistrationStep(server, After(server, sessionId, created, cs[..i]), cs[i]);
  }

  lemma TimerStep(server: Server, m: Machine, c: Context)
    requires Proper(m) && (c.message == PostStart || c.message == TryCleanup || c.message == CheckTtl || c.message == Foreign)
    ensures var es := Receive(server, m, c).1;
            match m.current
            case Uninitialized =>
              && (c.message == PostStart ==> es == if c.env.scheduleOk then [ScheduleOnce(m.data.initializeTimeout)] else [Raise])
              && (c.message == TryCleanup ==> es == if c.env.shutdownOk then [Stop] else [Raise])
              && (c.message == CheckTtl ==> es == if c.env.now > m.data.lastActivity + m.data.sessionTimeout then [Stop] else [])
              && (c.message == Foreign ==> es == [Unhandled])
            case Initialized =>
              && (c.message == TryCleanup ==> es == if c.env.scheduleOk then [SchedulePeriodic(m.data.sessionTimeout / 2)] else [Raise])
              && (c.message == CheckTtl ==> es == if c.env.now > m.data.lastActivity + m.data.sessionTimeout then [Stop] else [])
              && (c.message == PostStart || c.message == Foreign ==> es == [Unhandled])
            case _ => es == if c.message == CheckTtl then [Stop] else []
  {
  }

  /** The messages of the runtime and the timers, in every phase: what is scheduled and when, what
      stops the actor, what fails, and what is not handled. */
  lemma TimerMessages(server: Server, sessionId: string, created: int, cs: seq<Context>, i: nat)
    requires i < |cs|
    ensures var es, c := Effects(server, sessionId, created, cs, i), cs[i];
            var m := After(server, sessionId, created, cs[..i]);
            && (c.message == PostStart && !SawInitialize(cs[..i]) ==>
                  if c.env.scheduleOk then
                    |es| == 1 && es[0].ScheduleOnce? && IsInitializeTimeout(server, es[0].delay)
                  else es == [Raise])
            && (c.message == TryCleanup && !SawInitialize(cs[..i]) ==> es == if c.env.shutdownOk then [Stop] else [Raise])
            && (c.message == TryCleanup && WhileInitialized(server, cs[..i]) ==>
                  if c.env.scheduleOk then
                    && |es| == 1 && es[0].SchedulePeriodic?
                    && (server.ttl > 0 ==> 2 * es[0].interval <= server.ttl <= 2 * es[0].interval + 1)
                    && (server.ttl <= 0 ==> es[0].interval == 150_000_000_000)
                  else es == [Raise])
            && (c.message == CheckTtl && !SawShutdown(server, cs[..i]) ==>
                  es == if IsExpired(server, m, c.env.now) then [Stop] else [])
            && (c.message == CheckTtl && SawShutdown(server, cs[..i]) ==> es == [Stop])
            && (c.message == Foreign && !SawShutdown(server, cs[..i]) ==> es == [Unhandled])
            && (c.message == PostStart && WhileInitialized(server, cs[..i]) ==> es == [Unhandled])
            && (c.message in {PostStart, TryCleanup, Foreign} && SawShutdown(server, cs[..i]) ==> es == [])
  {
    hide Receive, After, Effects, Proper, SawInitialize, SawShutdown;
    At(server, sessionId, created, cs, i);
    if cs[i].message in {PostStart, TryCleanup, CheckTtl, Foreign} {
      TimerStep(server, After(server, sessionId, created, cs[..i]), cs[i]);
    }
  }
}
