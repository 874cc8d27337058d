/** What the session machine has become after any sequence of messages, said in terms of the
    messages alone. Nothing is assumed about the sequence: any senders, clocks and outcomes. */
module SessionHistory {
  import opened Wrappers
  import opened Rpc
  import opened Session
  import opened SessionSteps
  import Dispatch

  ghost predicate SawInitialize(cs: seq<Context>) {
    exists i :: 0 <= i < |cs| && IsRequest(cs[i], Initialize)
  }

  ghost predicate SawShutdown(server: Server, cs: seq<Context>) {
    exists j :: 0 <= j < |cs| && IsRequest(cs[j], ShutDown) && Admitted(server, cs[j]) && SawInitialize(cs[..j])
  }

  /** The phase as a property of the history: shut down once an admitted shutdown request followed
      an initialize request; initialized after any initialize request, failed ones included. */
  ghost function Phase(server: Server, cs: seq<Context>): StateId {
    if SawShutdown(server, cs) then Shutdown
    else if SawInitialize(cs) then Initialized
    else Uninitialized
  }

  /** The machine of a session created at `created`, after the messages `cs`. */
  function After(server: Server, sessionId: string, created: int, cs: seq<Context>): Machine {
    Run(server, NewMachine(server, sessionId, created), cs)
  }

  /** What message `i` of a run makes the actor do. */
  function Effects(server: Server, sessionId: string, created: int, cs: seq<Context>, i: nat): seq<Effect>
    requires i < |cs|
  {
    Receive(server, After(server, sessionId, created, cs[..i]), cs[i]).1
  }

  lemma RunLast(server: Server, m: Machine, cs: seq<Context>, i: nat)
    requires i < |cs|
    ensures Run(server, m, cs[..i + 1]) == Receive(server, Run(server, m, cs[..i]), cs[i]).0
  {
    hide Receive;
    assert cs[..i + 1][..i] == cs[..i];
  }

  lemma SawInitializeStep(cs: seq<Context>, c: Context)
    ensures SawInitialize(cs + [c]) <==> SawInitialize(cs) || IsRequest(c, Initialize)
  {
    hide IsRequest;
    var all := cs + [c];
    if SawInitialize(cs) {
      var i :| 0 <= i < |cs| && IsRequest(cs[i], Initialize);
      assert all[i] == cs[i];
    }
    if IsRequest(c, Initialize) {
      assert all[|cs|] == c;
    }
  }

  lemma SawShutdownStep(server: Server, cs: seq<Context>, c: Context)
    ensures SawShutdown(server, cs + [c]) <==>
            SawShutdown(server, cs) || (IsRequest(c, ShutDown) && Admitted(server, c) && SawInitialize(cs))
  {
    hide IsRequest, Admitted, SawInitialize;
    var all := cs + [c];
    assert forall j | 0 <= j <= |cs| :: all[..j] == cs[..j];
    assert all[..|cs|] == cs && all[|cs|] == c;
    if SawShutdown(server, cs) {
      var j :| 0 <= j < |cs| && IsRequest(cs[j], ShutDown) && Admitted(server, cs[j]) && SawInitialize(cs[..j]);
      assert all[j] == cs[j];
    }
  }

  lemma ShutdownNeedsInitialize(server: Server, cs: seq<Context>)
    ensures SawShutdown(server, cs) ==> SawInitialize(cs)
  {
    hide IsRequest, Admitted;
    if SawShutdown(server, cs) {
      var j :| 0 <= j < |cs| && IsRequest(cs[j], ShutDown) && Admitted(server, cs[j]) && SawInitialize(cs[..j]);
      var i :| 0 <= i < j && IsRequest(cs[..j][i], Initialize);
      assert cs[i] == cs[..j][i];
    }
  }

  lemma PhaseStep(server: Server, cs: seq<Context>, i: nat)
    requires i < |cs|
    ensures Phase(server, cs[..i + 1]) == NextPhase(server, Phase(server, cs[..i]), cs[i])
  {
    hide IsRequest, Admitted, SawInitialize, SawShutdown;
    assert cs[..i + 1] == cs[..i] + [cs[i]];
    SawInitializeStep(cs[..i], cs[i]);
    SawShutdownStep(server, cs[..i], cs[i]);
    ShutdownNeedsInitialize(server, cs[..i]);
  }

  /** The actor's state equals the phase the history determines: a failed initialize still counts,
      a handler error changes nothing, and every reachable state has a handler. */
  lemma {:induction false} PhaseByHistory(server: Server, sessionId: string, created: int, cs: seq<Context>, n: nat)
    requires n <= |cs|
    ensures var m := After(server, sessionId, created, cs[..n]);
            Proper(m) && m.current == Phase(server, cs[..n])
    ensures var d := After(server, sessionId, created, cs[..n]).data;
            && d.sessionId == sessionId && d.sessionTimeout == SessionTimeout(server)
            && d.initializeTimeout == InitializeTimeout(server)
  {
    hide Receive, NextPhase, SessionTimeout, InitializeTimeout;
    if n > 0 {
      PhaseByHistory(server, sessionId, created, cs, n - 1);
      var m := After(server, sessionId, created, cs[..n - 1]);
      RunLast(server, NewMachine(server, sessionId, created), cs, n - 1);
      StepPhase(server, m, cs[n - 1]);
      StepConfiguration(server, m, cs[n - 1]);
      PhaseStep(server, cs, n - 1);
    }
  }

  predicate NotAfter(a: StateId, b: StateId) {
    a == b || a == Uninitialized || (a == Initialized && b == Shutdown)
  }

  /** Uninitialized, then initialized, then shut down, never back. */
  lemma {:induction false} PhaseOnlyAdvances(
    server: Server, sessionId: string, created: int, cs: seq<Context>, i: nat, j: nat)
    requires i <= j <= |cs|
    ensures NotAfter(After(server, sessionId, created, cs[..i]).current, After(server, sessionId, created, cs[..j]).current)
    decreases j
  {
    hide Phase, After, IsRequest, Admitted;
    PhaseByHistory(server, sessionId, created, cs, j);
    if i < j {
      PhaseOnlyAdvances(server, sessionId, created, cs, i, j - 1);
      PhaseByHistory(server, sessionId, created, cs, j - 1);
      PhaseStep(server, cs, j - 1);
    }
  }

  // ---- Stopping ----

  /** What one message in a known state makes the actor do about stopping. */
  lemma StopStep(server: Server, m: Machine, c: Context)
    requires Proper(m)
    ensures Stop in Receive(server, m, c).1 <==>
            || (c.message == TryCleanup && m.current == Uninitialized && c.env.shutdownOk)
            || (c.message == CheckTtl && c.env.now > m.data.lastActivity + m.data.sessionTimeout)
            || (c.message == CheckTtl && m.current == Shutdown)
  {
    hide VerbOf, HandleInitialize, Dispatch.CanHandleMethod, Dispatch.HandleMethod;
  }

  /** More than the configured time to live has passed since the last activity, or more than five
      minutes if none is configured. */
  predicate IsExpired(server: Server, m: Machine, now: int) {
    if server.ttl > 0 then now - m.data.lastActivity > server.ttl
    else now - m.data.lastActivity > 300_000_000_000
  }

  /** A session actor stops itself for three reasons and no other: its cleanup message found it
      without an initialize request, a TTL check found it idle for more than the session timeout,
      or a TTL check found it shut down. */
  lemma StopsExactlyWhen(server: Server, sessionId: string, created: int, cs: seq<Context>, i: nat)
    requires i < |cs|
    ensures Stop in Effects(server, sessionId, created, cs, i) <==>
            || (cs[i].message == TryCleanup && cs[i].env.shutdownOk && !SawInitialize(cs[..i]))
            || (cs[i].message == CheckTtl && IsExpired(server, After(server, sessionId, created, cs[..i]), cs[i].env.now))
            || (cs[i].message == CheckTtl && SawShutdown(server, cs[..i]))
  {
    hide Receive, After, SawInitialize, SawShutdown;
    PhaseByHistory(server, sessionId, created, cs, i);
    ShutdownNeedsInitialize(server, cs[..i]);
    StopStep(server, After(server, sessionId, created, cs[..i]), cs[i]);
  }

  // ---- Activity ----

  ghost predicate RenewsAt(server: Server, cs: seq<Context>, i: nat) {
    i < |cs| && Renews(server, Phase(server, cs[..i]), cs[i])
  }

  ghost predicate LastRenewal(server: Server, cs: seq<Context>, n: nat, k: nat) {
    k < n && RenewsAt(server, cs, k) && forall i: nat | k < i < n :: !RenewsAt(server, cs, i)
  }

  /** The recorded last activity is the handling time of the last renewing message, or the
      creation time while there is none. */
  lemma {:induction false} LastActivityByHistory(
    server: Server, sessionId: string, created: int, cs: seq<Context>, n: nat)
    requires n <= |cs|
    ensures var last := After(server, sessionId, created, cs[..n]).data.lastActivity;
            || (last == created && forall i: nat | i < n :: !RenewsAt(server, cs, i))
            || (exists k: nat :: LastRenewal(server, cs, n, k) && last == cs[k].env.now)
  {
    hide Receive, Renews, Phase, Proper;
    if n > 0 {
      LastActivityByHistory(server, sessionId, created, cs, n - 1);
      PhaseByHistory(server, sessionId, created, cs, n - 1);
      RunLast(server, NewMachine(server, sessionId, created), cs, n - 1);
      var m := After(server, sessionId, created, cs[..n - 1]);
      StepActivity(server, m, cs[n - 1]);
      if RenewsAt(server, cs, n - 1) {
        assert LastRenewal(server, cs, n, n - 1);
      } else if k: nat :| LastRenewal(server, cs, n - 1, k) && m.data.lastActivity == cs[k].env.now {
        assert LastRenewal(server, cs, n, k);
      }
    }
  }

  // ---- Connections ----

  ghost predicate RegistersAt(server: Server, cs: seq<Context>, i: nat, id: string) {
    i < |cs| && Registers(Phase(server, cs[..i]), cs[i], id)
  }

  ghost predicate LastRegistration(server: Server, cs: seq<Context>, n: nat, k: nat, id: string) {
    k < n && RegistersAt(server, cs, k, id) && forall i: nat | k < i < n :: !RegistersAt(server, cs, i, id)
  }

  /** The connection table is last-writer-wins over the registrations received before shutdown:
      an id maps to its latest registrant, and is absent exactly when it never registered. */
  lemma {:induction false} ConnectionsByHistory(
    server: Server, sessionId: string, created: int, cs: seq<Context>, n: nat, id: string)
    requires n <= |cs|
    ensures var table := After(server, sessionId, created, cs[..n]).data.connections;
            if id in table then exists k: nat :: LastRegistration(server, cs, n, k, id) && table[id] == cs[k].sender
            else forall i: nat | i < n :: !RegistersAt(server, cs, i, id)
  {
    hide Receive, Phase, Proper;
    if n > 0 {
      ConnectionsByHistory(server, sessionId, created, cs, n - 1, id);
      PhaseByHistory(server, sessionId, created, cs, n - 1);
      RunLast(server, NewMachine(server, sessionId, created), cs, n - 1);
      var m := After(server, sessionId, created, cs[..n - 1]);
      StepConnections(server, m, cs[n - 1]);
      if RegistersAt(server, cs, n - 1, id) {
        assert LastRegistration(server, cs, n, n - 1, id);
      } else if id in m.data.connections {
        var k: nat :| LastRegistration(server, cs, n - 1, k, id) && m.data.connections[id] == cs[k].sender;
        assert LastRegistration(server, cs, n, k, id);
      }
    }
  }

  // ---- Version negotiation ----

  ghost predicate NegotiatesAt(server: Server, cs: seq<Context>, i: nat) {
    i < |cs| && Negotiates(server, Phase(server, cs[..i]), cs[i])
  }

  ghost predicate LastNegotiation(server: Server, cs: seq<Context>, n: nat, k: nat) {
    k < n && NegotiatesAt(server, cs, k) && forall i: nat | k < i < n :: !NegotiatesAt(server, cs, i)
  }

  /** The recorded protocol version is empty or the supported version the last well-formed
      initialize request negotiated, and the client information is that request's; later malformed
      initialize requests leave both alone. */
  lemma {:induction false} VersionByHistory(
    server: Server, sessionId: string, created: int, cs: seq<Context>, n: nat)
    requires n <= |cs|
    ensures var d := After(server, sessionId, created, cs[..n]).data;
            || (d.protocolVersion == "" && d.clientInfo == "" && forall i: nat | i < n :: !NegotiatesAt(server, cs, i))
            || (d.protocolVersion in VERSIONS && exists k: nat :: NegotiatedLast(server, cs, n, k, d))
  {
    hide Receive, Phase, Proper, Negotiates, Negotiated;
    if n > 0 {
      var last := n - 1;
      VersionByHistory(server, sessionId, created, cs, last);
      PhaseByHistory(server, sessionId, created, cs, last);
      RunLast(server, NewMachine(server, sessionId, created), cs, last);
      var m := After(server, sessionId, created, cs[..last]);
      var d := After(server, sessionId, created, cs[..n]).data;
      StepVersion(server, m, cs[last]);
      if NegotiatesAt(server, cs, last) {
        NegotiationFacts(server, m.current, cs[last]);
        assert NegotiatedLast(server, cs, n, last, d);
      } else if k: nat :| NegotiatedLast(server, cs, last, k, m.data) {
        assert NegotiatedLast(server, cs, n, k, d);
      }
    }
  }

  lemma NegotiationFacts(server: Server, phase: StateId, c: Context)
    requires Negotiates(server, phase, c)
    ensures c.message.Wrapped? && c.env.params.Parsed? && Negotiated(c.env.params.version) in VERSIONS
  {
  }

  /** Message `k` was the last to negotiate, and `d` records what it asked for. */
  ghost predicate NegotiatedLast(server: Server, cs: seq<Context>, n: nat, k: nat, d: Data) {
    && LastNegotiation(server, cs, n, k)
    && cs[k].env.params.Parsed?
    && d.protocolVersion == Negotiated(cs[k].env.params.version)
    && d.clientInfo == cs[k].env.params.clientInfo
  }

  /** The session knows that its client finished initializing exactly when it was told so while
      initialized. */
  lemma {:induction false} NotificationByHistory(
    server: Server, sessionId: string, created: int, cs: seq<Context>, n: nat)
    requires n <= |cs|
    ensures After(server, sessionId, created, cs[..n]).data.notificationsInitialized <==>
            exists i :: 0 <= i < n && Notifies(server, Phase(server, cs[..i]), cs[i])
  {
    hide Receive, Phase, Proper, Notifies;
    if n > 0 {
      NotificationByHistory(server, sessionId, created, cs, n - 1);
      PhaseByHistory(server, sessionId, created, cs, n - 1);
      RunLast(server, NewMachine(server, sessionId, created), cs, n - 1);
      StepNotification(server, After(server, sessionId, created, cs[..n - 1]), cs[n - 1]);
    }
  }

  predicate Delivers(e: Effect) {
    e.Answer? || e.Tell? || e.Dropped?
  }

  function ResponseIn(e: Effect): Response
    requires Delivers(e)
  {
    match e
    case Answer(r) => r
    case Tell(_, r) => r
    case Dropped(_, r) => r
  }

  /** The version in the initialize response that is this message's whole effect, if the response
      goes to the asker or to a connection; one that is dropped announces nothing. */
  function Announced(es: seq<Effect>): Option<string> {
    if |es| == 1 && (es[0].Answer? || es[0].Tell?) && ResponseIn(es[0]).body.InitializeResult?
    then Some(ResponseIn(es[0]).body.version) else None
  }

  lemma InitializeAnnounces(d: Data, c: Context)
    requires c.message.Wrapped?
    ensures var (r, d') := HandleInitialize(d, c.message.request, c.env);
            && d'.connections == d.connections
            && ResponseIn(Deliver(d.connections, c.message, r)) == r
            && (r.body.InitializeResult? <==>
                c.message.request.paramsJson != "" && c.env.params.Parsed? && c.env.marshalError.None?)
            && (r.body.InitializeResult? ==> r.body.version == d'.protocolVersion)
  {
    hide Negotiated;
  }

  /** Somebody is there to take the reply: the asker, or a connection known by that id. */
  predicate HasTaker(table: map<string, Pid>, c: Context) {
    c.message.Wrapped? && (c.message.isAsk || c.message.respondTo in table)
  }

  lemma AnnouncementStep(server: Server, m: Machine, c: Context)
    requires Proper(m)
    ensures var (m', es) := Receive(server, m, c);
            Announced(es) ==
              if Negotiates(server, m.current, c) && c.env.marshalError.None? && HasTaker(m.data.connections, c)
              then Some(m'.data.protocolVersion) else None
  {
    hide VerbOf, Negotiated, HandleInitialize, HandleFeature, Dispatch.CanHandleMethod, Dispatch.HandleMethod;
    if c.message.Wrapped? {
      InitializeAnnounces(m.data, c);
      FeatureAnnouncesNothing(server, c);
    }
  }

  /** A feature reply is an error or comes after an executor call. */
  lemma FeatureAnnouncesNothing(server: Server, c: Context)
    requires c.message.Wrapped?
    ensures var reply := HandleFeature(server, c.message.request, c.env);
            reply.Panic? || reply.invoked != [] || reply.response.body.Error?
  {
    hide Dispatch.CanHandleMethod, Dispatch.HandleMethod, RunExecutor;
  }

  /** Message `i` negotiated, its result marshals, and there is an asker or a connection that had
      registered under the id it names. */
  ghost predicate AnnouncesAt(server: Server, cs: seq<Context>, i: nat) {
    && NegotiatesAt(server, cs, i) && cs[i].env.marshalError.None?
    && (cs[i].message.isAsk || exists j: nat :: j < i && RegistersAt(server, cs, j, cs[i].message.respondTo))
  }

  function Asked(c: Context): string {
    if c.env.params.Parsed? then Negotiated(c.env.params.version) else ""
  }

  /** An initialize response announces a version exactly when the request negotiated, the result
      marshals and somebody takes the reply; what it announces is what the request negotiated, and
      what is recorded. */
  lemma {:induction false} AnnouncedIsRecorded(
    server: Server, sessionId: string, created: int, cs: seq<Context>, i: nat)
    requires i < |cs|
    ensures var announced := Announced(Effects(server, sessionId, created, cs, i));
            if AnnouncesAt(server, cs, i) then
              announced == Some(Asked(cs[i])) == Some(After(server, sessionId, created, cs[..i + 1]).data.protocolVersion)
            else announced == None
  {
    hide Receive, Phase, Proper, IsRequest, Admitted, Announced, Negotiates, Negotiated;
    PhaseByHistory(server, sessionId, created, cs, i);
    RunLast(server, NewMachine(server, sessionId, created), cs, i);
    var m := After(server, sessionId, created, cs[..i]);
    AnnouncementStep(server, m, cs[i]);
    StepVersion(server, m, cs[i]);
    if NegotiatesAt(server, cs, i) {
      NegotiationFacts(server, m.current, cs[i]);
      ConnectionsByHistory(server, sessionId, created, cs, i, cs[i].message.respondTo);
    }
  }

  /** The version announced last before message `n`; empty while there is none. */
  ghost function LastAnnounced(server: Server, sessionId: string, created: int, cs: seq<Context>, n: nat): string
    requires n <= |cs|
  {
    if n == 0 then ""
    else match Announced(Effects(server, sessionId, created, cs, n - 1))
      case Some(version) => version
      case None => LastAnnounced(server, sessionId, created, cs, n - 1)
  }

  ghost predicate LastAnnouncing(server: Server, cs: seq<Context>, n: nat, a: nat) {
    a < n && AnnouncesAt(server, cs, a) && forall i: nat | a < i < n :: !AnnouncesAt(server, cs, i)
  }

  lemma {:induction false} AnnouncedByHistory(
    server: Server, sessionId: string, created: int, cs: seq<Context>, n: nat)
    requires n <= |cs|
    ensures var last := LastAnnounced(server, sessionId, created, cs, n);
            || (last == "" && forall i: nat | i < n :: !AnnouncesAt(server, cs, i))
            || (exists a: nat :: LastAnnouncing(server, cs, n, a) && last == Asked(cs[a]))
  {
    hide AnnouncesAt, Announced, Effects, After, Asked;
    if n > 0 {
      AnnouncedByHistory(server, sessionId, created, cs, n - 1);
      AnnouncedIsRecorded(server, sessionId, created, cs, n - 1);
      if AnnouncesAt(server, cs, n - 1) {
        assert LastAnnouncing(server, cs, n, n - 1);
      } else if a: nat :| LastAnnouncing(server, cs, n - 1, a) &&
                          LastAnnounced(server, sessionId, created, cs, n - 1) == Asked(cs[a]) {
        assert LastAnnouncing(server, cs, n, a);
      }
    }
  }

  /** Nothing was negotiated yet, or the last negotiation asked for the version that the last
      announcing one did. */
  ghost predicate AgreesWithLast(server: Server, cs: seq<Context>, n: nat)
    requires n <= |cs|
  {
    || (forall i: nat | i < n :: !NegotiatesAt(server, cs, i))
    || (exists k: nat, a: nat ::
          LastNegotiation(server, cs, n, k) && LastAnnouncing(server, cs, n, a) && Asked(cs[k]) == Asked(cs[a]))
  }

  /** The recorded protocol version is the one announced last exactly when the last negotiation and
      the last announcement agree. So it is whenever every negotiation's result marshals and finds a taker. */
  lemma {:induction false} RecordedIsLastAnnounced(
    server: Server, sessionId: string, created: int, cs: seq<Context>, n: nat)
    requires n <= |cs|
    ensures var recorded := After(server, sessionId, created, cs[..n]).data.protocolVersion;
            recorded == LastAnnounced(server, sessionId, created, cs, n) <==> AgreesWithLast(server, cs, n)
    ensures (forall i: nat | i < n && NegotiatesAt(server, cs, i) :: AnnouncesAt(server, cs, i)) ==>
              AgreesWithLast(server, cs, n)
  {
    hide After, NegotiatesAt, AnnouncesAt, LastAnnounced, Negotiated;
    VersionByHistory(server, sessionId, created, cs, n);
    AnnouncedByHistory(server, sessionId, created, cs, n);
    var d := After(server, sessionId, created, cs[..n]).data;
    forall i: nat | AnnouncesAt(server, cs, i) ensures NegotiatesAt(server, cs, i) {
      AnnouncingNegotiates(server, cs, i);
    }
    if k: nat :| NegotiatedLast(server, cs, n, k, d) {
      assert d.protocolVersion == Asked(cs[k]);
      LastNegotiationIsUnique(server, cs, n, k);
      if AnnouncesAt(server, cs, k) {
        assert LastAnnouncing(server, cs, n, k);
      }
      LastAnnouncingIsUnique(server, cs, n);
    }
  }

  lemma AnnouncingNegotiates(server: Server, cs: seq<Context>, i: nat)
    requires AnnouncesAt(server, cs, i)
    ensures NegotiatesAt(server, cs, i)
  {
  }

  lemma LastNegotiationIsUnique(server: Server, cs: seq<Context>, n: nat, k: nat)
    requires LastNegotiation(server, cs, n, k)
    ensures forall j: nat | LastNegotiation(server, cs, n, j) :: j == k
  {
    hide NegotiatesAt;
  }

  lemma LastAnnouncingIsUnique(server: Server, cs: seq<Context>, n: nat)
    ensures forall a: nat, b: nat | LastAnnouncing(server, cs, n, a) && LastAnnouncing(server, cs, n, b) :: a == b
  {
    hide AnnouncesAt;
  }

  /** They can differ: one initialize request whose result does not marshal records a version and
      announces none. */
  lemma RecordedButNotAnnounced(server: Server, sessionId: string, created: int)
    ensures var request := Request(IntId(1), "initialize", "{}");
            var env := Env(created, true, true, true, Parsed(VERSIONS[1], ""), Some("unsupported value"),
                           Feature(true, None, Json("")), Fails(OtherError));
            var cs := [Context(Wrapped(true, "", request, ""), 0, env)];
            && After(server, sessionId, created, cs[..1]).data.protocolVersion == VERSIONS[1]
            && LastAnnounced(server, sessionId, created, cs, 1) == ""
  {
    var request := Request(IntId(1), "initialize", "{}");
    var env := Env(created, true, true, true, Parsed(VERSIONS[1], ""), Some("unsupported value"),
                   Feature(true, None, Json("")), Fails(OtherError));
    var cs := [Context(Wrapped(true, "", request, ""), 0, env)];
    assert |"initialize"| == 10;
    RunLast(server, NewMachine(server, sessionId, created), cs, 0);
    AnnouncedIsRecorded(server, sessionId, created, cs, 0);
    StepVersion(server, After(server, sessionId, created, cs[..0]), cs[0]);
  }

  // ---- Requests ----

  /** What becomes of one wrapped request. */
  datatype Fate = Replied | Silent | AuthError | Crashed | Ignored

  function FateOf(server: Server, phase: StateId, c: Context): Fate
    requires c.message.Wrapped?
  {
    var verb := VerbOf(c.message.request.methodName);
    match phase
    case Uninitialized => Replied
    case Initialized =>
      if !Admitted(server, c) then AuthError
      else if verb == NotifyInitialized || verb == NotifyCancelled then Silent
      else if verb == FeatureCall && RouteOf(server, c) == Dispatch.NilCall then Crashed
      else Replied
    case _ => Ignored
  }

  /** `e` carries `r` to whoever is to have it: the asker, else the connection the table holds
      for the id named in the request, else nobody. */
  predicate Addressed(e: Effect, table: map<string, Pid>, w: Message, r: Response)
    requires w.Wrapped?
  {
    && (w.isAsk ==> e == Answer(r))
    && (!w.isAsk && w.respondTo in table ==> e == Tell(table[w.respondTo], r))
    && (!w.isAsk && w.respondTo !in table ==> e == Dropped(w.respondTo, r))
  }

  /** The reply is the very response that a server author's own handler returned. */
  predicate AnsweredByCustom(server: Server, phase: StateId, c: Context)
    requires c.message.Wrapped?
  {
    && phase == Initialized && VerbOf(c.message.request.methodName) == FeatureCall
    && Dispatch.Calls(RouteOf(server, c)) && HandlerOf(server, c).Custom? && c.env.custom.Success?
  }

  /** `es` ends in one response on its way, at most preceded by the call of an executor; the
      response carries the request's id, unless a custom handler built it. */
  ghost predicate RepliesOnce(
    server: Server, phase: StateId, es: seq<Effect>, table: map<string, Pid>, c: Context)
    requires c.message.Wrapped?
  {
    exists r: Response ::
      && 1 <= |es| <= 2 && Addressed(es[|es| - 1], table, c.message, r)
      && (|es| == 2 ==> es[0].Invoke?)
      && (if AnsweredByCustom(server, phase, c) then r == c.env.custom.response
          else r.id == CopyId(c.message.request.id))
  }

  ghost predicate Suits(server: Server, phase: StateId, es: seq<Effect>, table: map<string, Pid>, c: Context)
    requires c.message.Wrapped?
  {
    match FateOf(server, phase, c)
    case Replied => RepliesOnce(server, phase, es, table, c)
    case AuthError => es == [Raise]
    case Crashed => es == [Raise]
    case _ => es == []
  }

  lemma InitializeCopiesId(d: Data, c: Context)
    requires c.message.Wrapped?
    ensures var (r, d') := HandleInitialize(d, c.message.request, c.env);
            r.id == CopyId(c.message.request.id) && d'.connections == d.connections
  {
    hide Negotiated;
  }

  /** A built-in executor answers under the request's id. */
  lemma BuiltInCopiesId(h: Dispatch.Handler, c: Context)
    requires c.message.Wrapped? && !h.Custom?
    ensures var outcome := RunExecutor(h, c.message.request, c.env);
            outcome.Success? ==> outcome.response.id == CopyId(c.message.request.id)
  {
  }

  /** A feature reply carries the request's id, or is what a custom handler built. */
  lemma FeatureCopiesId(server: Server, c: Context)
    requires c.message.Wrapped?
    ensures var reply := HandleFeature(server, c.message.request, c.env);
            if reply.Panic? then RouteOf(server, c) == Dispatch.NilCall
            else
              && RouteOf(server, c) != Dispatch.NilCall
              && (reply.invoked == [] || (|reply.invoked| == 1 && reply.invoked[0].Invoke?))
              && (if Dispatch.Calls(RouteOf(server, c)) && HandlerOf(server, c).Custom? && c.env.custom.Success?
                  then reply.response == c.env.custom.response
                  else reply.response.id == CopyId(c.message.request.id))
  {
    hide Dispatch.CanHandleMethod, Dispatch.HandleMethod, Dispatch.HandlerAt, Int32, RunExecutor;
    if Dispatch.Calls(RouteOf(server, c)) {
      if HandlerOf(server, c).Custom? {
        CustomOutcome(HandlerOf(server, c), c);
      } else {
        BuiltInCopiesId(HandlerOf(server, c), c);
      }
    }
  }

  lemma CustomOutcome(h: Dispatch.Handler, c: Context)
    requires c.message.Wrapped? && h.Custom?
    ensures RunExecutor(h, c.message.request, c.env) == c.env.custom
  {
  }

  lemma RequestStep(server: Server, m: Machine, c: Context)
    requires Proper(m) && c.message.Wrapped?
    ensures Suits(server, m.current, Receive(server, m, c).1, m.data.connections, c)
  {
    hide VerbOf, HandleInitialize, HandleFeature, RouteOf, HandlerOf;
    InitializeCopiesId(m.data, c);
    FeatureCopiesId(server, c);
    var es := Receive(server, m, c).1;
    if FateOf(server, m.current, c) == Replied {
      var r := ResponseIn(es[|es| - 1]);
      assert Addressed(es[|es| - 1], m.data.connections, c.message, r);
    }
  }

  /** Every wrapped request is replied to exactly once, or is a silent notification, or failed
      authentication, or crashed on a nil executor, or arrived after shutdown; which one, the
      history decides. */
  lemma RequestAccounting(server: Server, sessionId: string, created: int, cs: seq<Context>, i: nat)
    requires i < |cs| && cs[i].message.Wrapped?
    ensures Suits(server, Phase(server, cs[..i]),
                  Effects(server, sessionId, created, cs, i),
                  After(server, sessionId, created, cs[..i]).data.connections, cs[i])
  {
    hide Receive, Phase, Proper, Suits;
    PhaseByHistory(server, sessionId, created, cs, i);
    RequestStep(server, After(server, sessionId, created, cs[..i]), cs[i]);
  }

  /** The error a response reports, if it does. */
  function CodeIn(r: Response): Option<int> {
    if r.body.Error? then Some(r.body.code) else None
  }

  /** The error a reply reports, if it reports one: by the phase, the method and what the request
      met. A JSON-RPC error of an executor goes through with its code, in 32 bits. */
  function ErrorCode(server: Server, phase: StateId, c: Context): Option<int>
    requires c.message.Wrapped?
  {
    var verb := VerbOf(c.message.request.methodName);
    if verb == Initialize then
      if c.message.request.paramsJson == "" || c.env.params.Malformed? then Some(INVALID_PARAMS)
      else if c.env.marshalError.Some? then Some(INTERNAL)
      else None
    else if phase == Uninitialized then Some(NOT_INITIALIZED)
    else if verb == ShutDown then None
    else if !Dispatch.Calls(RouteOf(server, c)) then Some(METHOD_NOT_FOUND)
    else FeatureCode(HandlerOf(server, c), c.env)
  }

  function FailureCode(f: Failure): int {
    match f
    case JsonRpcError(code, _) => Int32(code)
    case OtherError => INTERNAL
  }

  /** The error a feature request's handler runs into, by what it meets. */
  function FeatureCode(h: Dispatch.Handler, env: Env): Option<int> {
    if h.Custom? then
      match env.custom
      case Success(r) => CodeIn(r)
      case Fails(f) => Some(FailureCode(f))
    else if !IsAvailable(h, env.feature) then Some(METHOD_NOT_FOUND)
    else if env.feature.paramsError.Some? then Some(INVALID_PARAMS)
    else
      match env.feature.result
      case Json(_) => None
      case FeatureError(f) => Some(FailureCode(f))
  }

  predicate Reports(e: Effect, code: Option<int>) {
    Delivers(e) && CodeIn(ResponseIn(e)) == code
  }

  lemma InitializeReports(d: Data, c: Context)
    requires c.message.Wrapped?
    ensures var (r, d') := HandleInitialize(d, c.message.request, c.env);
            && d'.connections == d.connections
            && CodeIn(r) ==
               if c.message.request.paramsJson == "" || c.env.params.Malformed? then Some(INVALID_PARAMS)
               else if c.env.marshalError.Some? then Some(INTERNAL)
               else None
  {
    hide Negotiated;
  }

  lemma FeatureReports(server: Server, c: Context)
    requires c.message.Wrapped?
    ensures var reply := HandleFeature(server, c.message.request, c.env);
            reply.Panic? || CodeIn(reply.response) ==
              if !Dispatch.Calls(RouteOf(server, c)) then Some(METHOD_NOT_FOUND)
              else FeatureCode(HandlerOf(server, c), c.env)
  {
    hide Dispatch.CanHandleMethod, Dispatch.HandleMethod, Dispatch.HandlerAt, Int32;
    Int32OfConstants();
  }

  lemma Int32OfConstants()
    ensures Int32(METHOD_NOT_FOUND) == METHOD_NOT_FOUND && Int32(INVALID_PARAMS) == INVALID_PARAMS
  {
  }

  lemma ReportStep(server: Server, m: Machine, c: Context)
    requires Proper(m) && c.message.Wrapped?
    requires FateOf(server, m.current, c) == Replied
    ensures var es := Receive(server, m, c).1;
            es != [] && Reports(es[|es| - 1], ErrorCode(server, m.current, c))
  {
    hide VerbOf, HandleInitialize, HandleFeature, RouteOf, HandlerOf, RunExecutor, Int32;
    InitializeReports(m.data, c);
    if IsRequest(c, FeatureCall) {
      FeatureReports(server, c);
      FeaturePanics(server, c);
    }
  }

  lemma FeaturePanics(server: Server, c: Context)
    requires c.message.Wrapped?
    ensures HandleFeature(server, c.message.request, c.env).Panic? <==> RouteOf(server, c) == Dispatch.NilCall
  {
    hide Dispatch.CanHandleMethod, Dispatch.HandleMethod, RunExecutor;
  }

  /** Every reply reports the error its request's history calls for, or none. */
  lemma RepliesReport(server: Server, sessionId: string, created: int, cs: seq<Context>, i: nat)
    requires i < |cs| && cs[i].message.Wrapped?
    requires FateOf(server, Phase(server, cs[..i]), cs[i]) == Replied
    ensures var es := Effects(server, sessionId, created, cs, i);
            es != [] && Reports(es[|es| - 1], ErrorCode(server, Phase(server, cs[..i]), cs[i]))
  {
    hide Receive, Phase, Proper, Reports, FateOf, ErrorCode;
    PhaseByHistory(server, sessionId, created, cs, i);
    ReportStep(server, After(server, sessionId, created, cs[..i]), cs[i]);
  }

  /** A feature request of an initialized session ran into this JSON-RPC error of its handler. */
  ghost predicate RunsInto(server: Server, cs: seq<Context>, i: nat, code: int, message: string) {
    && i < |cs| && cs[i].message.Wrapped?
    && Phase(server, cs[..i]) == Initialized && Admitted(server, cs[i]) && IsRequest(cs[i], FeatureCall)
    && Dispatch.Calls(RouteOf(server, cs[i]))
    && var h, env := HandlerOf(server, cs[i]), cs[i].env;
       if h.Custom? then env.custom == Fails(JsonRpcError(code, message))
       else
         && IsAvailable(h, env.feature) && env.feature.paramsError.None?
         && env.feature.result == FeatureError(JsonRpcError(code, message))
  }

  /** The client is told an executor's error code exactly when that code fits 32 bits. */
  lemma ErrorCodeArrives(
    server: Server, sessionId: string, created: int, cs: seq<Context>, i: nat, code: int, message: string)
    requires RunsInto(server, cs, i, code, message)
    ensures var es := Effects(server, sessionId, created, cs, i);
            es != [] && Delivers(es[|es| - 1]) &&
            (CodeIn(ResponseIn(es[|es| - 1])) == Some(code) <==> -0x8000_0000 <= code < 0x8000_0000)
  {
    hide Effects, Phase, RouteOf, HandlerOf, VerbOf;
    RepliesReport(server, sessionId, created, cs, i);
  }

  /** From the JSON request to the JSON response: whatever reply a request gets in a run, success
      or error, has the request's id exactly when that id is representable. Only the response of a
      custom handler is passed on as it is. */
  lemma {:induction false} ReplyIdEndToEnd(
    server: Server, sessionId: string, created: int, cs: seq<Context>, i: nat, e: Effect, id: JsonId, wild: int)
    requires i < |cs| && cs[i].message.Wrapped? && MIN_INT64 <= wild <= MAX_INT64
    requires cs[i].message.request.id == RequestIdFromJson(id, wild)
    requires e in Effects(server, sessionId, created, cs, i) && Delivers(e)
    ensures if AnsweredByCustom(server, Phase(server, cs[..i]), cs[i]) then ResponseIn(e) == cs[i].env.custom.response
            else (ToJson(ResponseIn(e)).id == id <==> Representable(id))
  {
    hide Effects, Phase, After, FateOf, RequestIdFromJson, ResponseIdToJson, Representable, AnsweredByCustom;
    RequestAccounting(server, sessionId, created, cs, i);
    IdPreservedExactly(id, wild);
  }

  lemma ExecutorStep(server: Server, m: Machine, c: Context, route: Dispatch.Route)
    requires Proper(m)
    ensures var es := Receive(server, m, c).1;
            && HookTaken !in es
            && (Invoke(route) in es <==>
                && m.current == Initialized && IsRequest(c, FeatureCall) && Admitted(server, c)
                && Dispatch.Calls(route) && route == RouteOf(server, c))
  {
    hide VerbOf, HandleInitialize, Dispatch.CanHandleMethod, Dispatch.HandleMethod;
  }

  /** An executor runs only for an admitted feature request of an initialized session, and it is
      the one the router picks; the unhandled-message hook never runs. */
  lemma {:induction false} ExecutorCalls(
    server: Server, sessionId: string, created: int, cs: seq<Context>, i: nat, route: Dispatch.Route)
    requires i < |cs|
    ensures var es := Effects(server, sessionId, created, cs, i);
            && HookTaken !in es
            && (Invoke(route) in es <==>
                && SawInitialize(cs[..i]) && !SawShutdown(server, cs[..i])
                && IsRequest(cs[i], FeatureCall) && Admitted(server, cs[i])
                && Dispatch.Calls(route) && route == RouteOf(server, cs[i]))
  {
    hide Receive, Proper, SawInitialize, SawShutdown, IsRequest, Admitted, RouteOf;
    PhaseByHistory(server, sessionId, created, cs, i);
    ExecutorStep(server, After(server, sessionId, created, cs[..i]), cs[i], route);
  }
}
