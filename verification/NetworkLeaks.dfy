/** The sessions that never stop: shut down before their cleanup message, they ignore it, and no
    timer is left to end them. */
module NetworkLeaks {
  import opened Wrappers
  import opened Rpc
  import opened Network
  import S = Session
  import opened SessionSteps
  import H = SessionHistory
  import opened NetworkTimers
  import opened NetworkDeadlines
  import Dispatch

  function Checks(n: Net): nat {
    Count(n.mailbox, S.CheckTtl)
  }

  /** TTL checks come from the TTL timer; once the cleanup message was ignored, there is neither. */
  ghost predicate Dormant(w: World, n: Net) {
    && (Checks(n) > 0 ==> n.tickers != [])
    && (CleanupIgnored(w, n.log) ==> Tokens(n) == 0 && n.status != Halted)
  }

  lemma PostDormant(w: World, n: Net, m: S.Message, sender: S.Pid)
    requires Dormant(w, n) && m != S.PostStart
    requires m == S.TryCleanup ==> !CleanupIgnored(w, n.log)
    requires m == S.CheckTtl ==> n.tickers != []
    ensures Dormant(w, Post(n, m, sender))
  {
    hide CleanupIgnored;
    PostTokens(n, m, sender);
    CountAppend(n.mailbox, Letter(m, sender, n.now), S.CheckTtl);
  }

  lemma HandleDormant(w: World, n: Net, env: S.Env)
    requires Sound(w, n) && Tokens(n) <= 1 && Dormant(w, n) && Enabled(w, n, Handle(env))
    ensures Dormant(w, HandleNext(w, n, env))
  {
    HandleFacts(w, n, env);
    HandledByOne(w, n, env);
    HandleTokens(w, n, env);
    SoundIsProper(w, n);
    ShutdownIsLogged(w, n);
    var c := ContextOf(n, env);
    var (m, es) := S.Receive(w.server, n.machine, c);
    TimerEffects(w.server, n.machine, c);
    H.StopStep(w.server, n.machine, c);
    IgnoredStep(w, n.log, c);
    var next := n.(machine := m, log := n.log + [c], mailbox := n.mailbox[1..]);
    HaltedBy(next, es);
    hide S.Receive, H.After, CleanupIgnored, H.SawShutdown, H.SawInitialize, HandleNext, NextPhase, Proper, Sound;
    if !NoTimer(es) {
      PerformOne(next, es[0]);
    }
  }

  lemma DormantStep(w: World, n: Net, a: Action)
    requires Sound(w, n) && Tokens(n) <= 1 && Dormant(w, n) && Enabled(w, n, a)
    ensures Dormant(w, Apply(w, n, a))
  {
    hide S.Receive, HandleNext, Sound, CleanupIgnored;
    match a
    case Arrive(m, sender) => PostDormant(w, n, m, sender);
    case Handle(env) => HandleDormant(w, n, env);
    case FireCleanup(i) =>
      PostDormant(w, n.(cleanups := n.cleanups[..i] + n.cleanups[i + 1..]), S.TryCleanup, 0);
    case FireTick(i) =>
      var t := n.tickers[i];
      PostDormant(w, n.(tickers := n.tickers[i := t.(next := t.next + t.interval)]), S.CheckTtl, 0);
    case Begin(pid, found) =>
      var p := n.peers[pid];
      PostDormant(w, n.(peers := n.peers[pid := p.(stage := Awaiting)]), S.RegisterConnection(p.conn.connectionId), pid);
    case _ =>
  }

  lemma {:induction false} AlwaysDormant(w: World, actions: seq<Action>, n: Net)
    requires Execute(w, actions) == Some(n)
    ensures Dormant(w, n)
  {
    hide Sound, Apply, Enabled, Dormant;
    if actions == [] {
      InitiallyDormant(w);
    } else {
      var before := Execute(w, actions[..|actions| - 1]).value;
      AlwaysDormant(w, actions[..|actions| - 1], before);
      AlwaysSound(w, actions[..|actions| - 1], before);
      OneTimerAtATime(w, actions[..|actions| - 1], before);
      DormantStep(w, before, actions[|actions| - 1]);
    }
  }

  lemma InitiallyDormant(w: World)
    ensures Dormant(w, Initial(w))
  {
    var mailbox := Initial(w).mailbox;
    assert mailbox[1..] == [];
    assert Count(mailbox[1..], S.CheckTtl) == 0;
  }

  /** A session that ignored its cleanup message never stops, whatever happens after. */
  lemma {:induction false} IgnoredNeverStops(w: World, actions: seq<Action>, n: Net)
    requires Execute(w, actions) == Some(n) && CleanupIgnored(w, n.log)
    ensures n.status != Halted && n.tickers == [] && n.cleanups == []
  {
    hide CleanupIgnored;
    AlwaysDormant(w, actions, n);
  }

  /** A session that runs on, past its start and with nothing to keep it alive, is one that ignored
      its cleanup message; no other outlives both bounds. */
  lemma OnlyIgnoredOutlive(w: World, actions: seq<Action>, n: Net)
    requires Execute(w, actions) == Some(n) && n.status == Running
    requires n.now > w.created + InitTimeout(w) + 2 * w.latency
    requires n.now > n.machine.data.lastActivity + Timeout(w) + Timeout(w) / 2 + w.latency
    ensures CleanupIgnored(w, n.log)
  {
    RunningIsGuarded(w, actions, n);
    if n.tickers != [] {
      TickingBound(w, actions, n);
    }
  }

  // ---- A run that leaks ----

  /** Reached, running with an empty mailbox, in `phase`, waiting for one cleanup timer. */
  ghost predicate Idle(w: World, actions: seq<Action>, n: Net, phase: S.StateId) {
    && Execute(w, actions) == Some(n)
    && n.status == Running && n.mailbox == [] && n.machine.current == phase
    && n.now == w.created && n.cleanups == [w.created + InitTimeout(w)]
  }

  function QuietEnv(now: int): S.Env {
    S.Env(now, true, true, true, S.Malformed(""), None, S.Feature(true, None, S.Json("")), S.Fails(OtherError))
  }

  function Asked(methodName: string): S.Message {
    S.Wrapped(true, "", Request(IntId(1), methodName, ""), "")
  }

  lemma StartIdle(w: World)
    ensures exists actions, n :: Idle(w, actions, n, S.Uninitialized)
  {
    var env := QuietEnv(w.created);
    var a := Handle(env);
    var n0 := Initial(w);
    var next := n0.(machine := S.Receive(w.server, n0.machine, ContextOf(n0, env)).0,
                    log := [ContextOf(n0, env)], mailbox := []);
    assert Execute(w, []) == Some(n0);
    Extend(w, [], n0, a);
    HandledByOne(w, n0, env);
    PerformOne(next, S.ScheduleOnce(InitTimeout(w)));
    assert n0.mailbox[1..] == [] && [] + [ContextOf(n0, env)] == [ContextOf(n0, env)];
    var n := Apply(w, n0, a);
    assert Idle(w, [] + [a], n, S.Uninitialized);
  }

  /** A request that is replied to leaves the session idle in its next phase. */
  lemma AskIdle(w: World, actions: seq<Action>, n: Net, phase: S.StateId, methodName: string)
    requires Idle(w, actions, n, phase)
    requires phase == S.Uninitialized || (phase == S.Initialized && S.VerbOf(methodName) == S.ShutDown)
    ensures var next := NextPhase(w.server, phase, S.Context(Asked(methodName), 0, QuietEnv(w.created)));
            exists actions', n' :: Idle(w, actions', n', next)
  {
    hide S.VerbOf, S.Receive, H.After, H.RepliesOnce;
    var m := Asked(methodName);
    var env := QuietEnv(w.created);
    var c := S.Context(m, 0, env);
    Extend(w, actions, n, Arrive(m, 0));
    var n1 := Apply(w, n, Arrive(m, 0));
    assert n1.mailbox == [Letter(m, 0, n.now)] && n1.mailbox[1..] == [];
    Extend(w, actions + [Arrive(m, 0)], n1, Handle(env));
    AlwaysSound(w, actions + [Arrive(m, 0)], n1);
    HandleFacts(w, n1, env);
    SoundIsProper(w, n1);
    TimerEffects(w.server, n1.machine, c);
    H.RequestStep(w.server, n1.machine, c);
    RepliesAreHarmless(w.server, phase, S.Receive(w.server, n1.machine, c).1, n1.machine.data.connections, c);
    var n2 := Apply(w, n1, Handle(env));
    assert Idle(w, actions + [Arrive(m, 0)] + [Handle(env)], n2, NextPhase(w.server, phase, c));
  }

  lemma RepliesAreHarmless(
    server: S.Server, phase: S.StateId, es: seq<S.Effect>, table: map<string, S.Pid>, c: S.Context)
    requires c.message.Wrapped? && H.RepliesOnce(server, phase, es, table, c)
    ensures S.Stop !in es && S.Raise !in es
  {
  }

  /** The cleanup message has just arrived at a shut-down session. */
  ghost predicate CleanupArrived(w: World, actions: seq<Action>, n: Net) {
    && Execute(w, actions) == Some(n)
    && n.status == Running && n.machine.current == S.Shutdown
    && n.mailbox == [Letter(S.TryCleanup, 0, n.now)]
  }

  lemma CleanupArrives(w: World, actions: seq<Action>, n: Net)
    requires Idle(w, actions, n, S.Shutdown)
    ensures exists actions', n' :: CleanupArrived(w, actions', n')
  {
    OneTimerAtATime(w, actions, n);
    AlwaysTimely(w, actions, n);
    assert n.tickers == [];
    var due := n.cleanups[0];
    var acts, now := actions, n;
    if due > n.now {
      Extend(w, actions, n, Wait(due));
      acts, now := actions + [Wait(due)], Apply(w, n, Wait(due));
    }
    hide Execute;
    Extend(w, acts, now, FireCleanup(0));
    assert CleanupArrived(w, acts + [FireCleanup(0)], Apply(w, now, FireCleanup(0)));
  }

  lemma CleanupIsIgnored(w: World, actions: seq<Action>, n: Net)
    requires CleanupArrived(w, actions, n)
    ensures exists actions', n' :: Execute(w, actions') == Some(n') && n'.status == Running && CleanupIgnored(w, n'.log)
  {
    var env := QuietEnv(n.now);
    var c := ContextOf(n, env);
    Extend(w, actions, n, Handle(env));
    AlwaysSound(w, actions, n);
    HandleFacts(w, n, env);
    SoundIsProper(w, n);
    ShutdownIsLogged(w, n);
    IgnoredStep(w, n.log, c);
    assert S.Receive(w.server, n.machine, c).1 == [];
    hide CleanupIgnored, H.SawShutdown, S.Receive, HandleNext, Execute;
    assert Execute(w, actions + [Handle(env)]) == Some(HandleNext(w, n, env));
  }

  /** In every world some run leaks a session: initialize, shut down before the cleanup timer. */
  lemma SomeRunLeaks(w: World)
    ensures exists actions, n :: Execute(w, actions) == Some(n) && n.status == Running && CleanupIgnored(w, n.log)
  {
    hide Idle, CleanupIgnored, Execute, CleanupArrived;
    VerbsOfLifecycle();
    StartIdle(w);
    var a1, n1 :| Idle(w, a1, n1, S.Uninitialized);
    AskIdle(w, a1, n1, S.Uninitialized, "initialize");
    var a2, n2 :| Idle(w, a2, n2, S.Initialized);
    AskIdle(w, a2, n2, S.Initialized, "shutdown");
    var a3, n3 :| Idle(w, a3, n3, S.Shutdown);
    CleanupArrives(w, a3, n3);
    var a4, n4 :| CleanupArrived(w, a4, n4);
    CleanupIsIgnored(w, a4, n4);
  }

  lemma VerbsOfLifecycle()
    ensures S.VerbOf("initialize") == S.Initialize && S.VerbOf("shutdown") == S.ShutDown
  {
    assert |"initialize"| == 10 && |"shutdown"| == 8;
  }
}
