/** Time goes on: from every reachable state a few steps that are due lead to a later time, so no
    deadline is met by stopping the clock. */
module NetworkProgress {
  import opened Wrappers
  import opened Network
  import S = Session
  import opened SessionSteps
  import H = SessionHistory
  import opened NetworkTimers
  import opened NetworkDeadlines

  /** At most this many steps are due before time can pass, while there is at most one timer. The
      start-up message leads to a cleanup timer, that to a message, and a tick to a message. */
  function Due(n: Net): nat {
    (if n.status == Running then |n.mailbox| + 3 * Count(n.mailbox, S.PostStart) else 0) +
    2 * |n.cleanups| + (if n.tickers != [] && n.tickers[0].next == n.now then 2 else 0)
  }

  lemma HandleProgress(w: World, n: Net, env: S.Env)
    requires Sound(w, n) && Tokens(n) <= 1 && Timeout(w) >= 2 && Enabled(w, n, Handle(env))
    ensures HandleNext(w, n, env).now == n.now && Due(HandleNext(w, n, env)) < Due(n)
  {
    HandleFacts(w, n, env);
    SoundIsProper(w, n);
    HandledByOne(w, n, env);
    HandleTickers(w, n, env);
    var c := ContextOf(n, env);
    var (m, es) := S.Receive(w.server, n.machine, c);
    TimerEffects(w.server, n.machine, c);
    hide S.Receive, H.After, HandleNext, NextPhase, Proper, Sound;
    if !NoTimer(es) {
      PerformOne(n.(machine := m, log := n.log + [c], mailbox := n.mailbox[1..]), es[0]);
    }
  }

  lemma CleanupProgress(w: World, n: Net)
    requires Enabled(w, n, FireCleanup(0))
    ensures Due(Apply(w, n, FireCleanup(0))) < Due(n)
  {
    CountAppend(n.mailbox, Letter(S.TryCleanup, 0, n.now), S.PostStart);
  }

  lemma TickProgress(w: World, n: Net)
    requires Timely(w, n) && Timeout(w) >= 2 && Enabled(w, n, FireTick(0))
    ensures Due(Apply(w, n, FireTick(0))) < Due(n)
  {
    CountAppend(n.mailbox, Letter(S.CheckTtl, 0, n.now), S.PostStart);
  }

  lemma NothingDue(w: World, n: Net)
    requires Timely(w, n) && Tokens(n) <= 1 && (n.status == Running ==> n.mailbox == [])
    requires n.cleanups == [] || n.cleanups[0] != n.now
    requires n.tickers == [] || n.tickers[0].next != n.now
    ensures Enabled(w, n, Wait(n.now + 1))
  {
  }

  /** The steps a session takes when it is left alone. */
  predicate Inner(a: Action) {
    a.Handle? || a.Wait? || a.FireCleanup? || a.FireTick?
  }

  /** Such a step, in which a message handled meets `env`, at its own time. */
  predicate Meets(a: Action, env: S.Env) {
    Inner(a) && (a.Handle? ==> a.env == env.(now := a.env.now))
  }

  /** Some step is due, or time can pass. */
  lemma NextStep(w: World, n: Net, env: S.Env) returns (a: Action)
    requires Sound(w, n) && Timely(w, n) && Tokens(n) <= 1 && Timeout(w) >= 2
    ensures Enabled(w, n, a) && Meets(a, env)
    ensures var n' := Apply(w, n, a);
            n'.now > n.now || (n'.now == n.now && Due(n') < Due(n))
  {
    hide Sound, Timely, Timeout, Tokens, HandleNext, Due, MayWait;
    if n.status == Running && n.mailbox != [] {
      HandleProgress(w, n, env.(now := n.now));
      a := Handle(env.(now := n.now));
    } else if n.cleanups != [] && n.cleanups[0] == n.now {
      CleanupProgress(w, n);
      a := FireCleanup(0);
    } else if n.tickers != [] && n.tickers[0].next == n.now {
      TickProgress(w, n);
      a := FireTick(0);
    } else {
      NothingDue(w, n);
      a := Wait(n.now + 1);
    }
  }

  /** The steps `more`, in which every message handled meets `env`, lead on to a later time. */
  ghost predicate Passes(w: World, actions: seq<Action>, n: Net, env: S.Env, more: seq<Action>, n': Net) {
    && Execute(w, actions + more) == Some(n') && n'.now > n.now
    && forall a | a in more :: Meets(a, env)
  }

  lemma {:induction false} PassesWithin(w: World, actions: seq<Action>, n: Net, env: S.Env)
    requires Execute(w, actions) == Some(n) && Timeout(w) >= 2
    ensures exists more, n' :: Passes(w, actions, n, env, more, n') && |more| <= Due(n) + 1
    decreases Due(n)
  {
    hide Apply, Enabled, Execute, Due, Timeout, Sound, Timely, Tokens;
    AlwaysSound(w, actions, n);
    AlwaysTimely(w, actions, n);
    OneTimerAtATime(w, actions, n);
    var a := NextStep(w, n, env);
    var n1 := Apply(w, n, a);
    Extend(w, actions, n, a);
    if n1.now > n.now {
      assert Passes(w, actions, n, env, [a], n1);
    } else {
      PassesWithin(w, actions + [a], n1, env);
      var more, n' :| Passes(w, actions + [a], n1, env, more, n') && |more| <= Due(n1) + 1;
      assert actions + [a] + more == actions + ([a] + more);
      assert Passes(w, actions, n, env, [a] + more, n');
    }
  }

  /** With a session timeout of at least 2 ns, time can go on from every reachable state, whatever
      the messages handled on the way meet: at most four steps besides handling what waits. */
  lemma {:induction false} TimeGoesOn(w: World, actions: seq<Action>, n: Net, env: S.Env)
    requires Execute(w, actions) == Some(n) && w.server.ttl != 1
    ensures exists more, n' :: Passes(w, actions, n, env, more, n') && |more| <= |n.mailbox| + 4
  {
    PassesWithin(w, actions, n, env);
    OneTimerAtATime(w, actions, n);
  }

  /** So every time is reached. */
  lemma {:induction false} EveryTimeIsReached(w: World, actions: seq<Action>, n: Net, env: S.Env, t: int)
    requires Execute(w, actions) == Some(n) && w.server.ttl != 1 && n.now < t
    ensures exists more, n' :: Passes(w, actions, n, env, more, n') && n'.now >= t
    decreases t - n.now
  {
    hide Execute, Meets;
    TimeGoesOn(w, actions, n, env);
    var more, n1 :| Passes(w, actions, n, env, more, n1);
    if n1.now < t {
      EveryTimeIsReached(w, actions + more, n1, env, t);
      var rest, n' :| Passes(w, actions + more, n1, env, rest, n') && n'.now >= t;
      assert actions + more + rest == actions + (more + rest);
      assert Passes(w, actions, n, env, more + rest, n');
    }
  }

  lemma FrozenStep(w: World, n: Net, a: Action)
    requires w.server.ttl == 1 && Sound(w, n) && Timely(w, n) && n.tickers != [] && Enabled(w, n, a)
    ensures Apply(w, n, a).now == n.now && Apply(w, n, a).tickers != []
  {
    hide Sound, HandleNext;
    assert n.tickers[0].next == n.now;
    if a.Handle? {
      HandleFacts(w, n, a.env);
      HandleTickers(w, n, a.env);
    }
  }

  /** With a timeout of 1 ns the TTL timer's interval is zero: once it is armed it is due again and
      again, and the time never changes. */
  lemma {:induction false} FrozenByZeroInterval(w: World, actions: seq<Action>, n: Net, more: seq<Action>, n': Net)
    requires w.server.ttl == 1 && Execute(w, actions) == Some(n) && n.tickers != []
    requires Execute(w, actions + more) == Some(n')
    ensures n'.now == n.now && n'.tickers != []
    decreases |more|
  {
    hide Apply, Enabled, Sound, Timely;
    if more == [] {
      assert actions + more == actions;
    } else {
      var all, shorter := actions + more, actions + more[..|more| - 1];
      assert all[..|all| - 1] == shorter;
      var before := Execute(w, shorter).value;
      FrozenByZeroInterval(w, actions, n, more[..|more| - 1], before);
      AlwaysSound(w, shorter, before);
      AlwaysTimely(w, shorter, before);
      FrozenStep(w, before, more[|more| - 1]);
    }
  }

  // ---- A session left alone ----

  /** A running session whose TTL timer ticks and in which only the messages from before `since` can
      still renew the last activity. */
  ghost predicate Calm(w: World, since: int, n: Net) {
    n.status == Running ==>
      && n.tickers != []
      && n.machine.data.lastActivity <= since + w.latency
      && forall i :: 0 <= i < |n.mailbox| ==> n.mailbox[i].message == S.CheckTtl || n.mailbox[i].arrival <= since
  }

  lemma CalmHandle(w: World, since: int, n: Net, env: S.Env)
    requires Sound(w, n) && Timely(w, n) && Calm(w, since, n) && Enabled(w, n, Handle(env))
    ensures Calm(w, since, HandleNext(w, n, env))
  {
    HandleFacts(w, n, env);
    HandleTickers(w, n, env);
    SoundIsProper(w, n);
    StepActivity(w.server, n.machine, ContextOf(n, env));
    hide S.Receive, HandleNext, Sound, NextPhase, Proper, IsRequest, Admitted;
    assert n.mailbox[0].message == S.CheckTtl || n.mailbox[0].arrival <= since;
  }

  lemma CalmStep(w: World, since: int, n: Net, a: Action)
    requires Sound(w, n) && Timely(w, n) && Tokens(n) <= 1 && Calm(w, since, n) && Enabled(w, n, a) && Inner(a)
    ensures Calm(w, since, Apply(w, n, a))
  {
    hide S.Receive, HandleNext, Sound, Timely, Count;
    if a.Handle? {
      CalmHandle(w, since, n, a.env);
    }
  }

  lemma {:induction false} StaysCalm(w: World, since: int, actions: seq<Action>, n: Net, more: seq<Action>, n': Net)
    requires Execute(w, actions) == Some(n) && Calm(w, since, n)
    requires Execute(w, actions + more) == Some(n') && forall a | a in more :: Inner(a)
    ensures Calm(w, since, n')
    decreases |more|
  {
    hide Apply, Enabled, Sound, Timely, Tokens, Calm, Inner;
    if more == [] {
      assert actions + more == actions;
    } else {
      var all, shorter := actions + more, actions + more[..|more| - 1];
      assert all[..|all| - 1] == shorter;
      var before := Execute(w, shorter).value;
      StaysCalm(w, since, actions, n, more[..|more| - 1], before);
      AlwaysSound(w, shorter, before);
      AlwaysTimely(w, shorter, before);
      OneTimerAtATime(w, shorter, before);
      CalmStep(w, since, before, more[|more| - 1]);
    }
  }

  /** Once the cleanup message was handled by an initialized session, every run in which nothing new
      reaches the session ends it within the timeout and a half, plus the time two messages wait. */
  lemma {:induction false} LeftAloneStops(w: World, actions: seq<Action>, n: Net, more: seq<Action>, n': Net)
    requires Execute(w, actions) == Some(n) && CleanupArmed(w, n.log)
    requires Execute(w, actions + more) == Some(n') && forall a | a in more :: Inner(a)
    requires n'.now > n.now + Timeout(w) + Timeout(w) / 2 + 2 * w.latency
    ensures n'.status != Running
  {
    hide CleanupArmed, Timeout, Execute, Inner;
    AlwaysSound(w, actions, n);
    AlwaysTimely(w, actions, n);
    AlwaysTicksWhenArmed(w, actions, n);
    StaysCalm(w, n.now, actions, n, more, n');
    if n'.status == Running {
      TickingBound(w, actions + more, n');
    }
  }

  /** Unless the timeout is 1 ns such a run gets there, whatever its messages meet. */
  lemma {:induction false} LeftAloneEnds(w: World, actions: seq<Action>, n: Net, env: S.Env)
    requires Execute(w, actions) == Some(n) && CleanupArmed(w, n.log) && w.server.ttl != 1
    ensures exists more, n' :: Passes(w, actions, n, env, more, n') && n'.status != Running
  {
    hide CleanupArmed, Timeout, Execute, Inner;
    var t := n.now + Timeout(w) + Timeout(w) / 2 + 2 * w.latency + 1;
    assert Timeout(w) > 0 by {
      TimeoutIsPositive(w);
    }
    EveryTimeIsReached(w, actions, n, env, t);
    var more, n' :| Passes(w, actions, n, env, more, n') && n'.now >= t;
    LeftAloneStops(w, actions, n, more, n');
  }

  lemma TimeoutIsPositive(w: World)
    ensures Timeout(w) > 0
  {
  }
}
