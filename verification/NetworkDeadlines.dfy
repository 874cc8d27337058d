/** Deadlines and stops over every run: a session nobody initializes dies in time, an idle one too,
    and no session actor stops without a reason. */
module NetworkDeadlines {
  import opened Wrappers
  import opened Network
  import S = Session
  import opened SessionSteps
  import H = SessionHistory
  import opened NetworkTimers

  // ---- Waiting letters ----

  /** A letter `m` that arrived between `lo` and `hi` is waiting. */
  ghost predicate Waiting(mailbox: seq<Letter>, m: S.Message, lo: int, hi: int) {
    exists i :: 0 <= i < |mailbox| && mailbox[i].message == m && lo <= mailbox[i].arrival <= hi
  }

  lemma StillWaiting(mailbox: seq<Letter>, l: Letter, m: S.Message, lo: int, hi: int)
    ensures Waiting(mailbox, m, lo, hi) ==> Waiting(mailbox + [l], m, lo, hi)
    ensures l.message == m && lo <= l.arrival <= hi ==> Waiting(mailbox + [l], m, lo, hi)
  {
    var all := mailbox + [l];
    assert all[|mailbox|] == l;
    if Waiting(mailbox, m, lo, hi) {
      var i :| 0 <= i < |mailbox| && mailbox[i].message == m && lo <= mailbox[i].arrival <= hi;
      assert all[i] == mailbox[i];
    }
  }

  lemma WaitingBehind(mailbox: seq<Letter>, m: S.Message, lo: int, hi: int)
    requires Waiting(mailbox, m, lo, hi)
    ensures (mailbox[0].message == m && lo <= mailbox[0].arrival <= hi) || Waiting(mailbox[1..], m, lo, hi)
  {
    var i :| 0 <= i < |mailbox| && mailbox[i].message == m && lo <= mailbox[i].arrival <= hi;
    if i > 0 {
      assert mailbox[1..][i - 1] == mailbox[i];
    }
  }

  /** No timer is overdue, and no letter waits longer than the latency while the session runs. */
  ghost predicate Timely(w: World, n: Net) {
    && (forall i :: 0 <= i < |n.cleanups| ==> n.now <= n.cleanups[i])
    && (forall i :: 0 <= i < |n.tickers| ==>
          n.now <= n.tickers[i].next && n.tickers[i].interval == Timeout(w) / 2 &&
          n.tickers[i].next - n.tickers[i].interval <= n.now)
    && (n.status == Running ==> forall i :: 0 <= i < |n.mailbox| ==>
          n.mailbox[i].arrival <= n.now <= n.mailbox[i].arrival + w.latency)
  }

  lemma PostTimely(w: World, n: Net, m: S.Message, sender: S.Pid)
    requires Timely(w, n)
    ensures Timely(w, Post(n, m, sender))
  {
  }

  lemma HandleTimely(w: World, n: Net, env: S.Env)
    requires Sound(w, n) && Timely(w, n) && Enabled(w, n, Handle(env))
    ensures Timely(w, HandleNext(w, n, env))
  {
    hide S.Receive, H.After;
    HandleFacts(w, n, env);
    SoundIsProper(w, n);
    hide Sound, Proper;
    var c := ContextOf(n, env);
    var (m, es) := S.Receive(w.server, n.machine, c);
    TimerEffects(w.server, n.machine, c);
    if !NoTimer(es) {
      PerformOne(n.(machine := m, log := n.log + [c], mailbox := n.mailbox[1..]), es[0]);
    }
  }

  lemma TimelyStep(w: World, n: Net, a: Action)
    requires Sound(w, n) && Timely(w, n) && Enabled(w, n, a)
    ensures Timely(w, Apply(w, n, a))
  {
    hide Sound, S.Receive, HandleNext;
    match a
    case Arrive(m, sender) => PostTimely(w, n, m, sender);
    case Handle(env) => HandleTimely(w, n, env);
    case FireCleanup(i) =>
      PostTimely(w, n.(cleanups := n.cleanups[..i] + n.cleanups[i + 1..]), S.TryCleanup, 0);
    case FireTick(i) =>
      var t := n.tickers[i];
      PostTimely(w, n.(tickers := n.tickers[i := t.(next := t.next + t.interval)]), S.CheckTtl, 0);
    case Begin(pid, found) =>
      var p := n.peers[pid];
      PostTimely(w, n.(peers := n.peers[pid := p.(stage := Awaiting)]), S.RegisterConnection(p.conn.connectionId), pid);
    case _ =>
  }

  lemma {:induction false} AlwaysTimely(w: World, actions: seq<Action>, n: Net)
    requires Execute(w, actions) == Some(n)
    ensures Timely(w, n)
  {
    hide Sound, Apply, Enabled, Timely;
    if actions == [] {
      assert Timely(w, Initial(w)) by {
        InitiallyTimely(w);
      }
    } else {
      var before := Execute(w, actions[..|actions| - 1]).value;
      AlwaysTimely(w, actions[..|actions| - 1], before);
      AlwaysSound(w, actions[..|actions| - 1], before);
      TimelyStep(w, before, actions[|actions| - 1]);
    }
  }

  lemma InitiallyTimely(w: World)
    ensures Timely(w, Initial(w))
  {
  }

  // ---- The cleanup timer ----

  /** The cleanup message was handled after a shutdown request, and so ignored. */
  ghost predicate CleanupIgnored(w: World, log: seq<S.Context>) {
    exists k :: 0 <= k < |log| && log[k].message == S.TryCleanup && H.SawShutdown(w.server, log[..k])
  }

  lemma IgnoredStep(w: World, log: seq<S.Context>, c: S.Context)
    ensures CleanupIgnored(w, log + [c]) <==>
            CleanupIgnored(w, log) || (c.message == S.TryCleanup && H.SawShutdown(w.server, log))
  {
    hide H.SawShutdown;
    var all := log + [c];
    assert forall k | 0 <= k <= |log| :: all[..k] == log[..k];
    assert all[..|log|] == log && all[|log|] == c;
    if k :| 0 <= k < |log| && log[k].message == S.TryCleanup && H.SawShutdown(w.server, log[..k]) {
      assert all[k] == log[k];
    }
  }

  /** The start-up message is there from the beginning and the first the session handles. */
  ghost predicate StartsFirst(w: World, n: Net) {
    forall i :: 0 <= i < |n.mailbox| && n.mailbox[i].message == S.PostStart ==>
      i == 0 && n.log == [] && n.mailbox[i].arrival == w.created
  }

  lemma StartsFirstStep(w: World, n: Net, a: Action)
    requires Sound(w, n) && StartsFirst(w, n) && Enabled(w, n, a)
    ensures StartsFirst(w, Apply(w, n, a))
  {
    hide Sound, S.Receive, HandleNext;
    if a.Handle? {
      HandleFacts(w, n, a.env);
    } else if a.Arrive? || a.FireCleanup? || a.FireTick? || a.Begin? {
      assert forall i :: 0 <= i < |n.mailbox| ==> Apply(w, n, a).mailbox[i] == n.mailbox[i];
    }
  }

  /** The latest time the cleanup message can arrive. */
  function CleanupBy(w: World): int {
    w.created + w.latency + InitTimeout(w)
  }

  /** The cleanup message, or what leads to it, is still to be handled. */
  ghost predicate CleanupComing(w: World, n: Net) {
    || Waiting(n.mailbox, S.PostStart, w.created, w.created)
    || (exists i :: 0 <= i < |n.cleanups| && n.cleanups[i] <= CleanupBy(w))
    || Waiting(n.mailbox, S.TryCleanup, w.created, CleanupBy(w))
  }

  /** While the session runs, its cleanup message is to come, or armed the TTL timer, or was ignored. */
  ghost predicate Guarded(w: World, n: Net) {
    n.status == Running ==> CleanupComing(w, n) || n.tickers != [] || CleanupIgnored(w, n.log)
  }

  lemma PostGuarded(w: World, n: Net, m: S.Message, sender: S.Pid)
    requires Guarded(w, n)
    ensures Guarded(w, Post(n, m, sender))
  {
    hide Waiting, CleanupIgnored;
    StillWaiting(n.mailbox, Letter(m, sender, n.now), S.PostStart, w.created, w.created);
    StillWaiting(n.mailbox, Letter(m, sender, n.now), S.TryCleanup, w.created, CleanupBy(w));
  }

  /** Taking away a letter of another kind leaves what is coming in place. */
  lemma BehindOther(w: World, n: Net)
    requires n.mailbox != [] && n.mailbox[0].message != S.PostStart && n.mailbox[0].message != S.TryCleanup
    requires CleanupComing(w, n)
    ensures CleanupComing(w, n.(mailbox := n.mailbox[1..]))
  {
    hide Waiting;
    if Waiting(n.mailbox, S.PostStart, w.created, w.created) {
      WaitingBehind(n.mailbox, S.PostStart, w.created, w.created);
    }
    if Waiting(n.mailbox, S.TryCleanup, w.created, CleanupBy(w)) {
      WaitingBehind(n.mailbox, S.TryCleanup, w.created, CleanupBy(w));
    }
  }

  lemma ComingDepends(w: World, n: Net, n': Net)
    requires n.mailbox == n'.mailbox && n.cleanups == n'.cleanups && CleanupComing(w, n)
    ensures CleanupComing(w, n')
  {
  }

  lemma EmptyLogIsUninitialized(w: World, n: Net)
    requires Sound(w, n) && n.log == []
    ensures n.machine.current == S.Uninitialized
  {
  }

  lemma ShutdownIsLogged(w: World, n: Net)
    requires Sound(w, n)
    ensures n.machine.current == S.Shutdown <==> H.SawShutdown(w.server, n.log)
    ensures n.machine.current == S.Uninitialized ==> !H.SawInitialize(n.log)
  {
    H.PhaseByHistory(w.server, w.sessionId, w.created, n.log, |n.log|);
    assert n.log[..|n.log|] == n.log;
  }

  lemma HandleGuarded(w: World, n: Net, env: S.Env)
    requires Sound(w, n) && Timely(w, n) && StartsFirst(w, n) && Guarded(w, n) && Enabled(w, n, Handle(env))
    ensures Guarded(w, HandleNext(w, n, env))
  {
    HandleFacts(w, n, env);
    SoundIsProper(w, n);
    ShutdownIsLogged(w, n);
    var c := ContextOf(n, env);
    var (m, es) := S.Receive(w.server, n.machine, c);
    var n' := HandleNext(w, n, env);
    TimerEffects(w.server, n.machine, c);
    IgnoredStep(w, n.log, c);
    if n'.status == Running && !CleanupIgnored(w, n'.log) {
      hide S.Receive, H.After, Waiting, CleanupIgnored, H.SawShutdown, H.SawInitialize, HandleNext, NextPhase;
      if !NoTimer(es) {
        PerformOne(n.(machine := m, log := n.log + [c], mailbox := n.mailbox[1..]), es[0]);
        assert n' == Perform(n.(machine := m, log := n.log + [c], mailbox := n.mailbox[1..]), es[0]) by {
          HandledByOne(w, n, env);
        }
      }
      if c.message == S.PostStart {
        assert n.mailbox[0].message == S.PostStart;
        EmptyLogIsUninitialized(w, n);
        StartHandled(w, n, n');
      } else if c.message != S.TryCleanup && CleanupComing(w, n) {
        BehindOther(w, n);
        ComingDepends(w, n.(mailbox := n.mailbox[1..]), n');
      }
    }
  }

  lemma HandledByOne(w: World, n: Net, env: S.Env)
    requires n.mailbox != []
    ensures var c := ContextOf(n, env);
            var (m, es) := S.Receive(w.server, n.machine, c);
            HandleNext(w, n, env) == PerformAll(n.(machine := m, log := n.log + [c], mailbox := n.mailbox[1..]), es)
  {
    hide S.Receive;
  }

  /** Handling the start-up message arms the cleanup timer in time. */
  lemma StartHandled(w: World, n: Net, n': Net)
    requires Timely(w, n) && StartsFirst(w, n) && n.status == Running
    requires n.mailbox != [] && n.mailbox[0].message == S.PostStart
    requires n'.cleanups == n.cleanups + [n.now + InitTimeout(w)]
    ensures CleanupComing(w, n')
  {
    assert n'.cleanups[|n.cleanups|] == n.now + InitTimeout(w);
  }

  lemma FireGuarded(w: World, n: Net, i: nat)
    requires Sound(w, n) && Guarded(w, n) && Enabled(w, n, FireCleanup(i))
    ensures Guarded(w, Apply(w, n, FireCleanup(i)))
  {
    hide S.Receive, H.After, Waiting, Proper, CleanupIgnored;
    var l := Letter(S.TryCleanup, 0, n.now);
    StillWaiting(n.mailbox, l, S.PostStart, w.created, w.created);
    StillWaiting(n.mailbox, l, S.TryCleanup, w.created, CleanupBy(w));
    var n' := Apply(w, n, FireCleanup(i));
    if j :| 0 <= j < |n.cleanups| && n.cleanups[j] <= CleanupBy(w) && i != j {
      assert n'.cleanups[if j < i then j else j - 1] == n.cleanups[j];
    }
  }

  lemma GuardedStep(w: World, n: Net, a: Action)
    requires Sound(w, n) && Timely(w, n) && StartsFirst(w, n) && Guarded(w, n) && Enabled(w, n, a)
    ensures Guarded(w, Apply(w, n, a))
  {
    hide S.Receive, HandleNext, Sound, Timely, Waiting, CleanupIgnored, StartsFirst;
    match a
    case Arrive(m, sender) => PostGuarded(w, n, m, sender);
    case Handle(env) => HandleGuarded(w, n, env);
    case FireCleanup(i) => FireGuarded(w, n, i);
    case FireTick(i) =>
      var t := n.tickers[i];
      PostGuarded(w, n.(tickers := n.tickers[i := t.(next := t.next + t.interval)]), S.CheckTtl, 0);
    case Begin(pid, found) =>
      var p := n.peers[pid];
      PostGuarded(w, n.(peers := n.peers[pid := p.(stage := Awaiting)]), S.RegisterConnection(p.conn.connectionId), pid);
    case _ =>
  }

  lemma {:induction false} AlwaysGuarded(w: World, actions: seq<Action>, n: Net)
    requires Execute(w, actions) == Some(n)
    ensures StartsFirst(w, n) && Guarded(w, n)
  {
    hide Sound, Apply, Enabled, Timely, Guarded, StartsFirst;
    if actions == [] {
      InitiallyGuarded(w);
    } else {
      var before := Execute(w, actions[..|actions| - 1]).value;
      AlwaysGuarded(w, actions[..|actions| - 1], before);
      AlwaysSound(w, actions[..|actions| - 1], before);
      AlwaysTimely(w, actions[..|actions| - 1], before);
      StartsFirstStep(w, before, actions[|actions| - 1]);
      GuardedStep(w, before, actions[|actions| - 1]);
    }
  }

  lemma InitiallyGuarded(w: World)
    ensures StartsFirst(w, Initial(w)) && Guarded(w, Initial(w))
  {
    assert Initial(w).mailbox[0] == Letter(S.PostStart, 0, w.created);
  }

  /** A running session is still within its first initialize timeout, or has its TTL timer, or
      ignored its cleanup message because it was shut down by then. */
  lemma RunningIsGuarded(w: World, actions: seq<Action>, n: Net)
    requires Execute(w, actions) == Some(n) && n.status == Running
    ensures || n.now <= w.created + InitTimeout(w) + 2 * w.latency
            || n.tickers != []
            || CleanupIgnored(w, n.log)
  {
    hide CleanupIgnored, StartsFirst;
    AlwaysGuarded(w, actions, n);
    AlwaysTimely(w, actions, n);
  }

  // ---- A session nobody initializes ----

  ghost predicate TimerNeedsInitialize(n: Net) {
    n.tickers != [] ==> n.machine.current != S.Uninitialized
  }

  lemma TimerNeedsInitializeStep(w: World, n: Net, a: Action)
    requires Sound(w, n) && TimerNeedsInitialize(n) && Enabled(w, n, a)
    ensures TimerNeedsInitialize(Apply(w, n, a))
  {
    hide S.Receive, HandleNext, Sound;
    if a.Handle? {
      hide IsRequest, Admitted;
      HandleFacts(w, n, a.env);
      SoundIsProper(w, n);
      TimerEffects(w.server, n.machine, ContextOf(n, a.env));
      var c := ContextOf(n, a.env);
      var (m, es) := S.Receive(w.server, n.machine, c);
      HandledByOne(w, n, a.env);
      if !NoTimer(es) {
        PerformOne(n.(machine := m, log := n.log + [c], mailbox := n.mailbox[1..]), es[0]);
      }
    }
  }

  lemma {:induction false} AlwaysTimerNeedsInitialize(w: World, actions: seq<Action>, n: Net)
    requires Execute(w, actions) == Some(n)
    ensures TimerNeedsInitialize(n)
  {
    hide Sound, Apply, Enabled;
    if actions != [] {
      hide TimerNeedsInitialize;
      var before := Execute(w, actions[..|actions| - 1]).value;
      AlwaysTimerNeedsInitialize(w, actions[..|actions| - 1], before);
      AlwaysSound(w, actions[..|actions| - 1], before);
      TimerNeedsInitializeStep(w, before, actions[|actions| - 1]);
    }
  }

  lemma IgnoringNeedsInitialize(w: World, n: Net)
    requires Sound(w, n) && CleanupIgnored(w, n.log)
    ensures n.machine.current != S.Uninitialized
  {
    hide IsRequest, Admitted;
    ShutdownIsLogged(w, n);
    var k :| 0 <= k < |n.log| && n.log[k].message == S.TryCleanup && H.SawShutdown(w.server, n.log[..k]);
    H.ShutdownNeedsInitialize(w.server, n.log[..k]);
    var i :| 0 <= i < k && IsRequest(n.log[..k][i], S.Initialize);
    assert IsRequest(n.log[i], S.Initialize);
  }

  /** A session still running and still uninitialized is at most the initialize timeout old, give
      or take the time its start-up and cleanup messages waited. */
  lemma UninitializedBound(w: World, actions: seq<Action>, n: Net)
    requires Execute(w, actions) == Some(n)
    requires n.status == Running && n.machine.current == S.Uninitialized
    ensures n.now <= w.created + InitTimeout(w) + 2 * w.latency
    ensures var age := n.now - w.created - 2 * w.latency;
            && (w.server.initializeTimeout > 0 ==> age <= w.server.initializeTimeout)
            && (w.server.initializeTimeout <= 0 && w.server.ttl > 0 ==> 10 * age <= w.server.ttl)
            && (w.server.initializeTimeout <= 0 && w.server.ttl <= 0 ==> age <= 30_000_000_000)
  {
    hide CleanupIgnored, Sound;
    RunningIsGuarded(w, actions, n);
    AlwaysTimerNeedsInitialize(w, actions, n);
    AlwaysSound(w, actions, n);
    if CleanupIgnored(w, n.log) {
      IgnoringNeedsInitialize(w, n);
    }
  }

  // ---- An idle session ----

  function Deadline(w: World, n: Net): int {
    n.machine.data.lastActivity + Timeout(w)
  }

  /** If the last tick of the TTL timer came after the session's deadline, its check is still waiting. */
  ghost predicate Watched(w: World, n: Net) {
    n.status == Running ==>
      forall i :: 0 <= i < |n.tickers| && n.tickers[i].next - n.tickers[i].interval > Deadline(w, n) ==>
        Waiting(n.mailbox, S.CheckTtl, Deadline(w, n) + 1, Deadline(w, n) + Timeout(w) / 2)
  }

  lemma PostWatched(w: World, n: Net, m: S.Message, sender: S.Pid)
    requires Watched(w, n)
    ensures Watched(w, Post(n, m, sender))
  {
    hide Waiting;
    StillWaiting(n.mailbox, Letter(m, sender, n.now), S.CheckTtl, Deadline(w, n) + 1, Deadline(w, n) + Timeout(w) / 2);
  }

  lemma TickWatched(w: World, n: Net, i: nat)
    requires Timely(w, n) && Watched(w, n) && Enabled(w, n, FireTick(i))
    ensures Watched(w, Apply(w, n, FireTick(i)))
  {
    hide Waiting;
    StillWaiting(n.mailbox, Letter(S.CheckTtl, 0, n.now), S.CheckTtl,
                 Deadline(w, n) + 1, Deadline(w, n) + Timeout(w) / 2);
  }

  lemma HandleWatched(w: World, n: Net, env: S.Env)
    requires Sound(w, n) && Timely(w, n) && Watched(w, n) && Enabled(w, n, Handle(env))
    ensures Watched(w, HandleNext(w, n, env))
  {
    hide S.Receive, H.After, Waiting, IsRequest, Admitted;
    HandleFacts(w, n, env);
    SoundIsProper(w, n);
    var c := ContextOf(n, env);
    var (m, es) := S.Receive(w.server, n.machine, c);
    TimerEffects(w.server, n.machine, c);
    H.StopStep(w.server, n.machine, c);
    var n' := HandleNext(w, n, env);
    if !NoTimer(es) {
      PerformOne(n.(machine := m, log := n.log + [c], mailbox := n.mailbox[1..]), es[0]);
    }
    StepActivity(w.server, n.machine, c);
    if n'.status == Running && Deadline(w, n') == Deadline(w, n) {
      var lo, hi := Deadline(w, n) + 1, Deadline(w, n) + Timeout(w) / 2;
      if Waiting(n.mailbox, S.CheckTtl, lo, hi) {
        WaitingBehind(n.mailbox, S.CheckTtl, lo, hi);
        assert !(c.message == S.CheckTtl && n.now >= lo);
      }
    }
  }

  lemma WatchedStep(w: World, n: Net, a: Action)
    requires Sound(w, n) && Timely(w, n) && Watched(w, n) && Enabled(w, n, a)
    ensures Watched(w, Apply(w, n, a))
  {
    hide S.Receive, HandleNext, Sound, Waiting;
    match a
    case Arrive(m, sender) => PostWatched(w, n, m, sender);
    case Handle(env) => HandleWatched(w, n, env);
    case FireCleanup(i) =>
      PostWatched(w, n.(cleanups := n.cleanups[..i] + n.cleanups[i + 1..]), S.TryCleanup, 0);
    case FireTick(i) => TickWatched(w, n, i);
    case Begin(pid, found) =>
      var p := n.peers[pid];
      PostWatched(w, n.(peers := n.peers[pid := p.(stage := Awaiting)]), S.RegisterConnection(p.conn.connectionId), pid);
    case _ =>
  }

  lemma {:induction false} AlwaysWatched(w: World, actions: seq<Action>, n: Net)
    requires Execute(w, actions) == Some(n)
    ensures Watched(w, n)
  {
    hide Sound, Apply, Enabled, Timely;
    if actions != [] {
      hide Watched;
      var before := Execute(w, actions[..|actions| - 1]).value;
      AlwaysWatched(w, actions[..|actions| - 1], before);
      AlwaysSound(w, actions[..|actions| - 1], before);
      AlwaysTimely(w, actions[..|actions| - 1], before);
      WatchedStep(w, before, actions[|actions| - 1]);
    }
  }

  /** A session still running while its TTL timer ticks was active lately. */
  lemma TickingBound(w: World, actions: seq<Action>, n: Net)
    requires Execute(w, actions) == Some(n)
    requires n.status == Running && n.tickers != []
    ensures n.now <= n.machine.data.lastActivity + Timeout(w) + Timeout(w) / 2 + w.latency
  {
    AlwaysTimely(w, actions, n);
    AlwaysWatched(w, actions, n);
    var t := n.tickers[0];
    assert n.now <= t.next && t.interval == Timeout(w) / 2;
  }

  /** The cleanup message was handled while the session was initialized. */
  ghost predicate CleanupArmed(w: World, log: seq<S.Context>) {
    exists k :: 0 <= k < |log| && log[k].message == S.TryCleanup && H.Phase(w.server, log[..k]) == S.Initialized
  }

  lemma ArmedStep(w: World, log: seq<S.Context>, c: S.Context)
    ensures CleanupArmed(w, log + [c]) <==>
            CleanupArmed(w, log) || (c.message == S.TryCleanup && H.Phase(w.server, log) == S.Initialized)
  {
    hide H.Phase;
    var all := log + [c];
    assert forall k | 0 <= k <= |log| :: all[..k] == log[..k];
    assert all[..|log|] == log && all[|log|] == c;
    if k :| 0 <= k < |log| && log[k].message == S.TryCleanup && H.Phase(w.server, log[..k]) == S.Initialized {
      assert all[k] == log[k];
    }
  }

  /** The TTL timer ticks only after that, and unless a handler error came it does. */
  ghost predicate TicksWhenArmed(w: World, n: Net) {
    && (n.tickers != [] ==> CleanupArmed(w, n.log))
    && (n.status == Running && CleanupArmed(w, n.log) ==> n.tickers != [])
  }

  /** Handling one letter leaves the timers that tick alone, or adds the first. */
  lemma HandleTickers(w: World, n: Net, env: S.Env)
    requires Sound(w, n) && Enabled(w, n, Handle(env))
    ensures var c := ContextOf(n, env);
            var n' := HandleNext(w, n, env);
            if c.message == S.TryCleanup && n.machine.current == S.Initialized && n'.status == Running then
              n'.tickers == n.tickers + [Ticker(n.now + Timeout(w) / 2, Timeout(w) / 2)]
            else n'.tickers == n.tickers
  {
    HandleFacts(w, n, env);
    SoundIsProper(w, n);
    HandledByOne(w, n, env);
    var c := ContextOf(n, env);
    var (m, es) := S.Receive(w.server, n.machine, c);
    TimerEffects(w.server, n.machine, c);
    hide S.Receive, H.After, HandleNext, NextPhase, Proper;
    if !NoTimer(es) {
      PerformOne(n.(machine := m, log := n.log + [c], mailbox := n.mailbox[1..]), es[0]);
    }
  }

  lemma PhaseIsLogged(w: World, n: Net)
    requires Sound(w, n)
    ensures n.machine.current == H.Phase(w.server, n.log)
  {
    H.PhaseByHistory(w.server, w.sessionId, w.created, n.log, |n.log|);
    assert n.log[..|n.log|] == n.log;
  }

  lemma TicksWhenArmedStep(w: World, n: Net, a: Action)
    requires Sound(w, n) && TicksWhenArmed(w, n) && Enabled(w, n, a)
    ensures TicksWhenArmed(w, Apply(w, n, a))
  {
    hide S.Receive, HandleNext, Sound, CleanupArmed, H.Phase;
    if a.Handle? {
      HandleFacts(w, n, a.env);
      HandleTickers(w, n, a.env);
      PhaseIsLogged(w, n);
      ArmedStep(w, n.log, ContextOf(n, a.env));
    }
  }

  lemma {:induction false} AlwaysTicksWhenArmed(w: World, actions: seq<Action>, n: Net)
    requires Execute(w, actions) == Some(n)
    ensures TicksWhenArmed(w, n)
  {
    hide Sound, Apply, Enabled;
    if actions != [] {
      hide TicksWhenArmed;
      var before := Execute(w, actions[..|actions| - 1]).value;
      AlwaysTicksWhenArmed(w, actions[..|actions| - 1], before);
      AlwaysSound(w, actions[..|actions| - 1], before);
      TicksWhenArmedStep(w, before, actions[|actions| - 1]);
    }
  }

  /** Once the cleanup message was handled by an initialized session, the session, if still running,
      initialized or shut down alike, was last active no longer ago than the session timeout and a
      half, plus the time a check waits. */
  lemma {:induction false} IdleBound(w: World, actions: seq<Action>, n: Net)
    requires Execute(w, actions) == Some(n)
    requires n.status == Running && CleanupArmed(w, n.log)
    ensures n.now <= n.machine.data.lastActivity + Timeout(w) + Timeout(w) / 2 + w.latency
    ensures w.server.ttl > 0 ==> 2 * (n.now - n.machine.data.lastActivity - w.latency) <= 3 * w.server.ttl
    ensures w.server.ttl <= 0 ==> n.now - n.machine.data.lastActivity - w.latency <= 450_000_000_000
  {
    AlwaysTicksWhenArmed(w, actions, n);
    TickingBound(w, actions, n);
  }

  // ---- Stops ----

  /** A halted session halted in handling the last message of its log. */
  ghost predicate StopLogged(w: World, n: Net) {
    n.status == Halted ==>
      n.log != [] && S.Stop in H.Effects(w.server, w.sessionId, w.created, n.log, |n.log| - 1)
  }

  lemma StopLoggedStep(w: World, n: Net, a: Action)
    requires Sound(w, n) && StopLogged(w, n) && Enabled(w, n, a)
    ensures StopLogged(w, Apply(w, n, a))
  {
    hide S.Receive, H.After, Proper, PerformAll;
    if a.Handle? {
      var c := ContextOf(n, a.env);
      var (m, es) := S.Receive(w.server, n.machine, c);
      var next := n.(machine := m, log := n.log + [c], mailbox := n.mailbox[1..]);
      PerformFrame(next, es);
      HaltedBy(next, es);
      assert (n.log + [c])[..|n.log|] == n.log;
    }
  }

  lemma {:induction false} HaltedBy(n: Net, es: seq<S.Effect>)
    requires n.status != Halted
    ensures PerformAll(n, es).status == Halted ==> S.Stop in es
    decreases |es|
  {
    if es != [] && es[0] != S.Stop {
      HaltedBy(Perform(n, es[0]), es[1..]);
    }
  }

  lemma {:induction false} AlwaysStopLogged(w: World, actions: seq<Action>, n: Net)
    requires Execute(w, actions) == Some(n)
    ensures StopLogged(w, n)
  {
    hide Sound, Apply, Enabled, StopLogged, H.Effects;
    if actions == [] {
      InitiallyRunning(w);
    } else {
      var before := Execute(w, actions[..|actions| - 1]).value;
      AlwaysStopLogged(w, actions[..|actions| - 1], before);
      AlwaysSound(w, actions[..|actions| - 1], before);
      StopLoggedStep(w, before, actions[|actions| - 1]);
    }
  }

  lemma InitiallyRunning(w: World)
    ensures StopLogged(w, Initial(w))
  {
  }

  /** The cleanup message does not come before the initialize timeout is over. */
  ghost predicate NotEarly(w: World, n: Net) {
    && (forall i :: 0 <= i < |n.cleanups| ==> n.cleanups[i] >= w.created + InitTimeout(w))
    && (forall i :: 0 <= i < |n.mailbox| && n.mailbox[i].message == S.TryCleanup ==>
          n.now >= w.created + InitTimeout(w))
    && (forall i :: 0 <= i < |n.log| && n.log[i].message == S.TryCleanup ==>
          n.log[i].env.now >= w.created + InitTimeout(w))
  }

  lemma HandleNotEarly(w: World, n: Net, env: S.Env)
    requires Sound(w, n) && NotEarly(w, n) && Enabled(w, n, Handle(env))
    ensures NotEarly(w, HandleNext(w, n, env))
  {
    HandleFacts(w, n, env);
    SoundIsProper(w, n);
    HandledByOne(w, n, env);
    var c := ContextOf(n, env);
    var (m, es) := S.Receive(w.server, n.machine, c);
    TimerEffects(w.server, n.machine, c);
    assert n.machine.data.initializeTimeout == InitTimeout(w) && w.created <= n.now;
    hide S.Receive, H.After, HandleNext, NextPhase, Proper, Sound;
    if !NoTimer(es) {
      PerformOne(n.(machine := m, log := n.log + [c], mailbox := n.mailbox[1..]), es[0]);
    }
  }

  lemma NotEarlyStep(w: World, n: Net, a: Action)
    requires Sound(w, n) && NotEarly(w, n) && Enabled(w, n, a)
    ensures NotEarly(w, Apply(w, n, a))
  {
    hide Sound, S.Receive, HandleNext;
    if a.Handle? {
      HandleNotEarly(w, n, a.env);
    }
  }

  lemma {:induction false} AlwaysNotEarly(w: World, actions: seq<Action>, n: Net)
    requires Execute(w, actions) == Some(n)
    ensures NotEarly(w, n)
  {
    hide Sound, Apply, Enabled;
    if actions != [] {
      hide NotEarly;
      var before := Execute(w, actions[..|actions| - 1]).value;
      AlwaysNotEarly(w, actions[..|actions| - 1], before);
      AlwaysSound(w, actions[..|actions| - 1], before);
      NotEarlyStep(w, before, actions[|actions| - 1]);
    }
  }

  /** As long as the configuration gives a client to initialize, or a tenth of the time to live, or
      half a minute if neither is configured. */
  predicate HadTimeToInitialize(w: World, now: int) {
    && (w.server.initializeTimeout > 0 ==> now - w.created >= w.server.initializeTimeout)
    && (w.server.initializeTimeout <= 0 && w.server.ttl > 0 ==> 10 * (now - w.created) > w.server.ttl - 10)
    && (w.server.initializeTimeout <= 0 && w.server.ttl <= 0 ==> now - w.created >= 30_000_000_000)
  }

  /** A session actor that stopped itself handled, last of all, a cleanup message that found no
      initialize request before it and came in due time, or a TTL check that found the configured
      time to live exceeded or a shutdown request processed. */
  lemma {:induction false} EveryStopIsJustified(w: World, actions: seq<Action>, n: Net)
    requires Execute(w, actions) == Some(n) && n.status == Halted
    ensures n.log != []
    ensures var k := |n.log| - 1;
            var c := n.log[k];
            var idle := c.env.now - H.After(w.server, w.sessionId, w.created, n.log[..k]).data.lastActivity;
            || (c.message == S.TryCleanup && !H.SawInitialize(n.log[..k]) && HadTimeToInitialize(w, c.env.now))
            || (c.message == S.CheckTtl && H.SawShutdown(w.server, n.log[..k]))
            || (c.message == S.CheckTtl &&
                (w.server.ttl > 0 ==> idle > w.server.ttl) && (w.server.ttl <= 0 ==> idle > 300_000_000_000))
  {
    hide H.After, H.SawInitialize, H.SawShutdown, S.Receive;
    AlwaysStopLogged(w, actions, n);
    AlwaysNotEarly(w, actions, n);
    H.StopsExactlyWhen(w.server, w.sessionId, w.created, n.log, |n.log| - 1);
  }
}
