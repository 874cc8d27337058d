/** Delivery over every interleaving: what the session routes to a connection is what the client
    sees, in order, and the endpoint comes first. */
module NetworkDelivery {
  import opened Wrappers
  import opened Rpc
  import opened Network
  import S = Session
  import C = Connection
  import opened SessionSteps
  import H = SessionHistory
  import opened NetworkTimers
  import opened NetworkDeadlines
  import opened SessionReplies
  import Dispatch

  /** The responses these effects send to `pid`. */
  function ToldBy(es: seq<S.Effect>, pid: S.Pid): seq<Response> {
    if es == [] then []
    else (if es[0].Tell? && es[0].to == pid then [es[0].response] else []) + ToldBy(es[1..], pid)
  }

  /** The responses the session has sent to `pid` in handling its log. */
  function Routed(w: World, log: seq<S.Context>, pid: S.Pid): seq<Response> {
    if log == [] then []
    else
      var k := |log| - 1;
      Routed(w, log[..k], pid) + ToldBy(H.Effects(w.server, w.sessionId, w.created, log, k), pid)
  }

  function Seen(e: C.ChannelEvent): seq<JsonMessage> {
    if e.MessageEvent? then [e.json] else []
  }

  /** The message events on a channel. */
  function Messages(channel: seq<C.ChannelEvent>): seq<JsonMessage> {
    if channel == [] then [] else Seen(channel[0]) + Messages(channel[1..])
  }

  function Json(rs: seq<Response>): seq<JsonMessage> {
    if rs == [] then [] else [ToJson(rs[0])] + Json(rs[1..])
  }

  lemma {:induction false} JsonAppend(a: seq<Response>, b: seq<Response>)
    ensures Json(a + b) == Json(a) + Json(b)
    decreases |a|
  {
    if a == [] {
      assert a + b == b;
    } else {
      assert (a + b)[1..] == a[1..] + b;
      JsonAppend(a[1..], b);
    }
  }

  lemma {:induction false} MessagesAppend(channel: seq<C.ChannelEvent>, e: C.ChannelEvent)
    ensures Messages(channel + [e]) == Messages(channel) + Seen(e)
    decreases |channel|
  {
    hide Seen;
    if channel == [] {
      assert channel + [e] == [e] && [e][1..] == [];
      assert Messages([e]) == Seen(e) + Messages([]);
    } else {
      assert (channel + [e])[1..] == channel[1..] + [e];
      MessagesAppend(channel[1..], e);
    }
  }

  // ---- Handling, seen by one peer ----

  lemma ToldNothing(p: Peer)
    ensures Told(p, []) == p
  {
    assert p.inbox + [] == p.inbox && p.late + [] == p.late;
  }

  lemma ToldBoth(p: Peer, stage: Stage, a: seq<Response>, b: seq<Response>)
    ensures Told(Told(p, a).(stage := stage), b) == Told(p, a + b).(stage := stage)
  {
    assert p.inbox + a + b == p.inbox + (a + b) && p.late + a + b == p.late + (a + b);
  }

  lemma PerformOnePeer(n: Net, e: S.Effect, pid: S.Pid)
    requires pid in n.peers
    ensures var n' := Perform(n, e);
            && n'.peers.Keys == n.peers.Keys
            && n'.peers[pid] ==
               Told(n.peers[pid], if e.Tell? && e.to == pid then [e.response] else []).(stage := n'.peers[pid].stage)
            && (n'.peers[pid].stage == n.peers[pid].stage ||
                (n.peers[pid].stage == Awaiting && n'.peers[pid].stage == Acked && S.Ack(pid) == e))
  {
    ToldNothing(n.peers[pid]);
  }

  lemma {:induction false} PerformPeer(n: Net, es: seq<S.Effect>, pid: S.Pid)
    requires pid in n.peers
    ensures var n' := PerformAll(n, es);
            && n'.peers.Keys == n.peers.Keys
            && n'.peers[pid] == Told(n.peers[pid], ToldBy(es, pid)).(stage := n'.peers[pid].stage)
            && (n'.peers[pid].stage == n.peers[pid].stage ||
                (n.peers[pid].stage == Awaiting && n'.peers[pid].stage == Acked && S.Ack(pid) in es))
    decreases |es|
  {
    if es == [] {
      ToldNothing(n.peers[pid]);
    } else {
      PerformOnePeer(n, es[0], pid);
      hide Perform, Told;
      var n1 := Perform(n, es[0]);
      PerformPeer(n1, es[1..], pid);
      assert es == [es[0]] + es[1..];
      var first := if es[0].Tell? && es[0].to == pid then [es[0].response] else [];
      ToldBoth(n.peers[pid], n1.peers[pid].stage, first, ToldBy(es[1..], pid));
    }
  }

  lemma {:induction false} PerformKeys(n: Net, es: seq<S.Effect>)
    ensures PerformAll(n, es).peers.Keys == n.peers.Keys
    decreases |es|
  {
    if es != [] {
      PerformKeys(Perform(n, es[0]), es[1..]);
    }
  }

  lemma {:induction false} NotTold(es: seq<S.Effect>, pid: S.Pid)
    requires forall e | e in es :: e.Tell? ==> e.to != pid
    ensures ToldBy(es, pid) == []
    decreases |es|
  {
    if es != [] {
      NotTold(es[1..], pid);
    }
  }

  /** The session tells only registered connections and acknowledges only a registration's sender. */
  lemma AddressedEffects(server: S.Server, m: S.Machine, c: S.Context)
    requires Proper(m)
    ensures forall e | e in S.Receive(server, m, c).1 ::
              && (e.Tell? ==> e.to in m.data.connections.Values)
              && (e.Ack? ==> c.message.RegisterConnection? && e.to == c.sender)
  {
    hide S.VerbOf, S.HandleFeature, S.HandleInitialize;
    if c.message.Wrapped? {
      FeatureEffects(server, c);
      H.InitializeCopiesId(m.data, c);
    }
  }

  lemma RoutedOne(w: World, log: seq<S.Context>, c: S.Context, pid: S.Pid)
    ensures Routed(w, log + [c], pid) ==
            Routed(w, log, pid) +
            ToldBy(S.Receive(w.server, H.After(w.server, w.sessionId, w.created, log), c).1, pid)
  {
    hide S.Receive, H.After;
    assert (log + [c])[..|log|] == log;
  }

  // ---- Who is known ----

  ghost predicate RegisteredBy(log: seq<S.Context>, pid: S.Pid) {
    exists i :: 0 <= i < |log| && log[i].message.RegisterConnection? && log[i].sender == pid
  }

  /** Registrants, and nobody else, have ever been told anything. */
  ghost predicate Known(w: World, n: Net) {
    && n.machine.data.connections.Values <= n.peers.Keys
    && (forall i :: 0 <= i < |n.mailbox| && n.mailbox[i].message.RegisterConnection? ==> n.mailbox[i].sender in n.peers)
    && (forall pid: S.Pid | pid !in n.peers :: Routed(w, n.log, pid) == [])
  }

  lemma KnownHandle(w: World, n: Net, env: S.Env)
    requires Sound(w, n) && Known(w, n) && Enabled(w, n, Handle(env))
    ensures Known(w, HandleNext(w, n, env))
  {
    HandleFacts(w, n, env);
    SoundIsProper(w, n);
    hide S.Receive, H.After, Routed, Proper;
    var c := ContextOf(n, env);
    var (m, es) := S.Receive(w.server, n.machine, c);
    StepConnections(w.server, n.machine, c);
    PerformKeys(n.(machine := m, log := n.log + [c], mailbox := n.mailbox[1..]), es);
    AddressedEffects(w.server, n.machine, c);
    forall pid: S.Pid | pid !in n.peers
      ensures Routed(w, n.log + [c], pid) == []
    {
      RoutedOne(w, n.log, c, pid);
      NotTold(es, pid);
    }
  }

  lemma KnownStep(w: World, n: Net, a: Action)
    requires Sound(w, n) && Known(w, n) && Enabled(w, n, a)
    ensures Known(w, Apply(w, n, a))
  {
    hide S.Receive, HandleNext, Routed, Sound;
    if a.Handle? {
      KnownHandle(w, n, a.env);
    }
  }

  lemma {:induction false} AlwaysKnown(w: World, actions: seq<Action>, n: Net)
    requires Execute(w, actions) == Some(n)
    ensures Known(w, n)
  {
    hide Sound, Apply, Enabled;
    if actions != [] {
      hide Known;
      var before := Execute(w, actions[..|actions| - 1]).value;
      AlwaysKnown(w, actions[..|actions| - 1], before);
      AlwaysSound(w, actions[..|actions| - 1], before);
      KnownStep(w, before, actions[|actions| - 1]);
    }
  }

  // ---- One peer ----

  predicate AllMessages(channel: seq<C.ChannelEvent>) {
    forall i :: 0 <= i < |channel| ==> channel[i].MessageEvent?
  }

  /** The endpoint, if asked for, exactly once and first; then nothing but messages. */
  predicate EndpointFirst(c: C.Conn) {
    if c.sendEndpoint then
      c.channel != [] && c.channel[0].Endpoint? && c.channel[0].url == c.url && AllMessages(c.channel[1..])
    else AllMessages(c.channel)
  }

  /** What a peer's channel looks like at each stage of its start-up. */
  predicate ChannelFits(p: Peer) {
    match p.stage
    case Live =>
      && EndpointFirst(p.conn) && |p.lost| <= 1 && (p.lost != [] ==> p.conn.status == C.Failed)
      && (p.conn.status == C.Open ==> p.late == [])
    case Refused => p.conn.channel == [C.Closed] && p.conn.status == C.Stopped && p.lost == []
    case _ => p.conn.channel == [] && p.conn.status == C.Open && p.lost == [] && p.late == []
  }

  /** Seen by the client, lost in the failure that ended the connection, queued, or too late. */
  ghost predicate Conserved(w: World, log: seq<S.Context>, pid: S.Pid, p: Peer) {
    Json(Routed(w, log, pid)) == Messages(p.conn.channel) + Json(p.lost) + Json(p.inbox) + Json(p.late)
  }

  ghost predicate PeerFine(w: World, n: Net, pid: S.Pid)
    requires pid in n.peers
  {
    && ChannelFits(n.peers[pid])
    && Conserved(w, n.log, pid, n.peers[pid])
    && (n.peers[pid].stage in {Acked, Live} ==> RegisteredBy(n.log, pid))
  }

  lemma RegisteredGrows(log: seq<S.Context>, c: S.Context, pid: S.Pid)
    ensures RegisteredBy(log, pid) ==> RegisteredBy(log + [c], pid)
    ensures c.message.RegisterConnection? && c.sender == pid ==> RegisteredBy(log + [c], pid)
  {
    var all := log + [c];
    assert all[|log|] == c;
    if i :| 0 <= i < |log| && log[i].message.RegisterConnection? && log[i].sender == pid {
      assert all[i] == log[i];
    }
  }

  /** Responses told go to the end of the mailbox, or come too late. */
  lemma TellingConserves(w: World, log: seq<S.Context>, c: S.Context, pid: S.Pid, p: Peer, told: seq<Response>)
    requires Conserved(w, log, pid, p) && (p.conn.status == C.Open ==> p.late == [])
    requires Routed(w, log + [c], pid) == Routed(w, log, pid) + told
    ensures Conserved(w, log + [c], pid, Told(p, told))
  {
    hide Routed, Messages;
    JsonAppend(Routed(w, log, pid), told);
    JsonAppend(p.inbox, told);
    JsonAppend(p.late, told);
    assert Json([]) == [];
    hide Json;
    var before := Messages(p.conn.channel) + Json(p.lost);
    if p.conn.status == C.Open {
      assert before + Json(p.inbox) + [] + Json(told) == before + (Json(p.inbox) + Json(told)) + [];
    } else {
      assert before + Json(p.inbox) + Json(p.late) + Json(told) ==
             before + Json(p.inbox) + (Json(p.late) + Json(told));
    }
  }

  lemma StageIsNoMatter(w: World, log: seq<S.Context>, pid: S.Pid, p: Peer, stage: Stage)
    requires Conserved(w, log, pid, p)
    ensures Conserved(w, log, pid, p.(stage := stage))
  {
    hide Routed, Json, Messages;
  }

  /** What handling one letter does to one peer. */
  lemma HandledPeer(w: World, n: Net, env: S.Env, pid: S.Pid)
    requires Sound(w, n) && Enabled(w, n, Handle(env)) && pid in n.peers
    ensures var c := ContextOf(n, env);
            var es := S.Receive(w.server, n.machine, c).1;
            var n' := HandleNext(w, n, env);
            && pid in n'.peers
            && n'.log == n.log + [c]
            && n'.peers[pid] == Told(n.peers[pid], ToldBy(es, pid)).(stage := n'.peers[pid].stage)
            && Routed(w, n'.log, pid) == Routed(w, n.log, pid) + ToldBy(es, pid)
            && (n'.peers[pid].stage == n.peers[pid].stage ||
                (n.peers[pid].stage == Awaiting && n'.peers[pid].stage == Acked &&
                 c.message.RegisterConnection? && c.sender == pid))
  {
    HandleFacts(w, n, env);
    SoundIsProper(w, n);
    var c := ContextOf(n, env);
    var (m, es) := S.Receive(w.server, n.machine, c);
    AddressedEffects(w.server, n.machine, c);
    hide S.Receive, H.After, Routed, Proper, PerformAll, ToldBy;
    PerformPeer(n.(machine := m, log := n.log + [c], mailbox := n.mailbox[1..]), es, pid);
    RoutedOne(w, n.log, c, pid);
  }

  lemma PeerHandle(w: World, n: Net, env: S.Env, pid: S.Pid)
    requires Sound(w, n) && Enabled(w, n, Handle(env)) && pid in n.peers && PeerFine(w, n, pid)
    ensures pid in HandleNext(w, n, env).peers && PeerFine(w, HandleNext(w, n, env), pid)
  {
    hide Sound, S.Receive, HandleNext, Routed, Conserved, EndpointFirst, RegisteredBy, ToldBy;
    HandledPeer(w, n, env, pid);
    var c := ContextOf(n, env);
    var told := ToldBy(S.Receive(w.server, n.machine, c).1, pid);
    TellingConserves(w, n.log, c, pid, n.peers[pid], told);
    StageIsNoMatter(w, n.log + [c], pid, Told(n.peers[pid], told), HandleNext(w, n, env).peers[pid].stage);
    RegisteredGrows(n.log, c, pid);
  }

  lemma JsonHead(rs: seq<Response>)
    requires rs != []
    ensures Json(rs) == [ToJson(rs[0])] + Json(rs[1..]) && Json([rs[0]]) == [ToJson(rs[0])] && Json([]) == []
  {
    assert [rs[0]][1..] == [] && [ToJson(rs[0])] + [] == [ToJson(rs[0])];
  }

  lemma DeliverForwards(c: C.Conn, r: Response, convertOk: bool, sendOk: bool)
    ensures C.React(c, C.Deliver(r, convertOk, sendOk)) == C.Forward(c, r, convertOk, sendOk)
  {
  }

  /** Forwarding the head of the mailbox moves it to the channel, or fails and loses it. */
  lemma ConsumeKeeps(w: World, log: seq<S.Context>, pid: S.Pid, p: Peer, convertOk: bool, sendOk: bool)
    requires p.stage == Live && p.conn.status == C.Open && p.inbox != []
    requires ChannelFits(p) && Conserved(w, log, pid, p)
    ensures var p' := ConsumeNext(p, convertOk, sendOk);
            ChannelFits(p') && Conserved(w, log, pid, p')
  {
    hide Routed, EndpointFirst, ToJson, Messages, Json, C.React;
    var r := p.inbox[0];
    DeliverForwards(p.conn, r, convertOk, sendOk);
    var e := C.MessageEvent(ToJson(r));
    MessagesAppend(p.conn.channel, e);
    EndpointStaysFirst(p.conn, e);
    JsonHead(p.inbox);
    assert p.lost == [] && p.late == [] && [] + [r] == [r];
    assert Messages(p.conn.channel) + Json([]) + Json(p.inbox) ==
           (Messages(p.conn.channel) + [ToJson(r)]) + Json([]) + Json(p.inbox[1..]);
  }

  lemma EndpointStaysFirst(c: C.Conn, e: C.ChannelEvent)
    requires EndpointFirst(c) && e.MessageEvent?
    ensures EndpointFirst(c.(channel := c.channel + [e]))
    ensures EndpointFirst(c.(status := C.Failed)) && EndpointFirst(c.(status := C.Stopped))
  {
    if c.sendEndpoint {
      assert (c.channel + [e])[1..] == c.channel[1..] + [e];
    }
  }

  lemma StartKeeps(w: World, log: seq<S.Context>, pid: S.Pid, p: Peer, reply: C.RegisterReply, endpointOk: bool)
    requires p.stage == Awaiting || p.stage == Acked
    requires ChannelFits(p) && Conserved(w, log, pid, p)
    ensures var p' := p.(conn := C.FinishStart(p.conn, reply, endpointOk),
                         stage := if reply == C.Verdict(true) then Live else Refused);
            ChannelFits(p') && Conserved(w, log, pid, p')
  {
    hide Routed;
    MessagesAppend([], C.Endpoint(p.conn.url, endpointOk));
    MessagesAppend([], C.Closed);
    assert [] + [C.Endpoint(p.conn.url, endpointOk)] == [C.Endpoint(p.conn.url, endpointOk)];
    assert [C.Endpoint(p.conn.url, endpointOk)][1..] == [];
    assert [] + [C.Closed] == [C.Closed];
  }

  lemma RefusalKeeps(w: World, log: seq<S.Context>, pid: S.Pid, p: Peer)
    requires p.stage == Fresh && ChannelFits(p) && Conserved(w, log, pid, p)
    ensures var p' := p.(conn := C.Refuse(p.conn), stage := Refused);
            ChannelFits(p') && Conserved(w, log, pid, p')
  {
    hide Routed;
    MessagesAppend([], C.Closed);
    assert [] + [C.Closed] == [C.Closed];
  }

  lemma PeerStep(w: World, n: Net, a: Action, pid: S.Pid)
    requires Sound(w, n) && Known(w, n) && Enabled(w, n, a)
    requires pid in n.peers ==> PeerFine(w, n, pid)
    ensures pid in Apply(w, n, a).peers ==> PeerFine(w, Apply(w, n, a), pid)
  {
    hide S.Receive, HandleNext, Routed, Sound, ConsumeNext, RegisteredBy;
    hide EndpointFirst, C.FinishStart, C.Refuse, C.Notice;
    if a.Handle? {
      HandleKeys(w, n, a.env);
      if pid in n.peers {
        PeerHandle(w, n, a.env, pid);
      }
    } else if pid in n.peers {
      ConnectionStep(w, n, a, pid);
    }
  }

  /** A connection's own action keeps its channel in shape and nothing gets lost. */
  lemma ConnectionStep(w: World, n: Net, a: Action, pid: S.Pid)
    requires Enabled(w, n, a) && !a.Handle? && pid in n.peers && PeerFine(w, n, pid)
    ensures pid in Apply(w, n, a).peers && PeerFine(w, Apply(w, n, a), pid)
  {
    hide Routed, ConsumeNext, EndpointFirst, C.FinishStart, C.Refuse, C.Notice, RegisteredBy, Json, Messages;
    var p := n.peers[pid];
    match a
    case Begin(q, found) =>
      if q == pid && !found {
        RefusalKeeps(w, n.log, pid, p);
      }
    case Resume(q, endpointOk) =>
      if q == pid {
        StartKeeps(w, n.log, pid, p, C.Verdict(true), endpointOk);
      }
    case TimeOut(q) =>
      if q == pid {
        StartKeeps(w, n.log, pid, p, C.NoReply, false);
      }
    case Consume(q, convertOk, sendOk) =>
      if q == pid {
        ConsumeKeeps(w, n.log, pid, p, convertOk, sendOk);
        ConsumeStage(p, convertOk, sendOk);
      }
    case Notify(q, actorId) =>
      if q == pid {
        NoticeKeeps(p, actorId);
      }
    case _ =>
  }

  lemma HandleKeys(w: World, n: Net, env: S.Env)
    requires n.mailbox != []
    ensures HandleNext(w, n, env).peers.Keys == n.peers.Keys
  {
    hide S.Receive;
    var c := ContextOf(n, env);
    var (m, es) := S.Receive(w.server, n.machine, c);
    PerformKeys(n.(machine := m, log := n.log + [c], mailbox := n.mailbox[1..]), es);
  }

  lemma ConsumeStage(p: Peer, convertOk: bool, sendOk: bool)
    requires p.inbox != []
    ensures ConsumeNext(p, convertOk, sendOk).stage == p.stage
  {
  }

  /** A termination notice changes no more than the connection's status. */
  lemma NoticeKeeps(p: Peer, actorId: string)
    requires p.stage == Live && p.conn.status == C.Open && ChannelFits(p)
    ensures ChannelFits(p.(conn := C.Notice(p.conn, actorId)))
    ensures C.Notice(p.conn, actorId).channel == p.conn.channel
  {
  }

  lemma {:induction false} AlwaysFine(w: World, actions: seq<Action>, n: Net, pid: S.Pid)
    requires Execute(w, actions) == Some(n) && pid in n.peers
    ensures PeerFine(w, n, pid)
  {
    hide Sound, Apply, Enabled, Known, PeerFine;
    if actions != [] {
      var before := Execute(w, actions[..|actions| - 1]).value;
      if pid in before.peers {
        AlwaysFine(w, actions[..|actions| - 1], before, pid);
      }
      AlwaysSound(w, actions[..|actions| - 1], before);
      AlwaysKnown(w, actions[..|actions| - 1], before);
      PeerStep(w, before, actions[|actions| - 1], pid);
    }
  }

  /** In every interleaving, for every connection, exactly the responses the session routed to it
      are, in order: the message events on its channel, the response on which it failed if it did,
      its mailbox, and what came after it had ended. While the connection is open these are the
      message events and the mailbox alone: nothing is lost, duplicated or reordered. */
  lemma NothingLost(w: World, actions: seq<Action>, n: Net, pid: S.Pid)
    requires Execute(w, actions) == Some(n) && pid in n.peers
    ensures var p := n.peers[pid];
            && Json(Routed(w, n.log, pid)) ==
               Messages(p.conn.channel) + Json(p.lost) + Json(p.inbox) + Json(p.late)
            && |p.lost| <= 1
            && (p.conn.status != C.Failed ==> p.lost == [])
            && (p.conn.status == C.Open ==> Json(Routed(w, n.log, pid)) == Messages(p.conn.channel) + Json(p.inbox))
  {
    hide Routed, Messages;
    AlwaysFine(w, actions, n, pid);
  }

  /** In every interleaving, a connection that sent anything was registered by the session first,
      sent its endpoint exactly once and before any message, and a connection that gave up
      registering closed its channel once and sent nothing. */
  lemma {:induction false} EndpointThenMessages(w: World, actions: seq<Action>, n: Net, pid: S.Pid)
    requires Execute(w, actions) == Some(n) && pid in n.peers && n.peers[pid].conn.channel != []
    ensures var p := n.peers[pid];
            || (p.conn.channel == [C.Closed] && p.conn.status == C.Stopped && p.stage == Refused)
            || (EndpointFirst(p.conn) && RegisteredBy(n.log, pid) && p.stage == Live)
  {
    AlwaysFine(w, actions, n, pid);
  }

  // ---- Replies to posted messages ----

  predicate IsCalled(n: Net, pid: S.Pid, id: string) {
    pid in n.peers && n.peers[pid].conn.connectionId == id
  }

  /** Whoever registers does so under the id of its own connection. */
  ghost predicate Genuine(n: Net) {
    && (forall i :: 0 <= i < |n.mailbox| && n.mailbox[i].message.RegisterConnection? ==>
          IsCalled(n, n.mailbox[i].sender, n.mailbox[i].message.connectionId))
    && (forall i :: 0 <= i < |n.log| && n.log[i].message.RegisterConnection? ==>
          IsCalled(n, n.log[i].sender, n.log[i].message.connectionId))
  }

  lemma NamesStay(w: World, n: Net, a: Action, pid: S.Pid, id: string)
    requires Sound(w, n) && Enabled(w, n, a) && IsCalled(n, pid, id)
    ensures IsCalled(Apply(w, n, a), pid, id)
  {
    hide Sound, S.Receive, HandleNext, Routed;
    if a.Handle? {
      HandledPeer(w, n, a.env, pid);
    }
  }

  lemma GenuineStep(w: World, n: Net, a: Action)
    requires Sound(w, n) && Genuine(n) && Enabled(w, n, a)
    ensures Genuine(Apply(w, n, a))
  {
    hide Sound, S.Receive, HandleNext, MayWait;
    var n' := Apply(w, n, a);
    forall pid, id | IsCalled(n, pid, id) ensures IsCalled(n', pid, id) {
      NamesStay(w, n, a, pid, id);
    }
    hide C.FinishStart, C.Refuse, C.Notice, C.Forward;
    if a.Handle? {
      HandleFacts(w, n, a.env);
    }
  }

  lemma {:induction false} AlwaysGenuine(w: World, actions: seq<Action>, n: Net)
    requires Execute(w, actions) == Some(n)
    ensures Genuine(n)
  {
    hide Sound, Apply, Enabled;
    if actions != [] {
      hide Genuine;
      var before := Execute(w, actions[..|actions| - 1]).value;
      AlwaysGenuine(w, actions[..|actions| - 1], before);
      AlwaysSound(w, actions[..|actions| - 1], before);
      GenuineStep(w, before, actions[|actions| - 1]);
    }
  }

  /** A message posted for a session names the session's default connection for its reply. In every
      interleaving the reply is told to the connection that last registered under that name, and
      that is one called so; it is dropped exactly when none had registered. */
  lemma {:induction false} PostedRepliesReachDefault(w: World, actions: seq<Action>, n: Net, i: nat)
    requires Execute(w, actions) == Some(n) && i < |n.log| && n.log[i].message.Wrapped?
    requires !n.log[i].message.isAsk && n.log[i].message.respondTo == C.DefaultConnectionName(w.sessionId)
    requires H.FateOf(w.server, H.Phase(w.server, n.log[..i]), n.log[i]) == H.Replied
    ensures var es := H.Effects(w.server, w.sessionId, w.created, n.log, i);
            var name := C.DefaultConnectionName(w.sessionId);
            && es != []
            && (if exists k: nat :: k < i && H.RegistersAt(w.server, n.log, k, name) then
                  es[|es| - 1].Tell? && IsCalled(n, es[|es| - 1].to, name) &&
                  exists k: nat :: H.LastRegistration(w.server, n.log, i, k, name) && es[|es| - 1].to == n.log[k].sender
                else es[|es| - 1].Dropped?)
  {
    hide H.Effects, H.After, H.Phase, H.FateOf, H.AnsweredByCustom, Execute;
    var name := C.DefaultConnectionName(w.sessionId);
    H.RequestAccounting(w.server, w.sessionId, w.created, n.log, i);
    H.ConnectionsByHistory(w.server, w.sessionId, w.created, n.log, i, name);
    AlwaysGenuine(w, actions, n);
  }

  // ---- Start-up gets through ----

  lemma PerformOneAck(n: Net, pid: S.Pid)
    requires OpenAt(n, pid, Awaiting)
    ensures OpenAt(PerformAll(n, [S.Ack(pid)]), pid, Acked)
  {
    PerformOne(n, S.Ack(pid));
  }

  lemma HandledRegistration(w: World, n: Net, env: S.Env)
    requires Sound(w, n) && Enabled(w, n, Handle(env)) && n.machine.current != S.Shutdown
    requires n.mailbox[0].message.RegisterConnection? && OpenAt(n, n.mailbox[0].sender, Awaiting)
    ensures var pid, n' := n.mailbox[0].sender, HandleNext(w, n, env);
            && OpenAt(n', pid, Acked) && n'.peers[pid].conn == n.peers[pid].conn
            && n'.machine.data.connections == n.machine.data.connections[n.mailbox[0].message.connectionId := pid]
  {
    var pid, c := n.mailbox[0].sender, ContextOf(n, env);
    SoundIsProper(w, n);
    RegistrationStep(w.server, n.machine, c);
    HandledPeer(w, n, env, pid);
    hide S.Receive, Sound, PerformAll, Routed, ToldBy, H.After;
    HandleFacts(w, n, env);
    var m := S.Receive(w.server, n.machine, c).0;
    PerformOneAck(n.(machine := m, log := n.log + [c], mailbox := n.mailbox[1..]), pid);
  }

  lemma ResumedIsLive(w: World, n: Net, pid: S.Pid, ok: bool)
    requires OpenAt(n, pid, Acked) && n.peers[pid].conn.channel == []
    ensures Enabled(w, n, Resume(pid, ok))
    ensures var p, conn := Apply(w, n, Resume(pid, ok)).peers[pid], n.peers[pid].conn;
            p.stage == Live &&
            p.conn == conn.(channel := if conn.sendEndpoint then [C.Endpoint(conn.url, ok)] else [])
  {
    C.ReactsTo(n.peers[pid].conn, C.PostStart(true, C.Verdict(true), ok));
    assert [] + [C.Endpoint(n.peers[pid].conn.url, ok)] == [C.Endpoint(n.peers[pid].conn.url, ok)];
  }

  /** A connection whose registration the session handles before it is shut down, and before the
      connection gives up, can finish its start-up; it is then registered under its name, and has
      sent its endpoint if it was to. */
  lemma {:induction false} RegistrationGoesThrough(w: World, actions: seq<Action>, n: Net, env: S.Env, ok: bool)
    requires Execute(w, actions) == Some(n) && Enabled(w, n, Handle(env))
    requires n.mailbox[0].message.RegisterConnection? && OpenAt(n, n.mailbox[0].sender, Awaiting)
    requires !H.SawShutdown(w.server, n.log)
    ensures var pid := n.mailbox[0].sender;
            var n1 := Apply(w, n, Handle(env));
            && Enabled(w, n1, Resume(pid, ok))
            && n1.machine.data.connections == n.machine.data.connections[n.peers[pid].conn.connectionId := pid]
            && var p, conn := Apply(w, n1, Resume(pid, ok)).peers[pid], n.peers[pid].conn;
               p.stage == Live && conn.status == C.Open &&
               p.conn == conn.(channel := if conn.sendEndpoint then [C.Endpoint(conn.url, ok)] else [])
  {
    hide H.SawShutdown, Sound, Execute, Conserved, HandleNext, C.React;
    var pid := n.mailbox[0].sender;
    AlwaysSound(w, actions, n);
    AlwaysGenuine(w, actions, n);
    AlwaysFine(w, actions, n, pid);
    ShutdownIsLogged(w, n);
    HandledRegistration(w, n, env);
    ResumedIsLive(w, HandleNext(w, n, env), pid, ok);
  }
}
