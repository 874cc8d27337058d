/** What runs can come to: connections come up, what was routed to them gets through, and a connection
    may give up. Invariants say what never goes wrong; these say that something happens at all. */
module NetworkReach {
  import opened Wrappers
  import opened Rpc
  import opened Network
  import S = Session
  import C = Connection
  import H = SessionHistory
  import opened NetworkTimers
  import opened NetworkDelivery

  /** In the run `actions + more`, connection `pid` is live in `n'`. */
  ghost predicate LiveAfter(w: World, actions: seq<Action>, more: seq<Action>, n': Net, pid: S.Pid) {
    Execute(w, actions + more) == Some(n') && OpenAt(n', pid, Live)
  }

  lemma Spawned(w: World, n: Net, pid: S.Pid, conn: C.Conn)
    requires pid !in n.peers && conn.status == C.Open && conn.channel == []
    ensures Enabled(w, n, Spawn(pid, conn))
    ensures var n1 := Apply(w, n, Spawn(pid, conn));
            OpenAt(n1, pid, Fresh) && n1.peers[pid].conn == conn && n1 == n.(peers := n1.peers)
  {
  }

  lemma Begun(w: World, n: Net, pid: S.Pid)
    requires OpenAt(n, pid, Fresh) && n.status == Running
    ensures Enabled(w, n, Begin(pid, true))
    ensures var n1 := Apply(w, n, Begin(pid, true));
            && OpenAt(n1, pid, Awaiting) && n1.peers[pid].conn == n.peers[pid].conn
            && n1.mailbox == n.mailbox + [Letter(S.RegisterConnection(n.peers[pid].conn.connectionId), pid, n.now)]
            && n1.status == Running && n1.now == n.now && n1.log == n.log && n1.machine == n.machine
  {
  }

  /** With a running session that is not shut down and has nothing else to do, a new connection comes
      up: registered under its name, open, its endpoint sent if asked for, and nothing else. */
  lemma {:induction false} ConnectionComesUp(
    w: World, actions: seq<Action>, n: Net, pid: S.Pid, conn: C.Conn, env: S.Env, ok: bool)
    requires Execute(w, actions) == Some(n) && n.status == Running && n.mailbox == [] && !H.SawShutdown(w.server, n.log)
    requires pid !in n.peers && conn.status == C.Open && conn.channel == [] && env.now == n.now
    ensures exists more, n' :: LiveAfter(w, actions, more, n', pid) &&
              n'.machine.data.connections == n.machine.data.connections[conn.connectionId := pid] &&
              n'.peers[pid].conn.channel == if conn.sendEndpoint then [C.Endpoint(conn.url, ok)] else []
  {
    hide H.SawShutdown, Execute, HandleNext, S.Receive, MayWait;
    Spawned(w, n, pid, conn);
    Extend(w, actions, n, Spawn(pid, conn));
    var a1, n1 := actions + [Spawn(pid, conn)], Apply(w, n, Spawn(pid, conn));
    Begun(w, n1, pid);
    Extend(w, a1, n1, Begin(pid, true));
    var a2, n2 := a1 + [Begin(pid, true)], Apply(w, n1, Begin(pid, true));
    RegistrationGoesThrough(w, a2, n2, env, ok);
    Extend(w, a2, n2, Handle(env));
    var a3, n3 := a2 + [Handle(env)], Apply(w, n2, Handle(env));
    Extend(w, a3, n3, Resume(pid, ok));
    var n4 := Apply(w, n3, Resume(pid, ok));
    var more := [Spawn(pid, conn), Begin(pid, true), Handle(env), Resume(pid, ok)];
    assert a3 + [Resume(pid, ok)] == actions + more;
    assert n4.machine == n3.machine;
    assert LiveAfter(w, actions, more, n4, pid);
  }

  /** The client of a live connection sees the next response. */
  lemma Forwarded(w: World, n: Net, pid: S.Pid)
    requires OpenAt(n, pid, Live) && n.peers[pid].inbox != []
    ensures Enabled(w, n, Consume(pid, true, true))
    ensures var n' := Apply(w, n, Consume(pid, true, true));
            && OpenAt(n', pid, Live)
            && n'.peers[pid].inbox == n.peers[pid].inbox[1..]
            && n'.peers[pid].conn.channel == n.peers[pid].conn.channel + [C.MessageEvent(ToJson(n.peers[pid].inbox[0]))]
            && n'.log == n.log
  {
  }

  /** From every reachable state, an open live connection can bring all the session has routed to it
      to its client, in order, one message event for each. */
  lemma {:induction false} AllGetsThrough(w: World, actions: seq<Action>, n: Net, pid: S.Pid)
    requires Execute(w, actions) == Some(n) && OpenAt(n, pid, Live)
    ensures exists more, n' :: LiveAfter(w, actions, more, n', pid) && n'.log == n.log &&
              Messages(n'.peers[pid].conn.channel) == Json(Routed(w, n.log, pid))
    decreases |n.peers[pid].inbox|
  {
    hide Apply, Enabled, Execute, Routed, Messages, Json;
    if n.peers[pid].inbox == [] {
      NothingLost(w, actions, n, pid);
      JsonOfNothing();
      assert actions + [] == actions;
      assert LiveAfter(w, actions, [], n, pid);
    } else {
      var a := Consume(pid, true, true);
      Forwarded(w, n, pid);
      Extend(w, actions, n, a);
      AllGetsThrough(w, actions + [a], Apply(w, n, a), pid);
      var more, n' :| LiveAfter(w, actions + [a], more, n', pid) && n'.log == n.log &&
        Messages(n'.peers[pid].conn.channel) == Json(Routed(w, n.log, pid));
      assert actions + [a] + more == actions + ([a] + more);
      assert LiveAfter(w, actions, [a] + more, n', pid);
    }
  }

  lemma JsonOfNothing()
    ensures Json([]) == []
  {
  }

  /** A connection that finds no session, or waits for its acknowledgement too long, closes its
      channel and stops. */
  lemma GivesUp(w: World, n: Net, pid: S.Pid)
    ensures OpenAt(n, pid, Fresh) ==>
              Enabled(w, n, Begin(pid, false)) &&
              var p := Apply(w, n, Begin(pid, false)).peers[pid];
              p.conn == n.peers[pid].conn.(channel := n.peers[pid].conn.channel + [C.Closed], status := C.Stopped)
    ensures OpenAt(n, pid, Awaiting) || OpenAt(n, pid, Acked) ==>
              Enabled(w, n, TimeOut(pid)) &&
              var p := Apply(w, n, TimeOut(pid)).peers[pid];
              p.conn == n.peers[pid].conn.(channel := n.peers[pid].conn.channel + [C.Closed], status := C.Stopped)
  {
  }

  /** A message may wait as long as the latency allows, and no longer. */
  lemma StartMayWait(w: World, until: int)
    ensures Enabled(w, Initial(w), Wait(until)) <==> w.created < until <= w.created + w.latency
  {
    assert Initial(w).mailbox[0].arrival == w.created;
  }
}
