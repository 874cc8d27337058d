/** One session actor, any number of connection actors, FIFO mailboxes, integer time and the two
    timers, as a transition system. `World` fixes a run's constants; `latency` bounds how long a
    message waits in the running session's mailbox. */
module Network {
  import opened Wrappers
  import opened Rpc
  import S = Session
  import H = SessionHistory
  import C = Connection

  datatype World = World(server: S.Server, sessionId: string, created: int, latency: nat)

  datatype Letter = Letter(message: S.Message, sender: S.Pid, arrival: int)

  /** A periodic timer: the time of its next tick, and its interval. */
  datatype Ticker = Ticker(next: int, interval: int)

  /** How far a connection's start-up has come: not begun, registration sent, acknowledged,
      finished, or given up. */
  datatype Stage = Fresh | Awaiting | Acked | Live | Refused

  /** `inbox` is the connection's mailbox, which is no longer read once it is not open; `lost` the
      response on which it failed, if it did; `late` what it was told after that or after it stopped,
      which the actor library discards. */
  datatype Peer = Peer(
    conn: C.Conn, stage: Stage, inbox: seq<Response>, lost: seq<Response>, late: seq<Response>)

  /** `Supervised` is a session actor handed to its supervisor by a handler error. */
  datatype Status = Running | Halted | Supervised

  /** `log` is history: the messages the session has handled, with what they met. */
  datatype Net = Net(
    now: int,
    status: Status,
    machine: S.Machine,
    log: seq<S.Context>,
    mailbox: seq<Letter>,
    cleanups: seq<int>,
    tickers: seq<Ticker>,
    peers: map<S.Pid, Peer>)

  datatype Action =
    | Arrive(message: S.Message, sender: S.Pid)
    | Handle(env: S.Env)
    | Wait(until: int)
    | FireCleanup(i: nat)
    | FireTick(i: nat)
    | Spawn(pid: S.Pid, conn: C.Conn)
    | Begin(pid: S.Pid, found: bool)
    | Resume(pid: S.Pid, endpointOk: bool)
    | TimeOut(pid: S.Pid)
    | Consume(pid: S.Pid, convertOk: bool, sendOk: bool)
    | Notify(pid: S.Pid, actorId: string)

  function Initial(w: World): Net {
    Net(w.created, Running, S.NewMachine(w.server, w.sessionId, w.created), [],
        [Letter(S.PostStart, 0, w.created)], [], [], map[])
  }

  // ---- Effects ----

  /** Put a message into the session's mailbox; a stopped actor gets none. */
  function Post(n: Net, m: S.Message, sender: S.Pid): Net {
    if n.status == Running then n.(mailbox := n.mailbox + [Letter(m, sender, n.now)]) else n
  }

  function Told(p: Peer, rs: seq<Response>): Peer {
    if p.conn.status == C.Open then p.(inbox := p.inbox + rs) else p.(late := p.late + rs)
  }

  function Perform(n: Net, e: S.Effect): Net {
    match e
    case ScheduleOnce(delay) => n.(cleanups := n.cleanups + [n.now + delay])
    case SchedulePeriodic(interval) => n.(tickers := n.tickers + [Ticker(n.now + interval, interval)])
    case Stop => n.(status := Halted)
    case Raise => n.(status := Supervised)
    case Ack(pid) =>
      if pid in n.peers && n.peers[pid].stage == Awaiting
      then n.(peers := n.peers[pid := n.peers[pid].(stage := Acked)]) else n
    case Tell(pid, r) =>
      if pid in n.peers then n.(peers := n.peers[pid := Told(n.peers[pid], [r])]) else n
    case _ => n
  }

  function PerformAll(n: Net, es: seq<S.Effect>): Net
    decreases |es|
  {
    if es == [] then n else PerformAll(Perform(n, es[0]), es[1..])
  }

  // ---- Actions ----

  predicate OpenAt(n: Net, pid: S.Pid, stage: Stage) {
    pid in n.peers && n.peers[pid].stage == stage && n.peers[pid].conn.status == C.Open
  }

  /** Time may pass up to the next timer, and no further than a waiting message may wait. */
  predicate MayWait(w: World, n: Net, until: int) {
    && n.now < until
    && (forall i :: 0 <= i < |n.cleanups| ==> until <= n.cleanups[i])
    && (forall i :: 0 <= i < |n.tickers| ==> until <= n.tickers[i].next)
    && (n.status == Running ==> forall i :: 0 <= i < |n.mailbox| ==> until <= n.mailbox[i].arrival + w.latency)
  }

  predicate Enabled(w: World, n: Net, a: Action) {
    match a
    case Arrive(m, _) => m.Wrapped? || m.Foreign?
    case Handle(env) => n.status == Running && n.mailbox != [] && env.now == n.now
    case Wait(until) => MayWait(w, n, until)
    case FireCleanup(i) => i < |n.cleanups| && n.cleanups[i] == n.now
    case FireTick(i) => i < |n.tickers| && n.tickers[i].next == n.now
    case Spawn(pid, conn) => pid !in n.peers && conn.status == C.Open && conn.channel == []
    case Begin(pid, _) => OpenAt(n, pid, Fresh)
    case Resume(pid, _) => OpenAt(n, pid, Acked)
    case TimeOut(pid) => OpenAt(n, pid, Awaiting) || OpenAt(n, pid, Acked)
    case Consume(pid, _, _) => OpenAt(n, pid, Live) && n.peers[pid].inbox != []
    case Notify(pid, _) => OpenAt(n, pid, Live)
  }

  function ContextOf(n: Net, env: S.Env): S.Context
    requires n.mailbox != []
  {
    S.Context(n.mailbox[0].message, n.mailbox[0].sender, env)
  }

  function HandleNext(w: World, n: Net, env: S.Env): Net
    requires n.mailbox != []
  {
    var c := ContextOf(n, env);
    var (m, es) := S.Receive(w.server, n.machine, c);
    PerformAll(n.(machine := m, log := n.log + [c], mailbox := n.mailbox[1..]), es)
  }

  function ConsumeNext(p: Peer, convertOk: bool, sendOk: bool): Peer
    requires p.inbox != []
  {
    var r := p.inbox[0];
    Peer(C.React(p.conn, C.Deliver(r, convertOk, sendOk)), p.stage, p.inbox[1..],
         if convertOk && sendOk then p.lost else p.lost + [r], p.late)
  }

  function Apply(w: World, n: Net, a: Action): Net
    requires Enabled(w, n, a)
  {
    match a
    case Arrive(m, sender) => Post(n, m, sender)
    case Handle(env) => HandleNext(w, n, env)
    case Wait(until) => n.(now := until)
    case FireCleanup(i) => Post(n.(cleanups := n.cleanups[..i] + n.cleanups[i + 1..]), S.TryCleanup, 0)
    case FireTick(i) =>
      var t := n.tickers[i];
      Post(n.(tickers := n.tickers[i := t.(next := t.next + t.interval)]), S.CheckTtl, 0)
    case Spawn(pid, conn) => n.(peers := n.peers[pid := Peer(conn, Fresh, [], [], [])])
    case Begin(pid, found) =>
      var p := n.peers[pid];
      if found then
        Post(n.(peers := n.peers[pid := p.(stage := Awaiting)]), S.RegisterConnection(p.conn.connectionId), pid)
      else n.(peers := n.peers[pid := p.(conn := C.React(p.conn, C.PostStart(false, C.NoReply, false)), stage := Refused)])
    case Resume(pid, endpointOk) =>
      var p := n.peers[pid];
      n.(peers := n.peers[pid := p.(conn := C.React(p.conn, C.PostStart(true, C.Verdict(true), endpointOk)), stage := Live)])
    case TimeOut(pid) =>
      var p := n.peers[pid];
      n.(peers := n.peers[pid := p.(conn := C.React(p.conn, C.PostStart(true, C.NoReply, false)), stage := Refused)])
    case Consume(pid, convertOk, sendOk) =>
      n.(peers := n.peers[pid := ConsumeNext(n.peers[pid], convertOk, sendOk)])
    case Notify(pid, actorId) =>
      var p := n.peers[pid];
      n.(peers := n.peers[pid := p.(conn := C.React(p.conn, C.Terminated(actorId)))])
  }

  /** The state a sequence of actions leads to, if each is enabled where it happens. */
  function Execute(w: World, actions: seq<Action>): Option<Net> {
    if actions == [] then Some(Initial(w))
    else
      var last := actions[|actions| - 1];
      match Execute(w, actions[..|actions| - 1])
      case Some(n) => if Enabled(w, n, last) then Some(Apply(w, n, last)) else None
      case None => None
  }

  lemma Extend(w: World, actions: seq<Action>, n: Net, a: Action)
    requires Execute(w, actions) == Some(n) && Enabled(w, n, a)
    ensures Execute(w, actions + [a]) == Some(Apply(w, n, a))
  {
    hide Apply, Enabled;
    assert (actions + [a])[..|actions|] == actions;
  }
}
