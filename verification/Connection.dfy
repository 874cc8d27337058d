/** The client connection actor: it registers with its session, announces the message endpoint,
    and forwards responses to a one-way channel. */
module Connection {
  import opened Wrappers
  import opened Rpc

  /** What the client sees on the channel; a failed endpoint send is still an attempt. */
  datatype ChannelEvent = Endpoint(url: string, delivered: bool) | MessageEvent(json: JsonMessage) | Closed

  /** `Failed` is an actor handed to its supervisor by an error. */
  datatype Status = Open | Stopped | Failed

  datatype Conn = Conn(
    sessionId: string,
    connectionId: string,
    sendEndpoint: bool,
    url: string,
    status: Status,
    channel: seq<ChannelEvent>)

  datatype Config = Config(protocolVersion: string, mcpPath: string, messagePath: string)

  /** The reply to the registration request: none in time, one of another type, or a verdict. */
  datatype RegisterReply = NoReply | OtherType | Verdict(success: bool)

  datatype Message =
    | PostStart(found: bool, reply: RegisterReply, endpointOk: bool)
    | Deliver(response: Response, convertOk: bool, sendOk: bool)
    | Terminated(actorId: string)
    | Foreign

  const VERSION_2025 := "2025-03-26"

  function EndpointUrl(cfg: Config, basePath: string, sessionId: string): string {
    basePath + (if cfg.protocolVersion == VERSION_2025 then cfg.mcpPath else cfg.messagePath) +
    "?sessionId=" + sessionId
  }

  function SessionActorName(sessionId: string): string {
    sessionId + "-session"
  }

  const DEFAULT_SUFFIX := "-channels-default"
  const UUID_SUFFIX := "-conn-"

  /** The name of a session's SSE connection, also the address that posted messages name for replies. */
  function DefaultConnectionName(sessionId: string): string {
    sessionId + DEFAULT_SUFFIX
  }

  function ConnectionName(sessionId: string, default: bool, uuid: string): string {
    if default then DefaultConnectionName(sessionId) else uuid + UUID_SUFFIX
  }

  /** Connections share a name only as default connections of one session or under one uuid. */
  lemma ConnectionNamesAreDistinct(s: string, default: bool, u: string, s': string, default': bool, u': string)
    ensures ConnectionName(s, default, u) == ConnectionName(s', default', u') <==>
            default == default' && (if default then s == s' else u == u')
  {
    var name, name' := ConnectionName(s, default, u), ConnectionName(s', default', u');
    assert name[|name| - 1] == (if default then 't' else '-');
    assert name'[|name'| - 1] == (if default' then 't' else '-');
    assert DefaultConnectionName(s)[..|s|] == s && DefaultConnectionName(s')[..|s'|] == s';
    assert (u + UUID_SUFFIX)[..|u|] == u && (u' + UUID_SUFFIX)[..|u'|] == u';
  }

  /** Close the channel and stop, before anything else was sent. */
  function Refuse(c: Conn): Conn {
    c.(channel := c.channel + [Closed], status := Stopped)
  }

  /** The rest of start-up once the registration call has returned. */
  function FinishStart(c: Conn, reply: RegisterReply, endpointOk: bool): Conn {
    if reply == Verdict(true) then
      if c.sendEndpoint then c.(channel := c.channel + [Endpoint(c.url, endpointOk)]) else c
    else Refuse(c)
  }

  function Forward(c: Conn, r: Response, convertOk: bool, sendOk: bool): Conn {
    if convertOk && sendOk then c.(channel := c.channel + [MessageEvent(ToJson(r))])
    else c.(status := Failed)
  }

  function Notice(c: Conn, actorId: string): Conn {
    if actorId == SessionActorName(c.sessionId) then c.(status := Stopped) else c
  }

  function React(c: Conn, m: Message): Conn {
    match m
    case PostStart(found, reply, endpointOk) => if found then FinishStart(c, reply, endpointOk) else Refuse(c)
    case Deliver(r, convertOk, sendOk) => Forward(c, r, convertOk, sendOk)
    case Terminated(actorId) => Notice(c, actorId)
    case Foreign => c
  }

  /** What each message does to the channel and the actor. A response that converts and is sent is
      one message event with its id and body; one that is not sends nothing and fails. Start-up
      without a session or a positive reply closes the channel and stops; else the endpoint is sent,
      once, if it is asked for. The notice that the session's own actor ended stops the connection.
      Nothing else has an effect. */
  lemma ReactsTo(c: Conn, m: Message)
    ensures var c' := React(c, m);
            match m
            case Deliver(r, convertOk, sendOk) =>
              if convertOk && sendOk then
                && c' == c.(channel := c'.channel)
                && |c'.channel| == |c.channel| + 1 && c.channel <= c'.channel && c'.channel[|c.channel|].MessageEvent?
                && var json := c'.channel[|c.channel|].json;
                   && (r.id.IntId? ==> json.id == Number(r.id.i as real))
                   && (r.id.StringId? ==> json.id == Text(r.id.s))
                   && (r.id.NullId? || r.id.Unset? ==> json.id == Nil)
                   && json.body == if r.body == ResultJson("") then ResultJson("{}") else r.body
              else c' == c.(status := Failed)
            case PostStart(found, reply, endpointOk) =>
              if !found || reply.NoReply? || reply.OtherType? || !reply.success then
                c' == c.(channel := c.channel + [Closed], status := Stopped)
              else if c.sendEndpoint then c' == c.(channel := c.channel + [Endpoint(c.url, endpointOk)])
              else c' == c
            case Terminated(actorId) =>
              if actorId == c.sessionId + "-session" then c' == c.(status := Stopped) else c' == c
            case Foreign => c' == c
  {
  }

  class ClientConnectionActor {
    const cfg: Config
    const sessionId: string
    const sendEndpoint: bool
    const defaultConnection: bool
    const basePath: string
    var connectionId: string
    var status: Status
    var channel: seq<ChannelEvent>

    constructor (cfg: Config, sessionId: string, sendEndpoint: bool, defaultConnection: bool, basePath: string)
      ensures this.cfg == cfg && this.basePath == basePath && this.defaultConnection == defaultConnection
      ensures View() == Conn(sessionId, "", sendEndpoint, EndpointUrl(cfg, basePath, sessionId), Open, [])
      ensures cfg.protocolVersion == "2025-03-26" ==>
        View().url == basePath + cfg.mcpPath + "?sessionId=" + sessionId
      ensures cfg.protocolVersion != "2025-03-26" ==>
        View().url == basePath + cfg.messagePath + "?sessionId=" + sessionId
    {
      this.cfg := cfg;
      this.sessionId := sessionId;
      this.sendEndpoint := sendEndpoint;
      this.defaultConnection := defaultConnection;
      this.basePath := basePath;
      connectionId := "";
      status := Open;
      channel := [];
    }

    ghost function View(): Conn
      reads this
    {
      Conn(sessionId, connectionId, sendEndpoint, EndpointUrl(cfg, basePath, sessionId), status, channel)
    }

    method PreStart(uuid: string)
      modifies this
      ensures View() == old(View()).(connectionId := ConnectionName(sessionId, defaultConnection, uuid))
      ensures connectionId == if defaultConnection then sessionId + "-channels-default" else uuid + "-conn-"
    {
      if defaultConnection {
        connectionId := DefaultConnectionName(sessionId);
      } else {
        connectionId := uuid + UUID_SUFFIX;
      }
    }

    method CloseAndStop()
      modifies this
      ensures View() == Refuse(old(View()))
    {
      channel := channel + [Closed];
      status := Stopped;
    }

    method Receive(m: Message)
      modifies this
      ensures View() == React(old(View()), m)
    {
      match m
      case PostStart(found, reply, endpointOk) =>
        if !found {
          CloseAndStop();
          return;
        }
        if !reply.Verdict? {
          CloseAndStop();
          return;
        }
        if !reply.success {
          CloseAndStop();
          return;
        }
        if sendEndpoint {
          var path := if cfg.protocolVersion == VERSION_2025 then cfg.mcpPath else cfg.messagePath;
          var messageEndpoint := basePath + path + "?sessionId=" + sessionId;
          channel := channel + [Endpoint(messageEndpoint, endpointOk)];
        }
      case Deliver(r, convertOk, sendOk) =>
        if !convertOk {
          status := Failed;
          return;
        }
        if !sendOk {
          status := Failed;
          return;
        }
        channel := channel + [MessageEvent(ToJson(r))];
      case Terminated(actorId) =>
        if actorId == SessionActorName(sessionId) {
          status := Stopped;
        }
      case Foreign =>
    }
  }
}
