# scaled-mcp: a verified model

scaled-mcp is a Go server for the Model Context Protocol (MCP) built on actors. This project models
the parts of it that carry protocol state or shared data, and proves properties of them:

- **Sessions.** One actor per session moves from uninitialized to initialized to shut down
  (`Session.dfy`, `SessionSteps.dfy`). `SessionActor.dfy` is the actor itself: a record updated in
  place by its handlers, inside the generic state machine; every method is proved equal to the step
  function. `SessionHistory.dfy` says what the machine has become after any message sequence, in
  terms of the messages alone, and `SessionReplies.dfy` what each message of it leads to.
- **The network around a session.** `Connection.dfy` is the actor behind one SSE connection.
  `Network.dfy` puts one session, any number of connections, FIFO mailboxes, integer time, the
  one-shot cleanup timer and the periodic TTL timer into one transition system;
  `NetworkTimers.dfy`, `NetworkDeadlines.dfy`, `NetworkLeaks.dfy` and `NetworkDelivery.dfy` prove
  invariants of every reachable state, `NetworkProgress.dfy` that time goes on, `NetworkReach.dfy`
  that connections come up and what is routed to them gets through.
- **Dispatch and ids.** `Dispatch.dfy` compares the guard `CanHandleMethod` with the router
  `HandleMethod`. `Rpc.dfy` follows a JSON-RPC id (JSON-RPC 2.0, sections 4 and 5) through the
  adapter and the response builders.
- **Registries.** `Pager.dfy`, `PagerWalks.dfy`, `Listing.dfy`, `Registries.dfy` and
  `Subscriptions.dfy` hold the static tool, prompt and resource registries, their cursor
  pagination, and the subscriber index.
- **Struct tools.** `Reflection.dfy`, `TagMeaning.dfy`, `TagFormat.dfy` and `StructTools.dfy` hold the tag parser, the
  generated schema, and the call pipeline that fills a struct.
- **Session ids.** `SessionId.dfy` holds generation and verification of signed ids.

`dafny verify dfyconfig.toml` checks the whole project.

## How the environment enters

What a message meets while it is handled is part of the message: the clock, whether the scheduler
or the actor system returns an error, the outcome of decoding and of authentication, the result a
built-in executor's feature gives, the response of a custom handler (`Session.Env`). All theorems
hold for all such outcomes. A handler runs at one instant.
The signature function, JSON coding, `strconv`, lower-casing and reflect's value conversion are
arbitrary functions. In the network, `latency` bounds how long a message may wait in a running
session's mailbox; with `latency` 0 the bounds are those of a session that keeps up. Timers fire
exactly when due. A handler error hands the session to its supervisor, where the model stops.

## What turned out

- A failed initialize still initializes (`SessionHistory.PhaseByHistory`), and an initialize whose
  result cannot be marshalled, or finds no taker, changes the recorded version without announcing it
  (`SessionHistory.RecordedIsLastAnnounced`, `SessionHistory.RecordedButNotAnnounced`).
- "An idle session always stops" is false. A session shut down before its cleanup message arrives
  ignores that message and then never stops (`NetworkLeaks.SomeRunLeaks`,
  `NetworkLeaks.IgnoredNeverStops`); this is the only way to outlive both bounds
  (`NetworkLeaks.OnlyIgnoredOutlive`). Any session whose cleanup message was handled while it was
  initialized does end when left alone (`NetworkProgress.LeftAloneStops`).
- A session timeout of 1 ns gives the TTL timer the interval zero; with timers that fire exactly
  when due, time then stops (`NetworkProgress.FrozenByZeroInterval`). With every other timeout it goes on
  (`NetworkProgress.EveryTimeIsReached`).
- An executor's JSON-RPC error code is cut to 32 bits on its way (`SessionHistory.ErrorCodeArrives`).
- A generated session id verifies for its unique id exactly when that is absent, or non-empty and
  without `_` (`SessionId.GeneratedVerifies`); the handlers that ask for no unique id accept it
  exactly when it has no `_` (`SessionId.GeneratedVerifiesUnasked`). A string with exactly one `_`
  makes verification panic (`SessionId.VerifyExactly`). The comments in
  pkg/session/stateless_session_manager.go:39-41 and 72 speak of a timestamp, a dot separator and
  expiry; the code has a unique id, an underscore and no expiry, and the model follows the code.
- A tool registered from a pointer-to-struct type gets a schema, but no call ever reaches its
  handler (`StructTools.StructToolPipeline`, `StructTools.PointerToolIsUnreachable`).
- The documented tag format reads back exactly for parts without commas, a non-empty name and a
  default without trailing white space (`TagFormat.TagRoundTrip`).
- With custom executors the router can miss what the guard admits
  (`Dispatch.CustomExecutorsAgreeIff`, `Dispatch.CustomExecutorMissed`); with the default ones it cannot.

## Model

| member | source | states |
|---|---|---|
| `Dispatch.GuardAndRouterAgree` | internal/executors/executors.go:31-75 | For every method string and any, possibly nil, experimental handler: what the guard admits is routed to the first executor that accepts it; what it refuses is an unknown method, or a call of the nil experimental handler if there is none |
| `Dispatch.DefaultRoutes` | internal/executors/executors.go:48-75 | With the default executors, which method names are routed to which executor, all of them and no others |
| `Dispatch.MethodSets` | internal/executors/resource_executor.go:24-31 | The method names each built-in executor accepts |
| `Dispatch.CustomExecutorsAgreeIff` | internal/executors/executors.go:31-75 | For any executor set, any field nil: the router reaches the guard's first acceptor if and only if a prefixed acceptor carries its own prefix and no nil executor stands under the prefix |
| `Dispatch.CustomExecutorMissed` | internal/executors/executors.go:48-75 | A concrete executor set and method that the guard admits and the router answers by calling a nil executor |
| `Rpc.IdPreservedExactly` | pkg/protocol/adapter.go:17-31 | The id comes back equal through request conversion, response building and response conversion exactly for nil, strings and integral numbers in int64 range |
| `Rpc.NumericIds` | pkg/protocol/adapter.go:17-31 | A numeric id that is no integer loses its fraction toward zero; every number in int64 range is converted so |
| `SessionActor.StateMachineActor.Receive` | pkg/utils/state_machine_actor.go:89-151 | One message handled in place equals one step of the step function: commit of state and data, or on a handler error the state kept and the record's updates kept |
| `SessionActor.NewMcpSessionStateMachine` | internal/actors/mcp_session_state_machine.go:57-89 | A new actor is the start state of every run: three handlers and the hook configured, the session timeout the configured time to live or five minutes, the initialize timeout the configured one or a tenth of that |
| `SessionActor.Drive` | pkg/utils/state_machine_actor.go:89-151 | Any message sequence driven through the actor is the fold of the step function |
| `SessionActor.HandleInitialize` | internal/actors/mcp_session_state_machine.go:343-406 | Response and record after an initialize request, on all four paths |
| `SessionActor.Negotiate` | internal/actors/mcp_session_state_machine.go:372-378 | The loop returns the requested version if supported, else the newest supported one |
| `SessionActor.SendResponse` | internal/actors/mcp_session_state_machine.go:329-340 | A response goes to the asker, to the registered connection, or is dropped |
| `SessionActor.HandleWrappedUninitialized` | internal/actors/mcp_session_state_machine.go:191-215 | Requests before initialization: initialize always moves on, others get an error and renew nothing |
| `SessionActor.HandleWrappedInitialized` | internal/actors/mcp_session_state_machine.go:218-289 | Requests of an initialized session: authentication, the four lifecycle methods, features and their failures |
| `SessionHistory.PhaseByHistory` | internal/actors/mcp_session_state_machine.go:83-86 | After any messages the state is shut down iff an admitted shutdown followed an initialize, initialized iff there was an initialize, and it always has a handler |
| `SessionHistory.PhaseOnlyAdvances` | internal/actors/mcp_session_state_machine.go:200-253 | Over any run the phase only moves forward |
| `SessionHistory.StopsExactlyWhen` | internal/actors/mcp_session_state_machine.go:142-326 | A message makes the actor stop if and only if it is the cleanup message before any initialize, a TTL check more than the configured time to live (or five minutes) after the last activity, or a TTL check after an admitted shutdown |
| `SessionHistory.LastActivityByHistory` | internal/actors/mcp_session_state_machine.go:182-314 | Last activity is the time of the last renewing message; failed, refused and unknown requests do not renew |
| `SessionHistory.ConnectionsByHistory` | internal/actors/mcp_session_state_machine.go:182-188 | The connection table is last-writer-wins over the registrations received before shutdown |
| `SessionHistory.VersionByHistory` | internal/actors/mcp_session_state_machine.go:343-383 | The protocol version is empty or supported, and with the client information is that of the request that negotiated last; malformed initialize requests leave both |
| `SessionHistory.NotificationByHistory` | internal/actors/mcp_session_state_machine.go:255-260 | The session knows its client finished initializing exactly when it was told so while initialized |
| `SessionHistory.AnnouncedIsRecorded` | internal/actors/mcp_session_state_machine.go:329-405 | A message announces a version exactly when its request negotiated, its result marshals, and an asker or a connection registered before is there to take the reply; the version is the negotiated and recorded one |
| `SessionHistory.RecordedIsLastAnnounced` | internal/actors/mcp_session_state_machine.go:329-405 | Over any run the recorded version is the one announced last if and only if nothing was negotiated or the last negotiating and the last announcing request ask for the same version; in particular whenever every negotiation marshals and finds a taker |
| `SessionHistory.RecordedButNotAnnounced` | internal/actors/mcp_session_state_machine.go:380-394 | A concrete run in which the two differ: one initialize whose result does not marshal |
| `SessionHistory.RequestAccounting` | internal/actors/mcp_session_state_machine.go:191-289 | Each wrapped request is exactly one of replied to once, silent, failed at authentication, crashed on a nil executor, ignored; by history alone |
| `SessionHistory.RepliesReport` | internal/actors/mcp_session_state_machine.go:191-289 | Every reply, with no assumption on executors, is a success or carries the error code its phase, method and what its handler met call for |
| `SessionHistory.ErrorCodeArrives` | pkg/utils/json_rpc_helpers.go:10-42 | An executor that fails with a JSON-RPC error: the reply sent in the run carries its code if and only if the code fits 32 bits |
| `SessionHistory.ReplyIdEndToEnd` | internal/executors/jsonrpc_utils.go:12-75 | Any reply to a request, success or error, from the session, the router or a built-in executor, has the JSON request's id exactly when that id is representable; the response of a custom handler is passed on unchanged |
| `SessionHistory.ExecutorCalls` | internal/actors/mcp_session_state_machine.go:432-460 | An executor runs exactly for admitted, accepted feature requests of an initialized session; the unhandled hook never runs |
| `SessionReplies.RefusedUntilInitialized` | internal/actors/mcp_session_state_machine.go:204-214 | Before any initialize request every other request is answered -32002 and changes nothing |
| `SessionReplies.InitializeReplies` | internal/actors/mcp_session_state_machine.go:343-406 | An admitted initialize request always initializes and renews; the reply is the invalid-parameters or internal error, or the result with the requested version if known, else the newest, and the session's id; the version is recorded |
| `SessionReplies.ShutdownReplies` | internal/actors/mcp_session_state_machine.go:246-253 | An admitted shutdown request shuts down, is answered with the empty object and renews nothing |
| `SessionReplies.NotificationsAreSilent` | internal/actors/mcp_session_state_machine.go:255-266 | The two notifications, by name, get no reply and renew; one is remembered |
| `SessionReplies.NotHandled` | internal/actors/mcp_session_state_machine.go:222-231 | A request whose authentication does not decode raises an error and changes nothing; after shutdown every request is ignored |
| `SessionReplies.BuiltInReplies` | internal/executors/jsonrpc_utils.go:12-75 | A feature request that reaches a built-in executor: missing registry -32601, undecodable parameters -32602, the feature's result as it is, its error with its own code and text or as -32603; exactly a result renews |
| `SessionReplies.CustomReplies` | internal/actors/mcp_session_state_machine.go:268-288 | A custom handler's response is sent as it is and renews; its error is reported and does not |
| `SessionReplies.UnknownReplies` | internal/actors/mcp_session_state_machine.go:452-459 | A feature request that reaches no handler is answered -32601, or raises an error on a nil executor, and changes nothing |
| `SessionReplies.RegistrationsAreAcknowledged` | internal/actors/mcp_session_state_machine.go:182-188 | A registration is acknowledged to its sender, recorded and renews; after shutdown it is ignored |
| `SessionReplies.TimerMessages` | internal/actors/mcp_session_state_machine.go:92-179 | What start-up, cleanup, TTL check and foreign messages do in every phase: what is scheduled and for when, stops, failures, unhandled messages |
| `SessionReplies.WithoutHandler` | pkg/utils/state_machine_actor.go:89-151 | In a state nobody configured nothing changes, and the hook runs if there is one |
| `Connection.ClientConnectionActor.Receive` | internal/actors/client_connection_actor.go:69-250 | One message handled in place equals one step of the reaction that the network takes, and that `Connection.ReactsTo` spells out |
| `Connection.ReactsTo` | internal/actors/client_connection_actor.go:79-250 | For every message: a response becomes one message event with its id and body or fails the actor, a refused start-up closes the channel and stops, a registered one sends the endpoint once if asked, the session's own end stops it, nothing else has an effect |
| `Connection.ClientConnectionActor.constructor` | internal/actors/client_connection_actor.go:150-172 | The endpoint url under both protocol versions |
| `Connection.ClientConnectionActor.PreStart` | internal/actors/client_connection_actor.go:58-67 | The connection id is the session's default name, or made from the uuid |
| `Connection.ConnectionNamesAreDistinct` | internal/actors/client_connection_actor.go:58-67 | Two connections have the same id only as default connections of one session or under one uuid, so an id made from a fresh uuid is fresh |
| `NetworkTimers.OneTimerAtATime` | internal/actors/mcp_session_state_machine.go:171-179 | In every reachable state at most one of unhandled start-up, pending cleanup, unhandled cleanup message, periodic timer exists |
| `NetworkDeadlines.UninitializedBound` | internal/actors/mcp_session_state_machine.go:59-67 | A running session is never still uninitialized after creation plus the configured initialize timeout, or a tenth of the time to live, or half a minute (plus waiting time) |
| `NetworkDeadlines.IdleBound` | internal/actors/mcp_session_state_machine.go:303-326 | Once the cleanup message was handled while initialized, a session, initialized or shut down alike, is stopped by last activity + T + T/2 (plus waiting time); for T of 1 ns this holds because the clock then stops, see `NetworkProgress.FrozenByZeroInterval` |
| `NetworkProgress.TimeGoesOn` | internal/actors/mcp_session_state_machine.go:303-314 | For every session timeout except 1 ns: from every reachable state, whatever handlers meet, at most four steps besides handling the mailbox lead to a later time |
| `NetworkProgress.EveryTimeIsReached` | internal/actors/mcp_session_state_machine.go:303-314 | For every session timeout except 1 ns: from every reachable state every later time is reached, so no bound is met by stopping the clock |
| `NetworkProgress.FrozenByZeroInterval` | internal/actors/mcp_session_state_machine.go:303-314 | For a timeout of 1 ns the timer interval is zero, and once it is armed no continuation changes the time |
| `NetworkProgress.LeftAloneStops` | internal/actors/mcp_session_state_machine.go:303-326 | After a cleanup message handled while initialized, every continuation in which nothing new reaches the session has ended it after T + T/2 (plus waiting time) |
| `NetworkProgress.LeftAloneEnds` | internal/actors/mcp_session_state_machine.go:303-326 | For every timeout except 1 ns such a continuation exists, whatever handlers meet |
| `NetworkDeadlines.RunningIsGuarded` | internal/actors/mcp_session_state_machine.go:142-179 | A running session is within its first timeout, has its TTL timer, or ignored its cleanup message |
| `NetworkDeadlines.EveryStopIsJustified` | internal/actors/mcp_session_state_machine.go:292-326 | Over all interleavings a stopped session's last message was a cleanup message, not before the configured initialize timeout was over and with no initialize request before it, a TTL check later than the configured time to live after the last activity, or a TTL check after shutdown |
| `NetworkLeaks.IgnoredNeverStops` | internal/actors/mcp_session_state_machine.go:142-159 | Once the cleanup message was ignored after shutdown, no continuation ever stops the session |
| `NetworkLeaks.OnlyIgnoredOutlive` | internal/actors/mcp_session_state_machine.go:142-179 | A session that outlives both bounds ignored its cleanup message |
| `NetworkLeaks.SomeRunLeaks` | internal/actors/mcp_session_state_machine.go:142-159 | Under every configuration some run ignores its cleanup message |
| `NetworkDelivery.NothingLost` | internal/actors/client_connection_actor.go:195-225 | Per connection, in every interleaving: message events, then the response it failed on, then its mailbox, then what came after it ended, equal the responses the session routed to it, in order; while it is open, message events and mailbox alone |
| `NetworkDelivery.EndpointThenMessages` | internal/actors/client_connection_actor.go:79-193 | Per connection, in every interleaving: registered first, endpoint exactly once and first; or channel closed once and nothing sent |
| `NetworkDelivery.RegistrationGoesThrough` | internal/actors/client_connection_actor.go:107-145 | A registration that the session handles before shutdown lets the waiting connection finish its start-up, registered under its name, open, and with the endpoint sent if asked for |
| `NetworkReach.ConnectionComesUp` | internal/actors/client_connection_actor.go:79-193 | With a running session that is not shut down and has nothing else to do, a new connection comes up: registered under its name, open, its endpoint sent if asked for and nothing else |
| `NetworkReach.AllGetsThrough` | internal/actors/client_connection_actor.go:195-225 | From every reachable state an open live connection can bring everything routed to it to its client, one event for each response, in order |
| `NetworkDelivery.PostedRepliesReachDefault` | internal/httphandlers/message_post_handler.go:59-64 | In every interleaving the reply to a posted message is told to the last connection registered under the session's default name, which is one that has this name, and dropped exactly when none registered |
| `PagerWalks.InterleavedWalk` | pkg/resources/static_registry.go:114-164 | With any registrations between page calls a walk returns keys in strictly increasing byte order, exactly those registered when their page was fetched, and if it ends, every key present at its start |
| `PagerWalks.FetchFinds` | pkg/resources/static_registry.go:29-47 | During a walk the n-th page call finds exactly the keys registered before it |
| `PagerWalks.StaticWalk` | pkg/resources/static_registry.go:114-164 | On an unchanged registry a walk takes max(1, ceil(n/20)) calls and returns all keys once, in byte order |
| `PagerWalks.PageIsRange` | pkg/resources/static_registry.go:118-161 | For any cursor: a page holds in byte order exactly the keys behind the cursor, or from the start if the cursor is no key, up to the next cursor; at most twenty, and twenty exactly if more follow |
| `Pager.LessIsByteOrder` | pkg/resources/static_registry.go:119-123 | The sort order is byte order: a proper prefix comes first, else the first difference decides |
| `Pager.CutListsRemaining` | pkg/resources/static_registry.go:119-134 | Cutting the sorted names behind a found cursor leaves the sorted keys above it; an unknown cursor starts over |
| `Listing.StartPosition` | pkg/resources/static_registry.go:125-134 | The linear scan finds the position behind the cursor, or zero |
| `Listing.PageNames` | pkg/resources/static_registry.go:118-161 | Collecting in any order, sorting, scanning and cutting yields the abstract page and next cursor, in byte order |
| `Registries.PageEntries` | pkg/resources/static_registry.go:152-161 | Every page lists the registered entries of the abstract page's keys, position by position |
| `Registries.StaticToolRegistry.RegisterTool` | pkg/resources/static_registry.go:29-47 | Refuses empty and taken names, else adds the tool and its handler |
| `Registries.StaticToolRegistry.RegisterStructToolWithHandler` | pkg/resources/static_registry.go:50-99 | Succeeds exactly for a free name, a fitting handler and a struct type whose schema can be generated |
| `Registries.StaticToolRegistry.SetToolHandler` | pkg/resources/static_registry.go:199-210 | Replaces the handler of a known tool only |
| `Registries.StaticToolRegistry.ListTools` | pkg/resources/static_registry.go:114-164 | Returns the abstract page of the tools, in byte order of their names |
| `Registries.StaticToolRegistry.CallTool` | pkg/resources/static_registry.go:167-196 | Unknown tool, first missing required key, or the handler's outcome on the caller's map, which is extended in place with defaults in that case and unchanged otherwise |
| `Registries.FirstMissing` | pkg/resources/static_registry.go:177-184 | The key reported is required, absent, and the first such; none is reported iff all are present |
| `Registries.StaticToolRegistry.ApplyDefaults` | pkg/resources/static_registry.go:186-193 | The default loop's result does not depend on the order of the properties |
| `Registries.StaticPromptRegistry.RegisterPrompt` | pkg/resources/static_prompt_registry.go:27-38 | Refuses an empty name, else adds or replaces |
| `Registries.StaticPromptRegistry.ListPrompts` | pkg/resources/static_prompt_registry.go:50-98 | Returns the abstract page of the prompts, in byte order of their names |
| `Subscriptions.SubscribersByHistory` | pkg/resources/static_resource_registry.go:141-193 | After any operations the subscribers of a URI are the ids whose last effective operation on it was to subscribe |
| `Subscriptions.IndexesAreRegistered` | pkg/resources/static_resource_registry.go:40-55 | Providers and subscriber sets exist for registered URIs only |
| `Subscriptions.ResourceByHistory` | pkg/resources/static_resource_registry.go:40-55 | A registered resource is the one registered last under its URI |
| `Subscriptions.ProviderByHistory` | pkg/resources/static_resource_registry.go:48-50 | Its provider is the one given last; a registration without one leaves it |
| `Subscriptions.StaticResourceRegistry.RegisterResource` | pkg/resources/static_resource_registry.go:40-55 | One registration, equal to the step of the history fold |
| `Subscriptions.StaticResourceRegistry.RegisterResourceTemplate` | pkg/resources/static_resource_registry.go:58-69 | Refuses an empty template URI, else adds or replaces |
| `Subscriptions.StaticResourceRegistry.ReadResource` | pkg/resources/static_resource_registry.go:123-138 | Unknown resource, missing provider, or the provider registered |
| `Subscriptions.StaticResourceRegistry.SubscribeResource` | pkg/resources/static_resource_registry.go:141-165 | One subscription under the context's id or "default", equal to the step of the history fold |
| `Subscriptions.StaticResourceRegistry.UnsubscribeResource` | pkg/resources/static_resource_registry.go:168-193 | One unsubscription, equal to the step of the history fold |
| `Subscriptions.StaticResourceRegistry.GetSubscribers` | pkg/resources/static_resource_registry.go:247-261 | The subscribers, each once, in any order |
| `Subscriptions.StaticResourceRegistry.ListResources` | pkg/resources/static_resource_registry.go:72-120 | Returns the abstract page of the resources, in byte order of their URIs |
| `Subscriptions.StaticResourceRegistry.ListResourceTemplates` | pkg/resources/static_resource_registry.go:196-244 | Returns the abstract page of the templates, in byte order of their URIs |
| `Reflection.ParseStructField` | pkg/resources/reflection.go:52-88 | The tag loop computes the parsed field: name, property, required flag, last default |
| `Reflection.GenerateSchemaFromStruct` | pkg/resources/reflection.go:12-50 | The schema of the exported fields, or none for a non-struct or an unsupported field |
| `Reflection.SchemaExists` | pkg/resources/reflection.go:27-41 | A struct has a schema iff every exported field that is not skipped has a supported type |
| `Reflection.PropertiesAreDeclared` | pkg/resources/reflection.go:27-47 | A name is a property iff an exported field declares it; the last such field gives it |
| `Reflection.RequiredAreDeclared` | pkg/resources/reflection.go:43-46 | The required names are those some exported field requires |
| `Reflection.RequiredAreProperties` | pkg/resources/reflection.go:43-46 | Every required name is a key of the properties |
| `Reflection.UnmarshalParams` | pkg/resources/reflection.go:144-185 | Fills the target in place: fields with a non-nil value for their key are set, the others keep what they held; fails iff some field does |
| `TagFormat.TagRoundTrip` | pkg/resources/reflection.go:52-88 | A tag written in the documented format reads back to its four parts if and only if they are well formed |
| `TagMeaning.AnyTag` | pkg/resources/reflection.go:52-88 | Any tag on any field: skip, type error, key, description, whether it is required and which default it has, part by part |
| `TagMeaning.ScanMeaning` | pkg/resources/reflection.go:68-77 | "required" counts wherever it stands among the options, and of several defaults the last |
| `TagMeaning.TrimSpaceMeaning` | pkg/resources/reflection.go:69 | Options are read without the white space around them |
| `TagMeaning.SchemaTypes` | pkg/resources/reflection.go:90-114 | The schema type of every kind of field, also through one pointer |
| `TagMeaning.DefaultValues` | pkg/resources/reflection.go:116-142 | A default is parsed for numbers and truth values if it can be, and stays a string otherwise |
| `StructTools.StructToolPipeline` | pkg/resources/static_registry.go:77-98 | Every way a call can end, for any registry, each with its exact condition: unknown tool, missing key, plain handler called with the completed parameters, typed handler with each slot the conversion of its key's value or zero, invalid parameters |
| `StructTools.PointerToolIsUnreachable` | pkg/resources/static_registry.go:77-91 | A tool registered with a pointer to a struct is well registered, and every call of it ends in invalid parameters |
| `StructTools.DefaultsComeFromTags` | pkg/resources/static_registry.go:186-195 | The handler's parameters are the caller's, extended only by the tag defaults of absent keys |
| `StructTools.RequiredCheck` | pkg/resources/static_registry.go:177-184 | The required check passes iff every key some exported field requires is present |
| `StructTools.RegisteredFieldsParse` | pkg/resources/reflection.go:165-168 | For a registered struct the parse error of a call cannot occur |
| `SessionId.GenerateSecureId` | pkg/utils/string_utils.go:11-28 | The random part has the asked length, letters and digits only, one draw each; it fails iff a draw fails |
| `SessionId.CharsetIsAlphanumeric` | pkg/utils/string_utils.go:8-28 | The alphabet is exactly the ASCII letters and digits |
| `SessionId.VerifyExactly` | pkg/session/stateless_session_manager.go:73-105 | On every string: panic on one delimiter, bad shape on none, a mismatch iff a unique id is asked for that is not the second part, and acceptance iff the string is a signed pair with the unique id asked for |
| `SessionId.GeneratedVerifies` | pkg/session/stateless_session_manager.go:42-105 | For any signature function: a generated id verifies for its unique id iff that is absent, or non-empty and delimiter-free |
| `SessionId.GeneratedVerifiesUnasked` | internal/httphandlers/sse_get_handler.go:54-58 | For signatures of one length: a generated id verifies with no unique id asked for iff its unique id holds no delimiter; an empty one passes |
| `SessionId.GenerateInjective` | pkg/session/stateless_session_manager.go:42-70 | Different usable pairs never print to the same id |

## Left out

- Supervision, passivation, clustering and death watch: what happens to an actor after a handler error is up to the actor library, so a session after an error is only marked `Supervised`.
- The time a handler takes: all clock readings within one handler are one instant.
- HTTP handlers, batches, SSE byte format, cookies, CORS: plumbing around the messages modelled here.
- The actor library's own rules: start-up is a connection's first message, a stopped actor handles none, mailboxes are FIFO.
- Locks of the registries and of the state machine: one operation runs at a time.
- Error data payloads of JSON-RPC errors, and log output.
- Prompt template execution and what the built-in executors compute: their results and errors are arbitrary; only feature check, parameter decoding and response building are modelled.
- The handler-signature check of struct tools, which is one boolean, and nil plain handlers.
- Reflect's conversion table, `strconv` and non-ASCII details of the functions taken as arbitrary; string order and signatures treat a character as a byte.
- `Listing.SortNames`: an insertion sort stands in for the library's `sort.Strings`; only its contract matters.
- The HTTP client, builders, dynamic registries, configuration loading and generated code.
