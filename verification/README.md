# DockSight: a verified model

DockSight is a server that drives remote Docker hosts through agents on WebSockets. This project models the
protocol between the two, with everything it rests on, and proves what it promises. `dafny verify dfyconfig.toml`
checks it.

How the modules fit together:

- **The server.** `Outstanding` is the ledger of promises, timers and pending entries; `Gateway` is the state
  machine of `agents.gateway.ts` over it (its handlers, calls and timers are the steps; nothing is assumed of
  what arrives or when); `GatewayRuns` and `GatewayTrace` prove what every run keeps; `AgentsGateway` is the
  gateway object with its maps updated in place, each method tied to a step. `Inventory` and `ContainerListed`
  are the cache it answers from and the parser in front of it.
- **The agent.** `AgentClient` has its message handlers, `Debounce` its Docker-event pipeline, and `Decode`,
  `Batching` and `LogService` the log pipeline: bytes to entries, entries to chunks, and the registry of
  streams at lock granularity.
- **Both ends.** `Protocol` has the type strings and payloads. `Fleet` joins one gateway, any number of agents
  and two FIFO lanes per socket; either end can lose a socket at any moment, and what is on the lane is then
  lost. `Connection` says who is connected and what goes out to it, `GatewayAnswers` what settles a promise.
  `Identity`, `CommandDelivery`, `LogDelivery`, `LogAccounting` and `ListDelivery` prove what holds end to end in
  every run, `RoundTrips` that the fleet gets there: what an idle agent is asked comes back.
- **Apart from the protocol.** `Rotation` is the agent's log file, `PlatformUrl` the normalising of the server's
  URL, `ServerUrl` the editor and reader of the configuration it goes into, `LogView` the browser's framing and
  pause buffer.

Concurrency is nondeterministic choice between atomic steps: a mutex region, a case of a `select`, one
JavaScript callback. In the pending ledger the three tables are one map whose keys say which table they
belong to; `resettled` counts attempts to settle a settled promise, which have no effect in JavaScript, and is
proved to stay zero. `issued` records what each request id was generated for.

What is assumed, in the end-to-end results only where it says so: `randomUUID` never repeats itself; an agent
registers and beats under one uuid (client.go:292, client.go:680); a settled promise cannot be settled again.
For the order of a log also that an agent connects only after the server has handled its previous disconnect
(`LogDelivery.Disciplined`); without it nothing is said of the order, but still nothing is seen from
elsewhere and nothing twice (`LogAccounting`). The list results assume that an agent's uuid and its id in the
database belong together (`ListDelivery.Tied`), as their unique columns there make them (schema.prisma:23-24);
`Inventory.SharedHostMixesAgents` is what happens otherwise. The command results need neither.

Where the code does not do what it, or its documentation, says, the model follows the code:

- A stream that ends within its first eight bytes is dropped without an error: the header peek meets the end
  (`Decode.ShortStreamDropped`, `Decode.TextStreamDecoded`). The agent asks Docker for timestamps
  (apps/agent/internal/docker/service.go:193), so every line it is sent whole is longer, and an uncut stream of
  such lines is decoded to all of them (`Decode.TextLinesDecoded`); only a stream cut that early is dropped.
- rotate.go says that a failed rotation must not lose the line being written. When reopening fails it does, and
  so does every line after it (`Rotation.LineKeptIff`, `Rotation.ClosedForEver`).
- rotate.go says that shifting highest first overwrites no file that still has to be moved. A rename that fails
  leaves one there, and the next lands on it. `Rotation.RotationLoses` says what exactly is lost, and
  `Rotation.RotateKeepsNewestIff` and `Rotation.RunConservesHistoryIff` when the newest writes are kept all the
  same; `Rotation.StuckRenameLosesTheMiddle` is a disk on which they are not.
- A URL that quoting escapes does not read back: a double quote in the host survives normalising
  (`ServerUrl.QuoteInHostNotRead`; by `PlatformUrl.NormalisedReadsBack` nothing else that is typed has this effect).
  Nor would one with an apostrophe at either end, which the installer never writes (`ServerUrl.PutGet`).
  The agent's own YAML parser gets the URL all the same (`ServerUrl.QuoteMeans`).
- A read error can overtake entries that are already decoded (`Batching.FailingLosesIff` says when,
  `Batching.ReadErrorDropsBufferedEntries` that it happens).
- packages/protocol/README.md:40 lists `container.remove` as reserved; both ends implement it.

## Model

| member | source | states |
|---|---|---|
| `CommandDelivery.CommandDelivered` | apps/server/src/agents/agents.gateway.ts:177-226 | In every run of server, agents and cuttable lanes: if the promise of sendContainerCommand resolves, its action and container are the ones asked for, and the agent that was asked made exactly that call to its Docker exactly once, no other agent made any for it, and `ok`, `message` and `error` are what Docker said (no call, and not `ok`, when the container is empty or that agent has no Docker); if it rejects, that agent made the call at most once |
| `CommandDelivery.InspectionDelivered` | apps/server/src/agents/agents.gateway.ts:228-267 | The same for inspectContainer, by the agent that was asked; its container is the details that agent's Docker returned for that call, and none when it failed |
| `CommandDelivery.AtMostOnce` | apps/agent/internal/communication/client.go:561-643 | In every run, whatever became of the promises: Docker is called at most once for a request id, by the agent at the other end of the socket the order went out on, which has Docker, with the call, container and `force` the server ordered |
| `CommandDelivery.AlwaysFaithful` | apps/agent/internal/communication/client.go:462-481 | Every run keeps: an answered request's envelope has been taken; each call belongs to one answer; every result on a lane or in a promise is the agent's one reply to that request id |
| `CommandDelivery.SettledTruthfully` | apps/server/src/agents/agents.gateway.ts:508-537 | A settled command promise tells the truth about the calls made for its request id, down to message and error, in any world that satisfies the invariant |
| `CommandDelivery.InspectionSettledTruthfully` | apps/server/src/agents/agents.gateway.ts:539-566 | The same for a settled inspection |
| `CommandDelivery.OutcomeArrives` | apps/server/src/agents/agents.gateway.ts:508-566 | A promise gets a command's or an inspection's result only from a message that carries it, normalised |
| `CommandDelivery.TakeKeepsFaithful` | apps/agent/internal/communication/client.go:561-643 | Handling the next envelope answers a request that has not been answered, whatever the envelope holds and whatever Docker says |
| `CommandDelivery.RunExtends` | apps/server/src/agents/agents.gateway.ts:195-225 | No step forgets or changes what a request id was issued for, what a promise was made for, or which agent a socket leads to |
| `LogDelivery.LogsDelivered` | apps/server/src/agents/agents.gateway.ts:274-320 | While each agent reconnects only after its last disconnect was handled: onChunk has seen a prefix of the chunks handed over by the stream opened for that very request by the agent it was sent to, whole, once, in order and under its own container, hence a prefix of what the decoder makes of Docker's bytes |
| `LogDelivery.StartedLogsDelivered` | apps/server/src/agents/agents.gateway.ts:274-320 | From one call of startLogStream to any later moment: everything its onChunk has seen comes from the stream that the agent asked opened on the container asked for |
| `LogDelivery.NothingLost` | apps/agent/internal/communication/client.go:192-209 | While the request is subscribed and its agent is on the socket, seen chunks followed by those on that socket's lane are exactly those handed over; after a clean end with the lane empty everything decoded has been seen |
| `LogDelivery.FramesDelivered` | apps/agent/internal/logs/decode.go:19-79 | Composed with the decoder: if the agent read the first bytes of some multiplexed frames, onChunk has seen a prefix of the lines of the frames complete in them |
| `LogDelivery.OutputDelivered` | apps/agent/internal/logs/decode.go:19-79 | From the container to the browser: if Docker wrapped the container's output in frames, coded 0 or 1 for stdout and 2 for stderr, onChunk has seen a prefix of its lines, each under the stream it was written to |
| `LogDelivery.AlwaysDelivering` | apps/server/src/agents/agents.gateway.ts:587-606 | Every such run keeps: a subscriber's socket is up and its agent's, carries its chunks, and no other live socket does |
| `LogDelivery.ArrivalFlows` | apps/server/src/agents/agents.gateway.ts:587-606 | An arriving chunk moves from the head of the lane to its own request's observations, and no other lane has anything for that request |
| `LogDelivery.EmissionFlows` | apps/agent/internal/communication/client.go:192-209 | A chunk handed over joins the lane of its subscriber's socket, or is lost only when the agent is no longer on it |
| `LogDelivery.SessionMeets` | apps/agent/internal/communication/client.go:249-290 | While the server believes in a socket, its agent's session, if any, is on that socket |
| `LogAccounting.LogsAccounted` | apps/server/src/agents/agents.gateway.ts:587-606 | In every run, agents reconnecting as they please: whatever its order, what onChunk has seen are chunks that the one stream opened for that request handed over, by the agent at the other end of the socket it went out on and under the container it named, each seen no more often than handed over; without a stream nothing |
| `LogAccounting.StartedLogsAccounted` | apps/server/src/agents/agents.gateway.ts:274-320 | From one call of startLogStream to any later moment of any run: that stream is the asked agent's, on the asked container |
| `LogAccounting.AlwaysAccounting` | apps/agent/internal/communication/client.go:192-209 | Every run keeps, chunk by chunk: times seen plus times on any lane, dead or alive, are at most the times handed over |
| `ListDelivery.ListDelivered` | apps/server/src/agents/agents.gateway.ts:143-172 | In every run in which callers name each agent's own host: the promise that requestContainerList makes for a connected agent is only ever resolved, and with what the parser makes of a list that this very agent sent, or with no containers, whether it is answered, superseded, cut off or timed out |
| `ListDelivery.CachedListDelivered` | apps/server/src/agents/agents.gateway.ts:148-153 | So is what either cache lookup gives for that agent at any moment, hence the answer when it is not connected |
| `ListDelivery.MoveSettles` | apps/server/src/agents/agents.gateway.ts:155-169 | In any sound ledger, a move settles list promises only with the outcome it carries for their agent |
| `ListDelivery.StepLists` | apps/server/src/agents/agents.gateway.ts:481-506 | Every step keeps: lists on a lane, in the cache under an agent's host, or in an outcome were sent by that agent, and list timers hold their agent's host |
| `Identity.AlwaysIdentified` | apps/server/src/agents/agents.gateway.ts:427-479 | Since an agent uses one uuid, the socket stored under a uuid leads to that agent, and its disconnect is handled under that uuid |
| `Connection.ConnectedIff` | apps/server/src/agents/agents.gateway.ts:444-479 | A step connects exactly the agent it registers, or whose heartbeat it handles, on an open socket, by that socket; every other agent stays connected as it was, unless its socket closes or disconnects, a disconnect is handled under its uuid, or another socket is named by it |
| `Connection.NamedIsConnected` | apps/server/src/agents/agents.gateway.ts:444-479 | So in every run: an agent that registers, or beats, is connected by that socket until something unseats it |
| `Connection.SocketNamed` | apps/server/src/agents/agents.gateway.ts:452-477 | A registration or heartbeat leaves the agent's uuid, and a registration its id, on that socket, and touches no other |
| `Connection.CommandGoesOut` | apps/server/src/agents/agents.gateway.ts:177-226 | Commanding a connected agent puts one envelope on its socket, under the action's type string, with `force` on removals alone, and makes a promise |
| `Connection.InspectGoesOut` | apps/server/src/agents/agents.gateway.ts:228-267 | The same for an inspection |
| `Connection.ListGoesOut` | apps/server/src/agents/agents.gateway.ts:143-172 | The same for a list |
| `Connection.LogsGoOut` | apps/server/src/agents/agents.gateway.ts:274-320 | The same for a log stream, with its container, tail and `follow`; its subscriber is stored |
| `Connection.StopGoesOut` | apps/server/src/agents/agents.gateway.ts:322-335 | Stopping a log drops the subscriber and unsubscribes at the agent if that is connected |
| `Connection.RegistrationAnswered` | apps/server/src/agents/agents.gateway.ts:368-466 | An accepted registration is acknowledged and followed by a list request; one that lacks a part, and a message that is no JSON, is refused in its own words |
| `Connection.CallsRemember` | apps/server/src/agents/container-inventory.service.ts:20-33 | Every call about an agent ties it to the host it names and to no other, keeps what every host had listed, and leaves every other agent's host alone |
| `Connection.CallsRefused` | apps/server/src/agents/agents.gateway.ts:143-320 | About an agent that is not connected it does nothing else: no promise, no timer, no entry, no envelope |
| `GatewayAnswers.ResultAnswers` | apps/server/src/agents/agents.gateway.ts:508-537 | A result resolves its own request's promise, unsettled until then, with its own parts; an absent message reads as empty, an absent error as null |
| `GatewayAnswers.InspectedAnswers` | apps/server/src/agents/agents.gateway.ts:539-566 | So does an inspection, with the container's details |
| `GatewayAnswers.ListedAnswers` | apps/server/src/agents/agents.gateway.ts:481-506 | A list resolves the promise of whoever waits for that agent's list with every readable summary |
| `GatewayAnswers.ListedCached` | apps/server/src/agents/agents.gateway.ts:481-506 | And is what either cache lookup of that agent gives from then on |
| `GatewayAnswers.DisconnectAnswers` | apps/server/src/agents/agents.gateway.ts:116-138 | In every run: when the agent that was asked disconnects, the promise is settled; if it was not before, a list with the cache, a command or an inspection with the disconnect |
| `GatewayAnswers.StrayIgnored` | apps/server/src/agents/agents.gateway.ts:508-606 | A message under an id that nothing waits for changes nothing |
| `RoundTrips.FreshAgentConnects` | apps/agent/internal/communication/client.go:249-333 | From any world in which an agent has no connection: dialling, registering, the acknowledgement, and the list it is then asked for leave it connected, idle, and its list cached |
| `RoundTrips.CommandRoundTrip` | apps/server/src/agents/agents.gateway.ts:177-226 | In any world in which the agent is idle: a command sent, handled and answered calls Docker once, with that action and container, and resolves its promise with Docker's answer and the documented message |
| `RoundTrips.InspectRoundTrip` | apps/server/src/agents/agents.gateway.ts:228-267 | The same for an inspection, which comes back with Docker's details |
| `RoundTrips.ListRoundTrip` | apps/server/src/agents/agents.gateway.ts:143-172 | The same for a list, which is cached as well |
| `RoundTrips.LogsOpened` | apps/server/src/agents/agents.gateway.ts:274-320 | Starting a log opens a stream at the agent, on that container |
| `RoundTrips.ChunkRoundTrip` | apps/agent/internal/communication/client.go:192-209 | A chunk that a stream hands over is seen by its own request's onChunk and nobody else, under the stream's container |
| `RoundTrips.AgentReconnects` | apps/agent/internal/communication/client.go:249-290 | An agent that loses its connection gets another, whether the server has noticed or not |
| `RoundTrips.DisconnectNoticed` | apps/server/src/agents/agents.gateway.ts:116-138 | When the server notices a disconnect, no entry and no subscriber of that agent is left, it is not connected, and nothing more arrives from that socket |
| `RoundTrips.HeartbeatSeats` | apps/server/src/agents/agents.gateway.ts:468-479 | A heartbeat on a live socket connects the agent by that socket, whatever unseated it before |
| `RoundTrips.PushedListCached` | apps/server/src/agents/agents.gateway.ts:481-506 | A list that an agent sends unasked is what both cache lookups give |
| `RoundTrips.StreamMoved` | apps/agent/internal/logs/stream.go:101-128 | A stream gets on by its own steps and by nothing else |
| `Fleet.ObeySays` | apps/agent/internal/communication/client.go:462-481 | Handling one envelope, the agent says at most one thing, a result or a list, and opens at most the log stream asked for |
| `GatewayTrace.StepKeepsTraced` | apps/server/src/agents/agents.gateway.ts:177-320 | Every gateway step keeps: a request id is carried by exactly one envelope, on the socket it was generated for, and that envelope encodes the order; what was sent stays sent |
| `GatewayTrace.ReadAt` | apps/agent/internal/communication/client.go:462-481 | Whatever the agent reads at a position of a socket is the order recorded for that position, or no order at all |
| `GatewayTrace.OrderRead` | apps/agent/internal/communication/client.go:561-643 | Reading the envelope of an order gives back the order: action, reported name, request, container, `force` only for removals, tail 100 when not positive |
| `Protocol.CommandTypeInverse` | apps/agent/internal/communication/client.go:725-742 | COMMAND_TYPE and the agent's two switches are inverses: a type string leads to an action exactly when it is that action's command type, and is reported under that action's name |
| `Protocol.CommandRead` | apps/agent/internal/communication/client.go:103-112 | A command envelope read as a removal payload: the sent action, ids, and `force` false unless it is a forced removal |
| `Protocol.WireNames` | apps/server/src/agents/agents.gateway.ts:77-84 | Each action's type string and reported name |
| `Protocol.RequestsRead` | apps/agent/internal/communication/client.go:462-481 | A list request, an inspection and an unsubscribe are read as what they are, with their own ids |
| `Protocol.SubscribeRead` | apps/agent/internal/communication/client.go:483-517 | A subscription is read with its id, container and `follow`, and a tail of 100 when not positive |
| `Protocol.RegistrationRead` | apps/agent/internal/communication/client.go:306-333 | An accepted registration lets the agent through, a refusal does not |
| `GatewayRuns.SettlementExact` | apps/server/src/agents/agents.gateway.ts:195-225 | In every run, whatever arrives: pending entries are exactly the unsettled promises and exactly the armed timers, one each; nothing is settled twice; lists are never rejected and results match their request id; with no timer armed nothing is pending |
| `GatewayRuns.OutcomesLast` | apps/server/src/agents/agents.gateway.ts:143-267 | Along every run a settled promise keeps its outcome |
| `GatewayRuns.RunKeepsWellFormed` | apps/server/src/agents/agents.gateway.ts:84-94 | Every run keeps the ledger sound and every pending or subscribed request id one the gateway generated for that purpose |
| `GatewayRuns.StepMoves` | apps/server/src/agents/agents.gateway.ts:116-566 | Each handler, call and timer changes the pending tables by one of six moves and no otherwise |
| `GatewayRuns.DisconnectExact` | apps/server/src/agents/agents.gateway.ts:116-138 | A disconnect settles every pending promise of that agent (list from the cache, commands and inspections rejected) and clears its timers; it touches no other entry, timer, promise or subscriber |
| `GatewayRuns.TimerFiresOwn` | apps/server/src/agents/agents.gateway.ts:163-166 | A timer that fires deletes the entry it was armed for, never a newer one, and settles that entry's unsettled promise |
| `GatewayRuns.ListSuperseded` | apps/server/src/agents/agents.gateway.ts:155-169 | A list request that supersedes a pending one answers that one from the cache, clears its timer, and leaves the new promise with a new timer in its place |
| `GatewayRuns.SettlingShrinks` | apps/server/src/agents/agents.gateway.ts:357-366 | A step that makes no promise lowers the number of unsettled ones by exactly the number it settles |
| `GatewayRuns.TimersDrain` | apps/server/src/agents/agents.gateway.ts:196-201 | Timers firing one after another settle one promise each; when all that were armed have fired nothing is pending |
| `GatewayRuns.StepObserves` | apps/server/src/agents/agents.gateway.ts:587-606 | A subscriber sees the chunks that arrive under its request id while it is subscribed, and no others |
| `GatewayRuns.NothingAfterStop` | apps/server/src/agents/agents.gateway.ts:322-335 | Nothing reaches onChunk after stopLogStream |
| `GatewayRuns.NothingAfterDisconnect` | apps/server/src/agents/agents.gateway.ts:337-344 | Nothing reaches onChunk after the disconnect of its agent |
| `Outstanding.OpenSound` | apps/server/src/agents/agents.gateway.ts:163-168 | Opening a free slot keeps entries, timers and unsettled promises in one-to-one correspondence |
| `Outstanding.CloseSound` | apps/server/src/agents/agents.gateway.ts:522-536 | Clearing the timer, deleting the entry and settling keeps the correspondence and settles that promise only |
| `Outstanding.SettledOnce` | apps/server/src/agents/agents.gateway.ts:196-225 | A promise keeps what it was settled with first, and every further attempt is counted |
| `Outstanding.ExpireCloses` | apps/server/src/agents/agents.gateway.ts:196-201 | In a sound ledger the timer callback, which deletes by key, does the same as closing its own entry |
| `Outstanding.RejectOneMore` | apps/server/src/agents/agents.gateway.ts:346-355 | Rejecting one more entry in the loop equals rejecting the larger set at once |
| `Outstanding.TablesMatch` | apps/server/src/agents/agents.gateway.ts:87-89 | As many entries as armed timers as unsettled promises |
| `AgentsGateway.AgentsGateway.RequestContainerList` | apps/server/src/agents/agents.gateway.ts:143-172 | New state and answer: the cache at once when not connected, otherwise a new promise after superseding the pending one |
| `AgentsGateway.AgentsGateway.SendContainerCommand` | apps/server/src/agents/agents.gateway.ts:177-226 | New state and answer: a rejection when not connected, otherwise a promise with its timer, entry and envelope |
| `AgentsGateway.AgentsGateway.InspectContainer` | apps/server/src/agents/agents.gateway.ts:228-267 | New state and answer, as for a command |
| `AgentsGateway.AgentsGateway.StartLogStream` | apps/server/src/agents/agents.gateway.ts:274-320 | New state: the subscriber and its envelope; throws when not connected |
| `AgentsGateway.AgentsGateway.StopLogStream` | apps/server/src/agents/agents.gateway.ts:322-335 | New state: the subscriber gone, and an unsubscribe sent if it was there and the agent is connected |
| `AgentsGateway.AgentsGateway.OnTimeout` | apps/server/src/agents/agents.gateway.ts:163-166 | The callbacks of the three kinds of timer |
| `AgentsGateway.AgentsGateway.RejectPendingCommandsForAgent` | apps/server/src/agents/agents.gateway.ts:346-355 | The loop that deletes while iterating rejects exactly the agent's commands, each once, whatever the order |
| `AgentsGateway.AgentsGateway.RejectPendingInspectsForAgent` | apps/server/src/agents/agents.gateway.ts:357-366 | The same for inspections |
| `AgentsGateway.AgentsGateway.UnsubscribeLogsForAgent` | apps/server/src/agents/agents.gateway.ts:337-344 | The loop drops exactly the agent's subscribers |
| `AgentsGateway.AgentsGateway.HandleDisconnect` | apps/server/src/agents/agents.gateway.ts:116-138 | The whole new state of a disconnect |
| `AgentsGateway.AgentsGateway.FinishRegister` | apps/server/src/agents/agents.gateway.ts:444-466 | What handleRegister does after the database has answered, which may be after the socket is gone |
| `AgentsGateway.AgentsGateway.HandleContainerListed` | apps/server/src/agents/agents.gateway.ts:481-506 | The inventory gets the parsed list, and the pending list of the socket's agent resolves with it |
| `AgentsGateway.AgentsGateway.HandleContainerResult` | apps/server/src/agents/agents.gateway.ts:508-537 | A result for a pending request id settles it, normalised; any other is ignored |
| `AgentsGateway.AgentsGateway.HandleContainerInspected` | apps/server/src/agents/agents.gateway.ts:539-566 | The same for an inspection |
| `AgentsGateway.AgentsGateway.HandleLogsChunk` | apps/server/src/agents/agents.gateway.ts:587-606 | A chunk goes to the subscriber of its request id, entries empty when not an array; any other is ignored |
| `AgentsGateway.AgentsGateway.HandleMessage` | apps/server/src/agents/agents.gateway.ts:368-425 | Dispatch on the message, with the replies to unreadable and incomplete ones |
| `AgentClient.Client.HandleServerMessage` | apps/agent/internal/communication/client.go:462-481 | What is written and what Docker is called with are what the envelope, read, asks for; log subscriptions are opened and closed |
| `AgentClient.Client.HandleContainerCommand` | apps/agent/internal/communication/client.go:561-643 | One result; one Docker call exactly when both ids are there and Docker is |
| `AgentClient.Client.HandleContainerInspect` | apps/agent/internal/communication/client.go:755-802 | One reply; one Docker call exactly when both ids are there and Docker is |
| `AgentClient.Client.HandleContainerList` | apps/agent/internal/communication/client.go:534-559 | An empty list without Docker, the listing, or nothing when listing fails |
| `AgentClient.Client.HandleLogsSubscribe` | apps/agent/internal/communication/client.go:483-517 | Succeeds exactly with both ids, Docker and an opened log; the open stream under the id is then on the container asked for, with a tail of 100 when not positive and following unless told not to; no other id is touched |
| `AgentClient.Client.HandleLogsUnsubscribe` | apps/agent/internal/communication/client.go:519-532 | The stream under the id is removed and closed |
| `AgentClient.Client.WaitRegistered` | apps/agent/internal/communication/client.go:306-333 | Reads up to the first acknowledgement and drops what comes before it; fails on a refusal, on one that does not parse, and when reading fails, at the deadline or on a closed connection, before any came |
| `AgentClient.Client.EndSession` | apps/agent/internal/communication/client.go:249-264 | Every stream is closed, its reader once, and the connection is gone |
| `AgentClient.ObeyWrites` | apps/agent/internal/communication/client.go:462-481 | The agent of the fleet and the handlers above make the same calls and write the same messages |
| `Debounce.NoLostWakeup` | apps/agent/internal/communication/client.go:350-404 | In every run of one session, an event that no listing has followed yet has a wakeup under way: held by the reader, timer armed or firing, token in the channel or with the loop |
| `Debounce.ListingsCounted` | apps/agent/internal/communication/client.go:381-393 | In every run, a burst of events leads to one listing: the loop lists at most once for each timer that fired, and a timer fires at most once for each event |
| `Debounce.StoppedTimerRests` | apps/agent/internal/communication/client.go:385-393 | Between a new event's stopping of the old timer and its arming of the new one no timer fires |
| `Debounce.ComesToRest` | apps/agent/internal/communication/client.go:453-456 | Once events stop, the pipeline comes to rest in a bounded number of steps, and at rest every event has been followed by a listing |
| `LogService.NoOrphanStreams` | apps/agent/internal/logs/service.go:41-145 | In every interleaving of Subscribe calls for distinct ids with Unsubscribe, UnsubscribeAll and Close at lock granularity: an open stream is in the map under its id, or held by the Subscribe about to insert it or by someone about to close it; readers are closed at most once; after Close every context is cancelled |
| `LogService.QuietRegistry` | apps/agent/internal/logs/service.go:110-122 | With nothing under way every open stream is in the map; with the map empty every reader has been closed exactly once |
| `LogService.OverlappingSubscribesOrphan` | apps/agent/internal/logs/service.go:69-77 | The discipline is needed: from the empty service, three overlapping Subscribe calls on one id can leave an open stream that nobody holds |
| `LogService.StepKeepsHeld` | apps/agent/internal/logs/service.go:41-107 | A stream that stays open changes hands and is never dropped |
| `LogService.StepKeepsStreamsSound` | apps/agent/internal/logs/stream.go:30-43 | No step closes a reader twice or leaves a closed stream's context running |
| `LogService.SubscribeReplaces` | apps/agent/internal/logs/service.go:41-85 | A Subscribe that nothing interrupts closes the stream that had the id, once, and puts the new one in its place; nothing else changes |
| `LogService.SubscribeFails` | apps/agent/internal/logs/service.go:41-67 | One that Docker refuses leaves no stream under the id, the old one closed |
| `LogService.PreviousReplaced` | apps/agent/internal/logs/service.go:69-77 | A stream put under the id in between is closed before the new one is stored |
| `LogService.UnsubscribeCloses` | apps/agent/internal/logs/service.go:88-107 | However calls interleave, when Unsubscribe returns the stream it found is closed, and it took no other out of the map |
| `LogService.UnsubscribeAllCloses` | apps/agent/internal/logs/service.go:110-145 | When UnsubscribeAll returns every stream it found is closed; when Close does every context is cancelled too |
| `LogService.RemoverFinishes` | apps/agent/internal/logs/service.go:110-122 | By its own steps alone, whatever else is under way, it gets there: as many as there are streams to close |
| `LogService.RemoversCloseTheirOwn` | apps/agent/internal/logs/service.go:88-122 | A stream is closed only by whoever took it out, or at its own end |
| `LogService.Stream.Close` | apps/agent/internal/logs/stream.go:30-43 | However often it is called, the stream is closed and its reader was closed once |
| `LogService.Service.Subscribe` | apps/agent/internal/logs/service.go:41-85 | Succeeds exactly with engine, emitter, both ids and an opened log; the stream that had the id is closed even on failure; no other id is touched |
| `LogService.Service.Unsubscribe` | apps/agent/internal/logs/service.go:88-107 | Removes and closes the stream under the id, or fails and changes nothing |
| `LogService.Service.UnsubscribeAll` | apps/agent/internal/logs/service.go:110-122 | Empties the map and closes every stream that was in it, each reader once |
| `LogService.Service.Close` | apps/agent/internal/logs/service.go:140-145 | The same, and the root context is cancelled |
| `Batching.BatchingConserves` | apps/agent/internal/logs/stream.go:60-128 | In every interleaving of decoder, ticker, cancel and error: decoded = chunks handed over ++ batch ++ channel ++ still to send; chunks are nonempty, at most a batch long, and never change once handed over |
| `Batching.HandedOver` | apps/agent/internal/logs/stream.go:101-128 | What was handed over is a prefix of what the reader decodes to; on return it is everything exactly when channel and decoder hold nothing back; a clean end hands over everything |
| `Batching.StepConserves` | apps/agent/internal/logs/stream.go:66-126 | The same for one step |
| `Batching.FailingLosesIff` | apps/agent/internal/logs/stream.go:106-115 | When the loop selects a read error of an uncancelled stream, everything decoded is handed over, then and for good, exactly when the channel is empty |
| `Batching.ReadErrorDropsBufferedEntries` | apps/agent/internal/logs/stream.go:106-115 | A run in which the error is selected while the channel holds an entry, which is then never sent |
| `Batching.NoDecoderLeak` | apps/agent/internal/logs/stream.go:66-77 | Once the loop has returned or the context is done, the decoder goroutine is never stuck |
| `Batching.CancelledEnds` | apps/agent/internal/logs/stream.go:60-77 | After a cancel, or the close when the loop returns, a stream that cannot go on has its loop returned and its decoder gone, in every run |
| `Batching.TickHandsOver` | apps/agent/internal/logs/stream.go:125-126 | In every run, after a tick the chunks handed over are all but what is in the channel or not yet decoded |
| `Batching.LeftAloneDrains` | apps/agent/internal/logs/stream.go:60-128 | A clean stream that is left alone gets done in a bounded number of steps, however the ticks fall, and has then handed over everything decoded |
| `Batching.OpenedStreamDrains` | apps/agent/internal/logs/stream.go:60-128 | So from its opening on, in at most three steps an entry and three more |
| `Batching.BatchLoop.Flush` | apps/agent/internal/logs/stream.go:83-99 | The batch becomes a chunk of its own copy and is emptied; earlier chunks are untouched by reuse of its array |
| `Batching.BatchLoop.Take` | apps/agent/internal/logs/stream.go:116-124 | The entry joins the batch, which is flushed when full; nothing taken is lost |
| `Batching.BatchLoop.Handle` | apps/agent/internal/logs/stream.go:101-127 | One case of the select: an entry joins, a tick and every ending leave nothing in the batch, and whether the loop ends |
| `Batching.BatchLoop.Run` | apps/agent/internal/logs/stream.go:101-128 | The loop hands over exactly the entries received up to the event that ends it, and at every tick all that it had received by then |
| `Decode.DecodeLogStream` | apps/agent/internal/logs/decode.go:19-34 | The callback gets exactly the entries the input spells, cut where it refuses one; and the error is its own, or the reader's and where it was met: the peek, a frame's header or payload, or a line |
| `Decode.DecodeMultiplexed` | apps/agent/internal/logs/decode.go:51-79 | The frame loop emits the lines of the complete frames, in order and under their stream names |
| `Decode.DecodePlainLines` | apps/agent/internal/logs/decode.go:81-96 | Line by line, the same entries as the whole payload |
| `Decode.EmitLines` | apps/agent/internal/logs/decode.go:98-113 | Splitting the normalised payload emits one entry per line; only a trailing empty segment is dropped |
| `Decode.MultiplexRoundTrip` | apps/agent/internal/logs/decode.go:51-79 | Decoding any byte prefix of encoded frames gives exactly the entries of the frames complete in it; the whole encoding gives all frames |
| `Decode.FramesInPrefix` | apps/agent/internal/logs/decode.go:51-79 | The frames found in a byte prefix are the complete ones |
| `Decode.BigEndianRoundTrip` | apps/agent/internal/logs/decode.go:62-62 | Reading the four size bytes gives the size, for every size under 2^32 |
| `Decode.PartsArePieces` | apps/agent/internal/logs/decode.go:98-113 | Replacing CRLF, splitting and dropping the trailing empty part gives the same entries as cutting the raw text after each LF and trimming: interior blank lines survive |
| `Decode.LineEntriesAppend` | apps/agent/internal/logs/decode.go:81-113 | The entries of p ++ q are those of p followed by those of q, when p ends in a newline |
| `Decode.PiecesPartition` | apps/agent/internal/logs/decode.go:98-113 | The pieces a payload is cut into concatenate to it |
| `Decode.PiecesCutAtLf` | apps/agent/internal/logs/decode.go:98-113 | They are cut after LFs and nowhere else |
| `Decode.TextStreamDecoded` | apps/agent/internal/logs/decode.go:19-34 | A stream that does not look multiplexed gives its lines exactly when it is empty or has at least eight bytes |
| `Decode.OutputDecoded` | apps/agent/internal/logs/decode.go:51-79 | From the writer's side: of output wrapped in frames, coded 0 or 1 for stdout and 2 for stderr, any prefix of the bytes decodes to the lines of the frames complete in it, each under the stream it was written to |
| `Decode.MultiplexedHeaders` | apps/agent/internal/logs/decode.go:36-49 | A header is taken for a frame's exactly when it is a code up to 2, three zeros and four bytes of size |
| `Decode.TextLinesDecoded` | apps/agent/internal/logs/decode.go:19-34 | What this agent asks for is decoded whole: a text stream of lines, with an RFC 3339 time in front or without, yields every line under stdout, with its time, if any, and its text less the CRs at its end |
| `Decode.WrittenLinesParsed` | apps/agent/internal/logs/decode.go:98-138 | The same for the lines of any payload, so also in frames |
| `Decode.TrimmedIs` | apps/agent/internal/logs/decode.go:98-113 | Trimming a line keeps the longest prefix that does not end in a CR or LF |
| `Decode.ShortStreamDropped` | apps/agent/internal/logs/decode.go:21-25 | A stream that ends within its first eight bytes gives nothing, though it is not empty |
| `Rotation.RotatingFile.Write` | apps/agent/internal/logger/rotate.go:81-106 | New state, bytes accepted and error: rotation first when full, and a fall back to the open file when rotation fails |
| `Rotation.RotatingFile.RotateFiles` | apps/agent/internal/logger/rotate.go:110-135 | The descending rename loop does what shifting every generation up by one does, with each step allowed to fail |
| `Rotation.RotatingFile.OpenFile` | apps/agent/internal/logger/rotate.go:57-78 | Appends to what is there, starting from its size |
| `Rotation.RotatingFile.Close` | apps/agent/internal/logger/rotate.go:138-148 | The files stay as they are, and nothing written afterwards is ever stored |
| `Rotation.RotationLoses` | apps/agent/internal/logger/rotate.go:110-135 | For every disk and all faults: a rotation loses exactly the oldest file and each stuck file that the next younger one is renamed onto; the rest keeps its order |
| `Rotation.RotateKeepsNewestIff` | apps/agent/internal/logger/rotate.go:110-135 | Of distinct writes a rotation keeps the newest, and only those, exactly when nothing it loses is newer than something it keeps |
| `Rotation.RunConservesHistory` | apps/agent/internal/logger/rotate.go:81-135 | While rotations lose only what is older than all they keep: over every run, path.keep ++ ... ++ path.1 ++ path is after every call a suffix of the initial contents plus all writes that reached a descriptor, cut at file boundaries, no write split or reordered, also when renaming the current file fails |
| `Rotation.RunConservesHistoryIff` | apps/agent/internal/logger/rotate.go:81-135 | And for distinct writes only then |
| `Rotation.RunKeepsOrder` | apps/agent/internal/logger/rotate.go:81-135 | Whatever fails, in every run the files hold writes of the history in its order, none split and none twice |
| `Rotation.HistoryHoldsEveryLine` | apps/agent/internal/logger/rotate.go:86-105 | While closing, reopening and writing succeed the history is the initial contents plus every line offered, whole |
| `Rotation.StuckRenameLosesTheMiddle` | apps/agent/internal/logger/rotate.go:121-126 | A disk on which it fails: a stuck `.1` is overwritten while the older `.2` survives |
| `Rotation.RotationBounded` | apps/agent/internal/logger/rotate.go:110-135 | A successful rotation keeps the bound and leaves an empty current file |
| `Rotation.RunBounded` | apps/agent/internal/logger/rotate.go:86-105 | With keep >= 1 and successful rotations: `size` is the current file's length, at most keep+1 files exist, and each is at most maxBytes unless it is one oversized write or was inherited at open |
| `Rotation.LineKeptIff` | apps/agent/internal/logger/rotate.go:86-99 | A write reaches the current file exactly when the writer is usable and, if a rotation was due, closing and reopening worked; otherwise nothing is written and the writer is unusable |
| `Rotation.ClosedForEver` | apps/agent/internal/logger/rotate.go:112-114 | A writer whose reopening failed changes nothing ever again |
| `Rotation.FittingLineStays` | apps/agent/internal/logger/rotate.go:81-106 | A line that fits leaves the generations alone and joins the current file, whatever would fail in a rotation |
| `Rotation.FullLineRotates` | apps/agent/internal/logger/rotate.go:86-99 | A line that does not fit starts a new current file when nothing fails, and is all that is in it |
| `Rotation.HealthyRotation` | apps/agent/internal/logger/rotate.go:110-135 | Without failures a rotation moves every generation up by one, drops the oldest, and empties the current file |
| `Rotation.OpenCreates` | apps/agent/internal/logger/rotate.go:57-78 | Opening creates the current file if it is missing and touches no other; size and descriptor change only on success |
| `ServerUrl.ReplaceServerURL` | apps/cli/cmd/internal/agent/install/config.go:427-472 | The loop finds the line, rewrites it in place and joins; fails when there is none |
| `ServerUrl.ReadServerURL` | apps/cli/cmd/internal/agent/install/config.go:325-373 | The scanner loop returns the value of the same line, trimmed of spaces and quotes |
| `ServerUrl.ReplaceIffRead` | apps/cli/cmd/internal/agent/install/config.go:325-472 | Replacing succeeds exactly when the reader finds a URL |
| `ServerUrl.OnlyUrlLineChanges` | apps/cli/cmd/internal/agent/install/config.go:437-468 | One line changes, to the indented, quoted URL followed by the ending it had, LF, CRLF or none; every other line is byte for byte the same |
| `ServerUrl.PutPut` | apps/cli/cmd/internal/agent/install/config.go:427-472 | Replacing twice equals replacing once with the second URL |
| `ServerUrl.PutGet` | apps/cli/cmd/internal/agent/install/config.go:325-472 | Reading after replacing gives the URL exactly when quoting leaves it unescaped and it neither starts nor ends with an apostrophe |
| `PlatformUrl.NormalisedReadsBack` | apps/cli/cmd/internal/agent/install/config.go:179-227 | A URL that the commands normalise and write reads back exactly when its host holds no double quote, whatever else was typed |
| `PlatformUrl.EndpointAtEnd` | apps/cli/cmd/internal/agent/install/config.go:209-218 | However many slashes, dots and endpoints are typed, the path ends in `/agents`, a segment of its own |
| `PlatformUrl.HostUnescaped` | apps/cli/cmd/internal/agent/install/config.go:220-226 | Of all the characters that a host keeps when the URL is written out, quoting escapes only the double quote |
| `ServerUrl.QuoteInHostNotRead` | apps/cli/cmd/internal/agent/install/config.go:365-365 | A URL with a double quote in its host, which normalising keeps, does not read back |
| `ServerUrl.RenderedConfigRead` | apps/cli/cmd/internal/agent/install/config.go:278-289 | In a generated configuration the reader finds the URL it was generated for, under the same condition, whatever the other settings hold |
| `ServerUrl.ScannedAlike` | apps/cli/cmd/internal/agent/install/config.go:339-347 | The reader's scanned lines and the editor's stripped lines are classified alike, carriage returns included |
| `ServerUrl.QuoteReadsBack` | apps/cli/cmd/internal/agent/install/config.go:365-365 | Trimming the quotes off a quoted URL gives the URL exactly under that condition |
| `ServerUrl.SplitJoined` | apps/cli/cmd/internal/agent/install/config.go:429-468 | Joining lines and splitting after LF again gives the same lines |
| `ServerUrl.FirstUrlTaken` | apps/cli/cmd/internal/agent/install/config.go:325-373 | In any file: both programs take the first `url` key whose last section header before it is the server's, and find one exactly when there is such a key |
| `ServerUrl.LineRead` | apps/cli/cmd/internal/agent/install/config.go:341-364 | What a line is: nothing or a comment, a section header in column zero, a key behind a space or a tab, whatever blanks and line ends are around it |
| `ServerUrl.ValueRead` | apps/cli/cmd/internal/agent/install/config.go:365-365 | The value of the key is read without the blanks and then the quotes, of either kind or none, around it |
| `ServerUrl.QuoteMeans` | apps/cli/cmd/internal/agent/install/config.go:464-466 | Whatever the URL holds, the text written for it means that URL to a reader of double-quoted text, such as the YAML parser of the agent, also where ReadServerURL does not read it back |
| `PlatformUrl.DocumentedForm` | apps/cli/cmd/internal/agent/install/config.go:179-227 | http becomes ws and https wss; the host is kept; the typed path is kept, however many slashes around it, with `/agents` behind it, once |
| `PlatformUrl.DocumentedHost` | apps/cli/cmd/internal/agent/install/config.go:179-227 | A host without a path gets `/agents` |
| `PlatformUrl.BareHostIsSecure` | apps/cli/cmd/internal/agent/install/config.go:187-191 | What is typed without `://` is taken with `https://` in front, and with it as it is |
| `PlatformUrl.SchemeCase` | apps/cli/cmd/internal/agent/install/config.go:230-246 | The letters of a scheme may be of either case, and no scheme but the four is accepted |
| `PlatformUrl.TypedPathKept` | apps/cli/cmd/internal/agent/install/config.go:209-218 | However many slashes are typed around it, a path is kept segment by segment |
| `PlatformUrl.DotsResolved` | apps/cli/cmd/internal/agent/install/config.go:209-218 | Empty segments and dots are dropped, and two dots take the segment before them along |
| `PlatformUrl.EndpointOnce` | apps/cli/cmd/internal/agent/install/config.go:209-218 | Normalising a path again changes nothing |
| `PlatformUrl.OthersEncoded` | apps/cli/cmd/internal/agent/install/config.go:220-226 | What a path or a host cannot hold is percent-encoded |
| `LogView.SplitCharacterised` | apps/web/src/hooks/useContainerLogs.ts:119-128 | The frames and the leftover are the only clean frames and separator-free leftover that spell the text: the leftmost blank-line split |
| `LogView.FramesAppend` | apps/web/src/hooks/useContainerLogs.ts:108-129 | However the text is cut into reads, the frames handled and the leftover are the same |
| `LogView.RestHasNoSeparator` | apps/web/src/hooks/useContainerLogs.ts:122-128 | The leftover never contains a separator |
| `LogView.ViewIsTransparent` | apps/web/src/hooks/useContainerLogs.ts:61-167 | Over reads, pause toggles and clears in any order: never more than 5000 shown or buffered, and unpaused the view shows the last 5000 received since the last clear, as if never paused and read in one piece |
| `LogView.HandleFrame` | apps/web/src/hooks/useContainerLogs.ts:186-210 | Of a frame as a sender writes it: the entries of its data lines, joined, exactly when its last event line says logs.chunk and it has data, whatever blanks are around them and whatever other lines there are; otherwise nothing |
| `LogView.FrameRead` | apps/web/src/hooks/useContainerLogs.ts:186-210 | The same of the function it is tied to |
| `LogView.ServerTextShown` | apps/web/src/hooks/useContainerLogs.ts:108-129 | From the server's text: however it is cut into reads, and whenever the view was paused and resumed, unpaused it shows the last 5000 entries of the chunks that have come in whole |
| `LogView.PausedShows` | apps/web/src/hooks/useContainerLogs.ts:147-161 | The view is paused after an odd number of toggles, and shows meanwhile what it showed when it was paused, until it is cleared |
| `LogView.LogStreamView.PushEntries` | apps/web/src/hooks/useContainerLogs.ts:61-72 | Entries go to the view or, while paused, to the buffer, the newest MAX_ENTRIES kept |
| `LogView.LogStreamView.OnRead` | apps/web/src/hooks/useContainerLogs.ts:119-128 | The nested loops handle every complete frame and keep the leftover |
| `LogView.LogStreamView.TogglePause` | apps/web/src/hooks/useContainerLogs.ts:147-161 | Resuming moves the buffer to the view |
| `ContainerListed.ParseContainerSummary` | apps/server/src/agents/container-listed.parser.ts:70-98 | A summary with every required field, its readable ports in order; null otherwise |
| `ContainerListed.ParseContainerListedPayload` | apps/server/src/agents/container-listed.parser.ts:105-123 | The readable summaries in order, with kept + dropped the length of the list; nothing without a list |
| `ContainerListed.SummaryRead` | apps/server/src/agents/container-listed.parser.ts:70-98 | A summary is read exactly when all required fields are there with their types, each as its own part, whatever becomes of its ports |
| `ContainerListed.PortRead` | apps/server/src/agents/container-listed.parser.ts:26-41 | A port of the protocol is read as it is, without an address that is missing, empty or no string |
| `ContainerListed.LegacyPortRead` | apps/server/src/agents/container-listed.parser.ts:43-61 | One of the SDK is read with its public port printed, empty when missing or zero |
| `ContainerListed.DecimalSpells` | apps/server/src/agents/container-listed.parser.ts:50-52 | A port number is printed in the digits that spell it |
| `ContainerListed.PositionsComplete` | apps/server/src/agents/container-listed.parser.ts:112-121 | What is kept stands at increasing positions that leave out exactly the unreadable entries |
| `ContainerListed.KeptInOrder` | apps/server/src/agents/container-listed.parser.ts:112-121 | Each kept entry is the parse of the entry at its position |
| `ContainerListed.PortFixpoint` | apps/server/src/agents/container-listed.parser.ts:21-64 | A port survives its own JSON exactly when its number is finite and its address is not the empty string |
| `ContainerListed.AcceptedIsFixpoint` | apps/server/src/agents/container-listed.parser.ts:105-123 | Whatever was received, reparsing what was accepted returns it unchanged with nothing dropped |
| `ContainerListed.PortsFromList` | apps/agent/internal/docker/ports.go:14-29 | Each Docker port mapped, in order |
| `ContainerListed.PortFormatsAgree` | apps/server/src/agents/container-listed.parser.ts:26-61 | The SDK-cased JSON of a Docker port and the protocol JSON of the agent's mapping of it parse to the same port |
| `ContainerListed.PortListsAgree` | apps/agent/internal/docker/ports.go:14-29 | So do whole lists, and no port is lost |
| `Inventory.LookupsAgree` | apps/server/src/agents/container-inventory.service.ts:20-66 | With hosts and agents one-to-one, after any interleaving: lookup by host and by uuid agree on the list that agent reported last, empty if none, and nothing only if no call tied it to its host |
| `Inventory.RunMirrors` | apps/server/src/agents/container-inventory.service.ts:20-54 | Both maps know the same agents, each under its own host: no remembered uuid dangles |
| `Inventory.SharedHostMixesAgents` | apps/server/src/agents/container-inventory.service.ts:35-54 | Without the correspondence, a second agent on a host answers for the first |
| `Inventory.ContainerInventoryService.Remember` | apps/server/src/agents/container-inventory.service.ts:20-33 | New state: the uuid tied to the host, its list kept |
| `Inventory.ContainerInventoryService.Set` | apps/server/src/agents/container-inventory.service.ts:35-54 | New state and answer: stored under the given or remembered host; null and unchanged when there is none |
| `Inventory.ContainerInventoryService.GetByUuid` | apps/server/src/agents/container-inventory.service.ts:60-66 | Lookup by uuid through the remembered host |

## Left out

- Clocks and durations: an armed timer may fire at any moment, and RFC 3339 parsing is an abstract parser of the first word.
- JSON text, UTF-8 and the line-length limit of bufio.Scanner: messages and configuration lines are values.
- handleRegister's database call, host metrics, authentication, the database itself and the HTTP layer above the gateway.
- The text of thrown errors: a promise is rejected for want of a connection, for a disconnect or for a timeout. The messages and errors inside results and refusals are modelled.
- The Docker call and the reply to it are one step of an agent; a connection lost in between is one lost just after, with the reply dropped.
- The SDK's own handling of Docker's answers: an answer is an arbitrary success or error text, and listings, details and log bytes are arbitrary.
- In the fleet, unsubscribing and the end of a session cancel log streams only as steps a stream may take at any time; that they do cancel them is stated for the agent's handlers and its registry.
- The agent's session loop waits between connections and sends heartbeats and metrics on tickers: a fleet agent may connect again, beat or list at any moment.
- The order of a log while an agent has two live sockets, a uuid that changes on a socket, and request ids that the gateway did not generate in the end-to-end results; the gateway's own results hold for all of them.
- Several Subscribe calls at once for one request id, except in `LogService.OverlappingSubscribesOrphan`.
- The file system under the rotating log beyond one directory of whole files: a file is the sequence of writes it holds, and its length is their total.
- `flush` with no emitter: Subscribe refuses to start a stream without one (service.go:59).
- `updatedAt` of an inventory snapshot.
- The server's encoder of event streams, which is a library's; React's status, error and counter fields; reconnecting from the page.
- Writing the configuration file to disk. net/url's parser of what was typed is abstract, and so are the bytes that it percent-encodes a character as.
- Listing failures in the debounced pipeline: a listing there is one that the loop attempted.
- ServerUrl.RenderedConfigRead: assumes that the restart command in the template's comment is one line, as it is for every service name the installer uses.
- Reconnect backoff, installers, service control, release download, and the obfuscated api.js.
