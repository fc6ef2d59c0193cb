/** The server's side of the agent protocol: apps/server/src/agents/agents.gateway.ts, as a state machine
    whose steps are the gateway's methods, its handlers and its timers. */
module Gateway {
  import opened Prelude
  import opened ContainerListed
  import opened Decode
  import opened Inventory
  import opened Protocol
  import opened Outstanding

  type SocketId = nat

  /** A socket: its readyState, the fields the gateway sets on it ("" and None where undefined), and
      everything sent over it so far. */
  datatype Client = Client(open: bool, agentUuid: string, agentId: Option<string>, sent: seq<Envelope>)

  datatype Subscriber = Subscriber(agent: string, container: string)

  /** One call of a subscriber's onChunk. */
  datatype Seen = Seen(container: string, entries: seq<Entry>)

  /** What a request id was generated for. */
  datatype Order =
    | CommandOrder(action: Action, container: string, force: bool)
    | InspectOrder(container: string)
    | LogOrder(container: string, tail: int, follow: bool)

  /** Which envelope carries the order: the one at `index` on `socket`. */
  datatype Issue = Issue(socket: SocketId, index: nat, order: Order)

  datatype State = State(
    sockets: map<string, SocketId>,
    clients: map<SocketId, Client>,
    ledger: Ledger,
    subscribers: map<string, Subscriber>,
    observed: map<string, seq<Seen>>,
    inventory: Tables,
    issued: map<string, Issue>)

  const INITIAL: State := State(map[], map[], NOTHING, map[], map[], Inventory.EMPTY, map[])

  datatype Event =
    | Connects(socket: SocketId)
    | Closes(socket: SocketId)                                  // readyState leaves OPEN
    | Disconnects(socket: SocketId)
    | Receives(socket: SocketId, message: AgentMessage)
    | Registers(socket: SocketId, uuid: string, id: string)     // handleRegister, after its await
    | AsksList(agent: string, host: string)
    | SendsCommand(agent: string, host: string, action: Action, container: string, force: bool, request: string)
    | AsksInspect(agent: string, host: string, container: string, request: string)
    | StartsLogs(agent: string, host: string, container: string, tail: int, follow: bool, request: string)
    | StopsLogs(request: string)
    | TimerFires(timer: TimerId)

  // ---------- the steps ----------

  function Connected(g: State, agent: string): Option<SocketId> {
    if agent in g.sockets && g.sockets[agent] in g.clients && g.clients[g.sockets[agent]].open
    then Some(g.sockets[agent]) else None
  }

  function Sending(c: Client, e: Envelope): Client {
    if c.open then c.(sent := c.sent + [e]) else c
  }

  function Post(g: State, s: SocketId, e: Envelope): State {
    if s in g.clients then g.(clients := g.clients[s := Sending(g.clients[s], e)]) else g
  }

  function Remembering(g: State, host: string, agent: string): State {
    g.(inventory := RememberHost(g.inventory, host, agent))
  }

  function CachedByUuid(g: State, agent: string): seq<ContainerSummary> { Containers(ByUuid(g.inventory, agent)) }

  function CachedByHost(g: State, host: string): seq<ContainerSummary> { Containers(ByHostId(g.inventory, host)) }

  function AskList(g: State, agent: string, host: string): State {
    var k := Remembering(g, host, agent);
    match Connected(k, agent)
    case None => k
    case Some(s) =>
      var freed := Close(k.ledger, ForList(agent), Listing(CachedByUuid(k, agent)));
      Post(k.(ledger := Open(freed, ForList(agent), agent, host)), s, ListEnvelope())
  }

  /** Record the fresh request id and send the envelope that carries it. */
  function Issuing(g: State, s: SocketId, request: string, order: Order, e: Envelope): State {
    if s !in g.clients then g
    else Post(g.(issued := g.issued[request := Issue(s, |g.clients[s].sent|, order)]), s, e)
  }

  function SendCommand(g: State, agent: string, host: string, action: Action, container: string, force: bool,
                       request: string): State
  {
    var k := Remembering(g, host, agent);
    match Connected(k, agent)
    case None => k
    case Some(s) =>
      Issuing(k.(ledger := Open(k.ledger, ForCommand(request), agent, host)), s, request,
              CommandOrder(action, container, force), CommandEnvelope(action, request, container, force))
  }

  function AskInspect(g: State, agent: string, host: string, container: string, request: string): State {
    var k := Remembering(g, host, agent);
    match Connected(k, agent)
    case None => k
    case Some(s) =>
      Issuing(k.(ledger := Open(k.ledger, ForInspect(request), agent, host)), s, request,
              InspectOrder(container), InspectEnvelope(request, container))
  }

  function StartLogs(g: State, agent: string, host: string, container: string, tail: int, follow: bool, request: string): State {
    var k := Remembering(g, host, agent);
    match Connected(k, agent)
    case None => k
    case Some(s) =>
      Issuing(k.(subscribers := k.subscribers[request := Subscriber(agent, container)]), s, request,
              LogOrder(container, tail, follow), SubscribeEnvelope(request, container, tail, follow))
  }

  function StopLogs(g: State, request: string): State {
    if request !in g.subscribers then g
    else
      var k := g.(subscribers := g.subscribers - {request});
      match Connected(k, g.subscribers[request].agent)
      case None => k
      case Some(s) => Post(k, s, UnsubscribeEnvelope(request))
  }

  function ExpiredOutcome(g: State, t: Timeout): Outcome {
    if t.slot.ForList? then Listing(CachedByHost(g, t.host)) else Rejected(TimedOut)
  }

  function Fire(g: State, timer: TimerId): State {
    if timer !in g.ledger.timers then g
    else g.(ledger := Expire(g.ledger, timer, ExpiredOutcome(g, g.ledger.timers[timer])))
  }

  function CommandSlots(l: Ledger, agent: string): set<Slot> {
    set slot | slot in l.entries && slot.ForCommand? && l.entries[slot].agent == agent
  }

  function InspectSlots(l: Ledger, agent: string): set<Slot> {
    set slot | slot in l.entries && slot.ForInspect? && l.entries[slot].agent == agent
  }

  /** A ledger once the agent has gone: its list is answered from the cache, its commands and its
      inspections are rejected. */
  function AgentGone(l: Ledger, agent: string, cached: seq<ContainerSummary>): Ledger {
    var a := Close(l, ForList(agent), Listing(cached));
    var b := RejectAll(a, CommandSlots(a, agent));
    RejectAll(b, InspectSlots(b, agent))
  }

  function SubscribersExcept(m: map<string, Subscriber>, agent: string): map<string, Subscriber> {
    map request | request in m && m[request].agent != agent :: m[request]
  }

  function Closed(g: State, s: SocketId): State {
    if s in g.clients then g.(clients := g.clients[s := g.clients[s].(open := false)]) else g
  }

  function Disconnect(g: State, s: SocketId): State {
    var k := Closed(g, s);
    if s !in g.clients || g.clients[s].agentUuid == "" then k
    else
      var agent := g.clients[s].agentUuid;
      k.(sockets := k.sockets - {agent},
         ledger := AgentGone(k.ledger, agent, CachedByUuid(k, agent)),
         subscribers := SubscribersExcept(k.subscribers, agent))
  }

  function Register(g: State, s: SocketId, uuid: string, id: string): State {
    if s !in g.clients then g
    else
      var k := Remembering(g.(clients := g.clients[s := g.clients[s].(agentUuid := uuid, agentId := Some(id))],
                              sockets := g.sockets[uuid := s]), id, uuid);
      Post(Post(k, s, RegisteredEnvelope(id, uuid, "")), s, ListEnvelope())
  }

  function Beat(g: State, s: SocketId, uuid: string): State {
    if uuid == "" || s !in g.clients then g
    else g.(clients := g.clients[s := g.clients[s].(agentUuid := uuid)], sockets := g.sockets[uuid := s])
  }

  function ReceiveList(g: State, s: SocketId, listing: Json): State {
    if s !in g.clients || g.clients[s].agentUuid == "" then g
    else
      var c, containers := g.clients[s], Kept(Items(listing));
      g.(inventory := SetContainers(g.inventory, c.agentUuid, containers, c.agentId),
         ledger := Close(g.ledger, ForList(c.agentUuid), Listing(containers)))
  }

  function Normalised(p: ResultPayload): CommandResult {
    CommandResult(p.requestId, p.action, p.containerId, p.ok, if p.message.Some? then p.message.value else "", p.error)
  }

  function NormalisedInspection(p: InspectedPayload): InspectResult {
    InspectResult(p.requestId, p.container, p.ok, p.error)
  }

  function ReceiveResult(g: State, p: ResultPayload): State {
    if p.requestId == "" then g
    else g.(ledger := Close(g.ledger, ForCommand(p.requestId), Commanded(Normalised(p))))
  }

  function ReceiveInspected(g: State, p: InspectedPayload): State {
    if p.requestId == "" then g
    else g.(ledger := Close(g.ledger, ForInspect(p.requestId), Inspection(NormalisedInspection(p))))
  }

  function Observed(g: State, request: string): seq<Seen> {
    if request in g.observed then g.observed[request] else []
  }

  function ReceiveChunk(g: State, p: ChunkPayload): State {
    if p.requestId == "" || p.requestId !in g.subscribers then g
    else
      var seen := Seen(p.containerId, if p.entries.Some? then p.entries.value else []);
      g.(observed := g.observed[p.requestId := Observed(g, p.requestId) + [seen]])
  }

  function Receive(g: State, s: SocketId, m: AgentMessage): State {
    match m
    case Garbled => Post(g, s, RegisteredEnvelope("", "", "Invalid JSON message"))
    case Register(uuid, hostname, os) =>
      // A valid registration waits for the database; Registers is the rest of it.
      if uuid == "" || hostname == "" || os == ""
      then Post(g, s, RegisteredEnvelope("", uuid, "Invalid registration payload")) else g
    case Heartbeat(uuid) => Beat(g, s, uuid)
    case Listed(listing) => ReceiveList(g, s, listing)
    case Result(p) => ReceiveResult(g, p)
    case Inspected(p) => ReceiveInspected(g, p)
    case Chunk(p) => ReceiveChunk(g, p)
    case Ignored => g
  }

  function Next(g: State, e: Event): State {
    match e
    case Connects(s) => g.(clients := g.clients[s := Client(true, "", None, [])])
    case Closes(s) => Closed(g, s)
    case Disconnects(s) => Disconnect(g, s)
    case Receives(s, m) => Receive(g, s, m)
    case Registers(s, uuid, id) => Register(g, s, uuid, id)
    case AsksList(agent, host) => AskList(g, agent, host)
    case SendsCommand(agent, host, action, container, force, request) =>
      SendCommand(g, agent, host, action, container, force, request)
    case AsksInspect(agent, host, container, request) => AskInspect(g, agent, host, container, request)
    case StartsLogs(agent, host, container, tail, follow, request) =>
      StartLogs(g, agent, host, container, tail, follow, request)
    case StopsLogs(request) => StopLogs(g, request)
    case TimerFires(t) => Fire(g, t)
  }

  /** randomUUID returns an id never returned before. */
  predicate NewId(g: State, request: string) { request != "" && request !in g.issued }

  /** Nothing is assumed of the messages that arrive, nor of when. */
  predicate Enabled(g: State, e: Event) {
    match e
    case Connects(s) => s !in g.clients
    case SendsCommand(_, _, _, _, _, request) => NewId(g, request)
    case AsksInspect(_, _, _, request) => NewId(g, request)
    case StartsLogs(_, _, _, _, _, request) => NewId(g, request)
    case TimerFires(t) => t in g.ledger.timers
    case _ => true
  }

  ghost predicate Run(g: State, events: seq<Event>, h: State)
    decreases |events|
  {
    if events == [] then g == h
    else Enabled(g, events[0]) && Run(Next(g, events[0]), events[1..], h)
  }
}
