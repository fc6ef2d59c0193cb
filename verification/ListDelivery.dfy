/** Container lists, end to end: what requestContainerList resolves with was listed by the very agent asked, or
    is empty, when agents and host ids correspond one to one. */
module ListDelivery {
  import Batching
  import opened Prelude
  import opened ContainerListed
  import opened Inventory
  import opened Protocol
  import opened Outstanding
  import opened Gateway
  import opened Connection
  import opened GatewayRuns
  import opened Fleet
  import opened Identity
  import opened CommandDelivery

  // ---------- what agents list ----------

  /** In this step the agent sends a container list. */
  ghost predicate Tells(w: World, step: Step, agent: string, listing: Json) {
    exists s :: s in w.links && w.links[s].agent == agent && s in NextWorld(w, step).links
                && NextWorld(w, step).links[s].up == w.links[s].up + [Listed(listing)]
  }

  ghost predicate Told(w: World, steps: seq<Step>, agent: string, listing: Json)
    decreases |steps|
  {
    steps != [] && (Tells(w, steps[0], agent, listing) || Told(NextWorld(w, steps[0]), steps[1..], agent, listing))
  }

  /** A run, from its first world. */
  datatype History = History(start: World, steps: seq<Step>)

  /** The agent listed these containers in the run, or there are none. */
  ghost predicate Reported(h: History, agent: string, containers: seq<ContainerSummary>) {
    containers == [] || exists listing :: Told(h.start, h.steps, agent, listing) && containers == Kept(Items(listing))
  }

  ghost predicate Genuine(h: History, agent: string, m: AgentMessage) {
    m.Listed? ==> Reported(h, agent, Kept(Items(m.listing)))
  }

  ghost predicate LaneGenuine(h: History, l: Link) {
    forall i :: 0 <= i < |l.up| ==> Genuine(h, l.agent, l.up[i])
  }

  // ---------- one host per agent ----------

  /** The callers name each agent's own host. */
  predicate Tied(hostOf: map<string, string>, e: Event) {
    match e
    case Registers(_, uuid, id) => uuid in hostOf && id == hostOf[uuid]
    case AsksList(agent, host) => agent in hostOf && host == hostOf[agent]
    case SendsCommand(agent, host, _, _, _, _) => agent in hostOf && host == hostOf[agent]
    case AsksInspect(agent, host, _, _) => agent in hostOf && host == hostOf[agent]
    case StartsLogs(agent, host, _, _, _, _) => agent in hostOf && host == hostOf[agent]
    case _ => true
  }

  ghost predicate TiedRun(hostOf: map<string, string>, steps: seq<Step>) {
    forall i :: 0 <= i < |steps| && steps[i].Serves? ==> Tied(hostOf, steps[i].event)
  }

  /** The cache under an agent's host holds what that agent listed. */
  ghost predicate CacheGenuine(h: History, hostOf: map<string, string>, t: Tables) {
    && (forall u :: u in t.hostIdByUuid ==> u in hostOf && t.hostIdByUuid[u] == hostOf[u])
    && (forall a :: a in hostOf && hostOf[a] in t.byHostId ==> Reported(h, a, t.byHostId[hostOf[a]].containers))
  }

  /** A socket's id is its agent's host. */
  ghost predicate IdTied(hostOf: map<string, string>, agent: string, id: Option<string>) {
    id.Some? ==> agent in hostOf && id.value == hostOf[agent]
  }

  ghost predicate TimerTied(hostOf: map<string, string>, t: Timeout) {
    t.slot.ForList? ==> t.slot.agent in hostOf && t.host == hostOf[t.slot.agent]
  }

  ghost predicate OutcomeGenuine(h: History, slot: Slot, o: Outcome) {
    slot.ForList? ==> o.Listing? && Reported(h, slot.agent, o.containers)
  }

  ghost predicate TimersTied(hostOf: map<string, string>, l: Ledger) {
    forall t :: t in l.timers ==> TimerTied(hostOf, l.timers[t])
  }

  ghost predicate OutcomesGenuine(h: History, l: Ledger) {
    forall p :: p in l.outcomes && p in l.promises ==> OutcomeGenuine(h, l.promises[p], l.outcomes[p])
  }

  ghost predicate IdsTied(hostOf: map<string, string>, w: World) {
    forall s :: s in w.links && s in w.g.clients ==> IdTied(hostOf, w.links[s].agent, w.g.clients[s].agentId)
  }

  ghost predicate LanesGenuine(h: History, w: World) {
    forall s :: s in w.links ==> LaneGenuine(h, w.links[s])
  }

  ghost predicate GatewayGenuine(h: History, hostOf: map<string, string>, g: State) {
    CacheGenuine(h, hostOf, g.inventory) && TimersTied(hostOf, g.ledger) && OutcomesGenuine(h, g.ledger)
  }

  ghost predicate ListsGenuine(h: History, hostOf: map<string, string>, w: World) {
    IdsTied(hostOf, w) && LanesGenuine(h, w) && GatewayGenuine(h, hostOf, w.g)
  }

  // ---------- the cache ----------

  lemma NothingReported(h: History, agent: string)
    ensures Reported(h, agent, [])
  {}

  lemma RememberGenuine(h: History, hostOf: map<string, string>, t: Tables, agent: string)
    requires OneToOne(hostOf) && CacheGenuine(h, hostOf, t) && agent in hostOf
    ensures CacheGenuine(h, hostOf, RememberHost(t, hostOf[agent], agent))
  {
    NothingReported(h, agent);
    hide Reported;
  }

  lemma SetGenuine(h: History, hostOf: map<string, string>, t: Tables, agent: string, containers: seq<ContainerSummary>,
                   id: Option<string>)
    requires OneToOne(hostOf) && CacheGenuine(h, hostOf, t) && IdTied(hostOf, agent, id) && Reported(h, agent, containers)
    ensures CacheGenuine(h, hostOf, SetContainers(t, agent, containers, id))
  {
    hide Reported;
  }

  /** Either lookup finds what the agent listed. */
  lemma LookupsGenuine(h: History, hostOf: map<string, string>, t: Tables, agent: string)
    requires CacheGenuine(h, hostOf, t)
    ensures Reported(h, agent, Containers(ByUuid(t, agent)))
    ensures agent in hostOf ==> Reported(h, agent, Containers(ByHostId(t, hostOf[agent])))
  {
    NothingReported(h, agent);
    hide Reported;
  }

  // ---------- where a list promise's outcome comes from ----------

  /** The outcome that a move gives to the list promises it settles. */
  function ListOutcome(l: Ledger, m: Move, agent: string): Option<seq<ContainerSummary>> {
    match m
    case Supersede(a, _, cached) => if a == agent then Some(cached) else None
    case Answer(slot, Listing(containers)) => if slot == ForList(agent) then Some(containers) else None
    case Lapse(t, Listing(containers)) =>
      if t in l.timers && l.timers[t].slot == ForList(agent) then Some(containers) else None
    case Leave(a, cached) => if a == agent then Some(cached) else None
    case _ => None
  }

  lemma CloseSettles(l: Ledger, slot: Slot, o: Outcome, p: PromiseId)
    requires Sound(l) && p in Close(l, slot, o).outcomes && p !in l.outcomes
    ensures p in l.promises && l.promises[p] == slot && Close(l, slot, o).outcomes[p] == o
  {
    assert slot in l.entries ==> EntryBacked(l, slot);
  }

  lemma LeaveSettles(l: Ledger, agent: string, cached: seq<ContainerSummary>, p: PromiseId)
    requires Sound(l) && p in AgentGone(l, agent, cached).outcomes && p !in l.outcomes
    ensures p in l.promises
    ensures l.promises[p].ForList? ==> l.promises[p].agent == agent && AgentGone(l, agent, cached).outcomes[p] == Listing(cached)
  {
    hide AgentGone;
    GoneSettlesOwn(l, agent, cached, p);
    var slot := l.promises[p];
    assert EntryBacked(l, slot);
    GoneEntry(l, agent, cached, slot);
  }

  /** A move settles list promises with that outcome, and no other. */
  lemma MoveSettles(l: Ledger, m: Move, p: PromiseId)
    requires Sound(l) && Fair(l, m) && p in Moved(l, m).outcomes && p !in l.outcomes
    ensures p in l.promises
    ensures l.promises[p].ForList? ==> Moved(l, m).outcomes[p].Listing?
                                       && ListOutcome(l, m, l.promises[p].agent) == Some(Moved(l, m).outcomes[p].containers)
  {
    hide Close, AgentGone, Expire;
    match m {
      case Supersede(a, host, cached) => CloseSettles(l, ForList(a), Listing(cached), p);
      case Answer(slot, o) => CloseSettles(l, slot, o, p);
      case Lapse(t, o) =>
        ExpireCloses(l, t, o);
        CloseSettles(l, l.timers[t].slot, o, p);
      case Leave(a, cached) => LeaveSettles(l, a, cached, p);
      case _ =>
    }
  }

  /** A timer is old, or was armed for the promise that a move makes. */
  lemma MoveTimers(l: Ledger, m: Move, t: TimerId)
    requires t in Moved(l, m).timers
    ensures (t in l.timers && Moved(l, m).timers[t] == l.timers[t])
      || match m
         case Supersede(agent, host, _) => Moved(l, m).timers[t] == Timeout(ForList(agent), l.nextPromise, host)
         case Begin(slot, _, host) => Moved(l, m).timers[t] == Timeout(slot, l.nextPromise, host)
         case _ => false
  {
    hide AgentGone;
    if m.Leave? {
      TimersOnlyCleared(l, m.agent, m.cached);
    }
  }

  // ---------- the gateway's steps ----------

  function InventoryAfter(g: State, e: Event): Tables {
    match e
    case Registers(s, uuid, id) => if s in g.clients then RememberHost(g.inventory, id, uuid) else g.inventory
    case AsksList(agent, host) => RememberHost(g.inventory, host, agent)
    case SendsCommand(agent, host, _, _, _, _) => RememberHost(g.inventory, host, agent)
    case AsksInspect(agent, host, _, _) => RememberHost(g.inventory, host, agent)
    case StartsLogs(agent, host, _, _, _, _) => RememberHost(g.inventory, host, agent)
    case Receives(s, Listed(listing)) =>
      if s in g.clients && g.clients[s].agentUuid != ""
      then SetContainers(g.inventory, g.clients[s].agentUuid, Kept(Items(listing)), g.clients[s].agentId) else g.inventory
    case _ => g.inventory
  }

  lemma ReceiveInventory(g: State, s: SocketId, m: AgentMessage)
    ensures Receive(g, s, m).inventory == InventoryAfter(g, Receives(s, m))
  {
    hide SetContainers, RememberHost, Close, Kept, RegisteredEnvelope;
  }

  lemma StepInventory(g: State, e: Event)
    ensures Next(g, e).inventory == InventoryAfter(g, e)
  {
    hide SetContainers, RememberHost, Close, Open, Kept, AgentGone, SubscribersExcept, Receive, Expire, CommandEnvelope,
         InspectEnvelope, SubscribeEnvelope, UnsubscribeEnvelope, RegisteredEnvelope, ListEnvelope;
    if e.Receives? {
      ReceiveInventory(g, e.socket, e.message);
    }
  }

  /** What the gateway does with the events that carry a list or a host: all genuine. */
  ghost predicate EventGenuine(h: History, hostOf: map<string, string>, g: State, e: Event) {
    && Tied(hostOf, e)
    && (e.Receives? && e.socket in g.clients && g.clients[e.socket].agentUuid != "" ==>
          Genuine(h, g.clients[e.socket].agentUuid, e.message)
          && IdTied(hostOf, g.clients[e.socket].agentUuid, g.clients[e.socket].agentId))
  }

  lemma StepCache(h: History, hostOf: map<string, string>, g: State, e: Event)
    requires OneToOne(hostOf) && CacheGenuine(h, hostOf, g.inventory) && EventGenuine(h, hostOf, g, e)
    ensures CacheGenuine(h, hostOf, Next(g, e).inventory)
  {
    hide Next, CacheGenuine, Reported, RememberHost, SetContainers, Kept, OneToOne;
    StepInventory(g, e);
    match e {
      case Registers(s, uuid, id) => RememberGenuine(h, hostOf, g.inventory, uuid);
      case AsksList(agent, _) => RememberGenuine(h, hostOf, g.inventory, agent);
      case SendsCommand(agent, _, _, _, _, _) => RememberGenuine(h, hostOf, g.inventory, agent);
      case AsksInspect(agent, _, _, _) => RememberGenuine(h, hostOf, g.inventory, agent);
      case StartsLogs(agent, _, _, _, _, _) => RememberGenuine(h, hostOf, g.inventory, agent);
      case Receives(s, Listed(listing)) =>
        if s in g.clients && g.clients[s].agentUuid != "" {
          SetGenuine(h, hostOf, g.inventory, g.clients[s].agentUuid, Kept(Items(listing)), g.clients[s].agentId);
        }
      case _ =>
    }
  }

  lemma StepTimers(h: History, hostOf: map<string, string>, g: State, e: Event)
    requires WellFormed(g) && Enabled(g, e) && TimersTied(hostOf, g.ledger) && Tied(hostOf, e)
    ensures TimersTied(hostOf, Next(g, e).ledger)
  {
    hide Next, Moved, Sound, RequestsIssued, SubscribersIssued, CachedByUuid;
    StepMoves(g, e);
    var l := Next(g, e).ledger;
    forall t | t in l.timers ensures TimerTied(hostOf, l.timers[t]) {
      MoveTimers(g.ledger, MoveOf(g, e), t);
      assert t in g.ledger.timers ==> TimerTied(hostOf, g.ledger.timers[t]);
    }
  }

  /** What an event settles an agent's list promise with, it was told by that agent. */
  lemma ListOutcomeGenuine(h: History, hostOf: map<string, string>, g: State, e: Event, agent: string)
    requires OneToOne(hostOf) && CacheGenuine(h, hostOf, g.inventory) && EventGenuine(h, hostOf, g, e)
    requires TimersTied(hostOf, g.ledger)
    ensures var o := ListOutcome(g.ledger, MoveOf(g, e), agent); o.Some? ==> Reported(h, agent, o.value)
  {
    hide CacheGenuine, Reported, RememberHost, Kept, OneToOne, ByUuid, ByHostId, Containers;
    LookupsGenuine(h, hostOf, g.inventory, agent);
    match e {
      case AsksList(a, host) =>
        RememberGenuine(h, hostOf, g.inventory, a);
        LookupsGenuine(h, hostOf, RememberHost(g.inventory, host, a), agent);
      case TimerFires(t) =>
        if t in g.ledger.timers {
          assert TimerTied(hostOf, g.ledger.timers[t]);
        }
      case _ =>
    }
  }

  lemma StepOutcomes(h: History, hostOf: map<string, string>, g: State, e: Event)
    requires OneToOne(hostOf) && WellFormed(g) && Enabled(g, e) && GatewayGenuine(h, hostOf, g) && EventGenuine(h, hostOf, g, e)
    ensures OutcomesGenuine(h, Next(g, e).ledger)
  {
    hide Next, Moved, Sound, Reported, MoveOf, ListOutcome, EventGenuine, OneToOne, CacheGenuine, TimersTied, Made, Enabled, Fair,
         RequestsIssued, SubscribersIssued;
    StepIsFair(g, e);
    StepMoves(g, e);
    MovePromises(g.ledger, MoveOf(g, e));
    var l := Next(g, e).ledger;
    forall p | p in l.outcomes && p in l.promises ensures OutcomeGenuine(h, l.promises[p], l.outcomes[p]) {
      if p in g.ledger.outcomes {
        SettledGenuine(h, g, e, p);
      } else {
        MoveSettles(g.ledger, MoveOf(g, e), p);
        NextExtends(g, e, "", p);
        if l.promises[p].ForList? {
          ListOutcomeGenuine(h, hostOf, g, e, l.promises[p].agent);
        }
      }
    }
  }

  lemma SettledGenuine(h: History, g: State, e: Event, p: PromiseId)
    requires WellFormed(g) && Enabled(g, e) && OutcomesGenuine(h, g.ledger) && p in g.ledger.outcomes
    ensures var l := Next(g, e).ledger;
      p in l.outcomes && p in l.promises && OutcomeGenuine(h, l.promises[p], l.outcomes[p])
  {
    assert p in g.ledger.promises;
    assert OutcomeGenuine(h, g.ledger.promises[p], g.ledger.outcomes[p]);
    hide Next, Moved, Sound, MoveOf, OutcomeGenuine, Enabled;
    StepMoves(g, e);
    MoveKeepsOutcome(g.ledger, MoveOf(g, e), p);
    NextExtends(g, e, "", p);
  }

  lemma StepGatewayGenuine(h: History, hostOf: map<string, string>, g: State, e: Event)
    requires OneToOne(hostOf) && WellFormed(g) && Enabled(g, e) && GatewayGenuine(h, hostOf, g) && EventGenuine(h, hostOf, g, e)
    ensures GatewayGenuine(h, hostOf, Next(g, e))
  {
    StepOutcomes(h, hostOf, g, e);
    hide Next, WellFormed, CacheGenuine, TimersTied, OutcomesGenuine, Enabled, OneToOne, Genuine, IdTied;
    StepCache(h, hostOf, g, e);
    StepTimers(h, hostOf, g, e);
  }

  /** A socket's id is unset, kept or the one it registers with. */
  lemma StepIds(g: State, e: Event, s: SocketId)
    requires s in Next(g, e).clients
    ensures var id := Next(g, e).clients[s].agentId;
      || id.None? || (s in g.clients && id == g.clients[s].agentId)
      || (e.Registers? && e.socket == s && s in g.clients && id == Some(e.id))
  {
    hide Receive, Gateway.Register, AskList, SendCommand, AskInspect, StartLogs, StopLogs, Expire, Disconnect;
    match e {
      case Connects(_) =>
      case Closes(_) =>
      case Disconnects(t) => DisconnectSockets(g, t);
      case Receives(t, Heartbeat(u)) => BeatIds(g, t, u, s);
      case Receives(t, m) => MessageSends(g, t, m);
      case Registers(t, uuid, id) => RegisterIds(g, t, uuid, id, s);
      case _ => CallSends(g, e);
    }
  }

  lemma BeatIds(g: State, t: SocketId, u: string, s: SocketId)
    requires s in Receive(g, t, Heartbeat(u)).clients
    ensures s in g.clients && Receive(g, t, Heartbeat(u)).clients[s].agentId == g.clients[s].agentId
  {}

  lemma RegisterIds(g: State, t: SocketId, uuid: string, id: string, s: SocketId)
    requires s in Gateway.Register(g, t, uuid, id).clients
    ensures var q := Gateway.Register(g, t, uuid, id).clients[s].agentId;
      s in g.clients && (q == g.clients[s].agentId || (t == s && q == Some(id)))
  {
    if t in g.clients {
      RegisterSends(g, t, uuid, id);
      hide Gateway.Register;
    }
  }

  // ---------- the lanes ----------

  /** A lane stays as it is, loses its first message or gains one; a new lane is empty. */
  ghost predicate LaneStep(w: World, v: World, s: SocketId)
    requires s in v.links
  {
    if s !in w.links then v.links[s].up == []
    else
      var before, after := w.links[s], v.links[s];
      && after.agent == before.agent
      && (after.up == before.up || (before.up != [] && after.up == before.up[1..]) || exists m :: after.up == before.up + [m])
  }

  ghost predicate LanesStep(w: World, v: World) {
    forall s :: s in v.links ==> LaneStep(w, v, s)
  }

  /** Other fields than the lanes change. */
  ghost predicate SameLanes(w: World, k: World) {
    k.links.Keys == w.links.Keys && forall s :: s in w.links ==> k.links[s].agent == w.links[s].agent && k.links[s].up == w.links[s].up
  }

  lemma SpeakLanes(w: World, k: World, s: SocketId, m: AgentMessage)
    requires SameLanes(w, k)
    ensures LanesStep(w, Speak(k, s, m))
  {}

  lemma ObeyLanes(w: World, k: World, s: SocketId, agent: string, i: Instruction, d: Docker)
    requires SameLanes(w, k)
    ensures LanesStep(w, Obey(k, s, agent, i, d))
  {
    hide Obey;
    var m := ObeySays(k, s, agent, i, d);
    if m.Some? {
      hide Speak;
      SpeakLanes(w, k, s, m.value);
    }
  }

  lemma AdvancedLanes(w: World, s: SocketId, i: Instruction)
    requires s in w.links
    ensures SameLanes(w, Advanced(w, s)) && LanesStep(w, AwaitRegistered(Advanced(w, s), s, i))
  {
    hide LanesStep, AwaitRegistered;
    AwaitLanes(Advanced(w, s), s, i);
    SameLanesStep(w, AwaitRegistered(Advanced(w, s), s, i));
  }

  lemma AwaitLanes(k: World, s: SocketId, i: Instruction)
    ensures SameLanes(k, AwaitRegistered(k, s, i))
  {}

  lemma SameLanesStep(w: World, k: World)
    requires SameLanes(w, k)
    ensures LanesStep(w, k)
  {}

  lemma TakeLanes(w: World, s: SocketId, d: Docker)
    requires Possible(w, Takes(s, d))
    ensures LanesStep(w, Take(w, s, d))
  {
    hide Obey, Read, LanesStep, AwaitRegistered, SameLanes;
    var l := w.links[s];
    var i := Read(w.g.clients[s].sent[l.taken]);
    AdvancedLanes(w, s, i);
    ObeyLanes(w, Advanced(w, s), s, l.agent, i, d);
  }

  lemma MoveStreamLanes(w: World, r: string, move: Batching.Step)
    ensures LanesStep(w, MoveStream(w, r, move))
  {
    hide Batching.Next, Speak;
    if r in w.streams {
      var ls := w.streams[r];
      var next := Batching.Next(ls.stream, move);
      var k := w.(streams := w.streams[r := ls.(stream := next)]);
      if |next.work.handed| > |ls.stream.work.handed| && ls.agent in w.sessions {
        SpeakLanes(w, k, w.sessions[ls.agent],
                   Chunk(ChunkPayload(r, ls.container, Some(next.work.handed[|ls.stream.work.handed|]))));
      }
    }
  }

  lemma StepLanes(w: World, step: Step)
    requires Possible(w, step)
    ensures LanesStep(w, NextWorld(w, step))
  {
    hide Next, Take, MoveStream;
    match step {
      case Says(s, m) => SpeakLanes(w, w, s, m);
      case Takes(s, d) => TakeLanes(w, s, d);
      case Streams(r, move) => MoveStreamLanes(w, r, move);
      case _ =>
    }
  }

  /** What is told in a step is told in the run. */
  ghost predicate TellsInRun(h: History, w: World, step: Step) {
    forall agent, listing :: Tells(w, step, agent, listing) ==> Told(h.start, h.steps, agent, listing)
  }

  lemma LaneStaysGenuine(h: History, w: World, step: Step, s: SocketId)
    requires s in NextWorld(w, step).links && LaneStep(w, NextWorld(w, step), s) && TellsInRun(h, w, step)
    requires s in w.links ==> LaneGenuine(h, w.links[s])
    ensures LaneGenuine(h, NextWorld(w, step).links[s])
  {
    hide NextWorld, Told, Kept;
    var v := NextWorld(w, step);
    if s in w.links {
      var before, after := w.links[s], v.links[s];
      forall i | 0 <= i < |after.up| ensures Genuine(h, after.agent, after.up[i]) {
        if i < |before.up| {
          assert Genuine(h, before.agent, before.up[i]);
        }
        if i + 1 < |before.up| {
          assert Genuine(h, before.agent, before.up[i + 1]);
        }
        if i == |before.up| && after.up[i].Listed? {
          assert after.up == before.up + [Listed(after.up[i].listing)];
          assert Tells(w, step, after.agent, after.up[i].listing);
        }
      }
    }
  }

  lemma StepLanesGenuine(h: History, w: World, step: Step)
    requires LanesGenuine(h, w) && Possible(w, step) && TellsInRun(h, w, step)
    ensures LanesGenuine(h, NextWorld(w, step))
  {
    hide NextWorld, LaneGenuine, Possible, LaneStep, TellsInRun;
    StepLanes(w, step);
    forall s | s in NextWorld(w, step).links ensures LaneGenuine(h, NextWorld(w, step).links[s]) {
      LaneStaysGenuine(h, w, step, s);
    }
  }

  // ---------- every step ----------

  /** The gateway's part in a step. */
  function EventOf(w: World, step: Step): Option<Event> {
    match step
    case Dials(_, s) => Some(Connects(s))
    case Serves(e) => Some(e)
    case Notices(s) => Some(Disconnects(s))
    case Arrives(s) => if s in w.links && w.links[s].up != [] then Some(Receives(s, w.links[s].up[0])) else None
    case _ => None
  }

  lemma TakeKeepsG(w: World, s: SocketId, d: Docker)
    ensures Take(w, s, d).g == w.g
  {
    hide Obey, Read;
    if s in w.links && s in w.g.clients && w.links[s].taken < |w.g.clients[s].sent| {
      var m := ObeySays(Advanced(w, s), s, w.links[s].agent, Read(w.g.clients[s].sent[w.links[s].taken]), d);
    }
  }

  lemma MoveStreamKeepsG(w: World, r: string, move: Batching.Step)
    ensures MoveStream(w, r, move).g == w.g
  {
    hide Batching.Next;
  }

  lemma StepEvent(w: World, step: Step)
    requires Possible(w, step)
    ensures match EventOf(w, step)
      case Some(e) => Enabled(w.g, e) && NextWorld(w, step).g == Next(w.g, e)
                      && (e.Registers? ==> e.socket in w.links && e.uuid == w.links[e.socket].agent)
      case None => NextWorld(w, step).g == w.g
  {
    hide Next, Take, MoveStream;
    match step {
      case Takes(s, d) => TakeKeepsG(w, s, d);
      case Streams(r, move) => MoveStreamKeepsG(w, r, move);
      case _ =>
    }
  }

  lemma StepEventGenuine(h: History, hostOf: map<string, string>, w: World, step: Step)
    requires IdsTied(hostOf, w) && LanesGenuine(h, w) && Identified(w) && Possible(w, step) && EventOf(w, step).Some?
    requires step.Serves? ==> Tied(hostOf, step.event)
    ensures EventGenuine(h, hostOf, w.g, EventOf(w, step).value)
  {
    hide Genuine, OwnMessages, IdTied;
    if step.Arrives? {
      var s := step.socket;
      assert LaneGenuine(h, w.links[s]);
      assert Named(w, s);
      assert Genuine(h, w.links[s].agent, w.links[s].up[0]);
    }
  }

  lemma StepIdsTied(h: History, hostOf: map<string, string>, w: World, step: Step)
    requires IdsTied(hostOf, w) && w.links.Keys == w.g.clients.Keys && Possible(w, step)
    requires step.Serves? ==> Tied(hostOf, step.event)
    ensures IdsTied(hostOf, NextWorld(w, step))
  {
    StepLanes(w, step);
    StepEvent(w, step);
    var v := NextWorld(w, step);
    hide Next, NextWorld, Possible, Enabled;
    forall s | s in v.links && s in v.g.clients ensures IdTied(hostOf, v.links[s].agent, v.g.clients[s].agentId) {
      assert LaneStep(w, v, s);
      assert s in w.links ==> IdTied(hostOf, w.links[s].agent, w.g.clients[s].agentId);
      if EventOf(w, step).Some? {
        StepIds(w.g, EventOf(w, step).value, s);
      }
    }
  }

  lemma StepLists(h: History, hostOf: map<string, string>, w: World, step: Step)
    requires OneToOne(hostOf) && ListsGenuine(h, hostOf, w) && Faithful(w) && Identified(w) && Possible(w, step)
    requires (step.Serves? ==> Tied(hostOf, step.event)) && TellsInRun(h, w, step)
    ensures ListsGenuine(h, hostOf, NextWorld(w, step))
  {
    assert WellFormed(w.g) && w.links.Keys == w.g.clients.Keys;
    hide OneToOne, Faithful, Identified, Possible, WellFormed, NextWorld, Next, LanesGenuine, IdsTied, GatewayGenuine, TellsInRun,
         Tied, EventOf, EventGenuine, Enabled;
    StepLanesGenuine(h, w, step);
    StepIdsTied(h, hostOf, w, step);
    StepEvent(w, step);
    if EventOf(w, step).Some? {
      StepEventGenuine(h, hostOf, w, step);
      StepGatewayGenuine(h, hostOf, w.g, EventOf(w, step).value);
    }
  }

  lemma {:induction false} AlwaysLists(h: History, hostOf: map<string, string>, w: World, steps: seq<Step>, v: World)
    requires OneToOne(hostOf) && ListsGenuine(h, hostOf, w) && Faithful(w) && Identified(w)
    requires Happens(w, steps, v) && TiedRun(hostOf, steps)
    requires forall agent, listing :: Told(w, steps, agent, listing) ==> Told(h.start, h.steps, agent, listing)
    ensures ListsGenuine(h, hostOf, v)
    decreases |steps|
  {
    hide OneToOne, ListsGenuine, Faithful, Identified, Possible, NextWorld, Tells, Tied;
    if steps != [] {
      var next, rest := NextWorld(w, steps[0]), steps[1..];
      forall agent, listing | Told(next, rest, agent, listing) ensures Told(h.start, h.steps, agent, listing) {
        assert Told(w, steps, agent, listing);
      }
      assert TellsInRun(h, w, steps[0]) by {
        forall agent, listing | Tells(w, steps[0], agent, listing) ensures Told(h.start, h.steps, agent, listing) {
          assert Told(w, steps, agent, listing);
        }
      }
      StepLists(h, hostOf, w, steps[0]);
      StepKeepsFaithful(w, steps[0]);
      StepKeepsIdentified(w, steps[0]);
      assert forall i :: 0 <= i < |rest| ==> rest[i] == steps[i + 1];
      AlwaysLists(h, hostOf, next, rest, v);
    }
  }

  lemma RestLists(h: History, hostOf: map<string, string>, engines: set<string>)
    ensures ListsGenuine(h, hostOf, AtRest(engines))
  {}

  // ---------- the theorems ----------

  lemma RunLists(engines: set<string>, hostOf: map<string, string>, steps: seq<Step>, w: World)
    requires OneToOne(hostOf) && TiedRun(hostOf, steps) && Happens(AtRest(engines), steps, w)
    ensures ListsGenuine(History(AtRest(engines), steps), hostOf, w)
  {
    hide OneToOne, TiedRun, Happens, ListsGenuine, Faithful, Identified, Told;
    var h := History(AtRest(engines), steps);
    RestFaithful(engines);
    RestLists(h, hostOf, engines);
    AlwaysLists(h, hostOf, AtRest(engines), steps, w);
  }

  /** In every run in which callers name each agent's own host: what either cache holds for an agent, and so
      what requestContainerList answers at once when the agent is not connected, was listed by that agent. */
  lemma CachedListDelivered(engines: set<string>, hostOf: map<string, string>, steps: seq<Step>, w: World, agent: string)
    requires OneToOne(hostOf) && TiedRun(hostOf, steps) && Happens(AtRest(engines), steps, w) && agent in hostOf
    ensures Reported(History(AtRest(engines), steps), agent, CachedByHost(w.g, hostOf[agent]))
    ensures Reported(History(AtRest(engines), steps), agent, CachedByUuid(w.g, agent))
  {
    hide OneToOne, TiedRun, Happens, CacheGenuine, Reported, ByUuid, ByHostId, Containers;
    RunLists(engines, hostOf, steps, w);
    LookupsGenuine(History(AtRest(engines), steps), hostOf, w.g.inventory, agent);
  }

  lemma ListRecorded(g: State, agent: string, host: string)
    requires Connected(g, agent).Some?
    ensures var l := AskList(g, agent, host).ledger; var p := g.ledger.nextPromise;
      p in l.promises && l.promises[p] == ForList(agent)
  {
    hide RememberHost, ListEnvelope;
  }

  lemma AskingStep(w: World, agent: string, host: string)
    ensures var step := Serves(AsksList(agent, host));
      Possible(w, step) && NextWorld(w, step).g == AskList(w.g, agent, host)
  {
    hide AskList;
  }

  lemma ListSettled(h: History, hostOf: map<string, string>, w: World, p: PromiseId, agent: string)
    requires ListsGenuine(h, hostOf, w) && p in w.g.ledger.promises && w.g.ledger.promises[p] == ForList(agent)
    requires p in w.g.ledger.outcomes
    ensures w.g.ledger.outcomes[p].Listing? && Reported(h, agent, w.g.ledger.outcomes[p].containers)
  {
    hide CacheGenuine, Reported, TimersTied, LanesGenuine, IdsTied;
    assert OutcomeGenuine(h, w.g.ledger.promises[p], w.g.ledger.outcomes[p]);
  }

  lemma RequestedRun(engines: set<string>, before: seq<Step>, w: World, step: Step, after: seq<Step>, v: World)
    requires Happens(AtRest(engines), before, w) && Possible(w, step) && Happens(NextWorld(w, step), after, v)
    ensures Happens(AtRest(engines), before + [step] + after, v) && Extends(NextWorld(w, step), v)
  {
    RestFaithful(engines);
    assert Happens(w, [step], NextWorld(w, step)) by {
      hide Possible, NextWorld;
    }
    hide Happens, Possible, NextWorld, Faithful, Identified, Extends;
    HappensAppend(AtRest(engines), before, w, [step], NextWorld(w, step));
    HappensAppend(AtRest(engines), before + [step], NextWorld(w, step), after, v);
    AlwaysFaithful(AtRest(engines), before, w);
    StepKeepsFaithful(w, step);
    RunExtends(NextWorld(w, step), after, v);
  }

  /** In every such run: asking a connected agent for its list makes a promise that is only ever resolved, with
      what the server's parser makes of a list that this very agent sent, or with no containers. */
  lemma ListDelivered(engines: set<string>, hostOf: map<string, string>, before: seq<Step>, w: World, after: seq<Step>,
                      v: World, agent: string)
    requires OneToOne(hostOf) && TiedRun(hostOf, before) && TiedRun(hostOf, after) && agent in hostOf
    requires Happens(AtRest(engines), before, w) && Connected(w.g, agent).Some?
    requires Happens(NextWorld(w, Serves(AsksList(agent, hostOf[agent]))), after, v)
    ensures var p := w.g.ledger.nextPromise; var run := before + [Serves(AsksList(agent, hostOf[agent]))] + after;
      && p in v.g.ledger.promises && v.g.ledger.promises[p] == ForList(agent)
      && (p in v.g.ledger.outcomes ==>
            v.g.ledger.outcomes[p].Listing?
            && Reported(History(AtRest(engines), run), agent, v.g.ledger.outcomes[p].containers))
  {
    hide OneToOne, Happens, Possible, NextWorld, ListsGenuine, AskList, Reported, Connected;
    var step := Serves(AsksList(agent, hostOf[agent]));
    var run := before + [step] + after;
    AskingStep(w, agent, hostOf[agent]);
    RequestedRun(engines, before, w, step, after, v);
    ListRecorded(w.g, agent, hostOf[agent]);
    RunLists(engines, hostOf, run, v);
    if w.g.ledger.nextPromise in v.g.ledger.outcomes {
      ListSettled(History(AtRest(engines), run), hostOf, v, w.g.ledger.nextPromise, agent);
    }
  }
}
