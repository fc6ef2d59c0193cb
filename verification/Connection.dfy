/** When an agent counts as connected, and that what is then asked of it goes out on its socket
    (apps/server/src/agents/agents.gateway.ts). */
module Connection {
  import opened Prelude
  import opened ContainerListed
  import opened Inventory
  import opened Protocol
  import opened Outstanding
  import opened Gateway

  /** The event by which a socket comes to be known as `uuid`. */
  predicate Names(e: Event, s: SocketId, uuid: string) {
    match e
    case Registers(t, u, _) => t == s && u == uuid
    case Receives(t, Heartbeat(u)) => t == s && u == uuid && u != ""
    case _ => false
  }

  /** The event after which the agent is no longer connected by this socket: it stops being open, the
      disconnect of some socket known as that agent is handled, or another socket is named. */
  ghost predicate Unseats(g: State, e: Event, s: SocketId, uuid: string) {
    || e == Closes(s) || e == Disconnects(s)
    || (e.Disconnects? && e.socket in g.clients && g.clients[e.socket].agentUuid == uuid && uuid != "")
    || exists t :: t != s && t in g.clients && Names(e, t, uuid)
  }

  ghost predicate SocketsKnown(g: State) {
    forall u :: u in g.sockets ==> g.sockets[u] in g.clients
  }

  // ---------- what a step does to the sockets ----------

  /** Nothing about the sockets changes but what has been sent over them. */
  ghost predicate OnlySends(g: State, k: State) {
    && k.sockets == g.sockets && k.clients.Keys == g.clients.Keys
    && forall s :: s in g.clients ==> k.clients[s] == g.clients[s].(sent := k.clients[s].sent)
  }

  lemma PostSends(g: State, k: State, s: SocketId, e: Envelope)
    requires OnlySends(g, k)
    ensures OnlySends(g, Post(k, s, e))
  {}

  lemma IssuingSends(g: State, k: State, s: SocketId, r: string, order: Order, e: Envelope)
    requires OnlySends(g, k)
    ensures OnlySends(g, Issuing(k, s, r, order, e))
  {}

  lemma OrderSends(g: State, e: Event)
    requires e.SendsCommand? || e.AsksInspect? || e.StartsLogs?
    ensures OnlySends(g, Next(g, e))
  {
    hide RememberHost, Open, CommandEnvelope, InspectEnvelope, SubscribeEnvelope, Issuing, OnlySends;
    var k := Remembering(g, e.host, e.agent);
    SameSends(g, k);
    if Connected(k, e.agent).Some? {
      var s := g.sockets[e.agent];
      match e {
        case SendsCommand(agent, host, action, container, force, r) =>
          var j := k.(ledger := Open(k.ledger, ForCommand(r), agent, host));
          SameSends(g, j);
          IssuingSends(g, j, s, r, CommandOrder(action, container, force), CommandEnvelope(action, r, container, force));
        case AsksInspect(agent, host, container, r) =>
          var j := k.(ledger := Open(k.ledger, ForInspect(r), agent, host));
          SameSends(g, j);
          IssuingSends(g, j, s, r, InspectOrder(container), InspectEnvelope(r, container));
        case StartsLogs(agent, host, container, tail, follow, r) =>
          var j := k.(subscribers := k.subscribers[r := Subscriber(agent, container)]);
          SameSends(g, j);
          IssuingSends(g, j, s, r, LogOrder(container, tail, follow), SubscribeEnvelope(r, container, tail, follow));
      }
    }
  }

  lemma SameSends(g: State, k: State)
    requires k.sockets == g.sockets && k.clients == g.clients
    ensures OnlySends(g, k)
  {}

  lemma AskListSends(g: State, agent: string, host: string)
    ensures OnlySends(g, AskList(g, agent, host))
  {
    hide RememberHost, Close, Open, ListEnvelope, Post, OnlySends;
    var k := Remembering(g, host, agent);
    SameSends(g, k);
    if Connected(k, agent).Some? {
      var freed := Close(k.ledger, ForList(agent), Listing(CachedByUuid(k, agent)));
      var j := k.(ledger := Open(freed, ForList(agent), agent, host));
      SameSends(g, j);
      PostSends(g, j, g.sockets[agent], ListEnvelope());
    }
  }

  lemma StopSends(g: State, r: string)
    ensures OnlySends(g, StopLogs(g, r))
  {
    hide UnsubscribeEnvelope, Post;
    if r in g.subscribers && Connected(g, g.subscribers[r].agent).Some? {
      PostSends(g, g.(subscribers := g.subscribers - {r}), g.sockets[g.subscribers[r].agent], UnsubscribeEnvelope(r));
    }
  }

  lemma CallSends(g: State, e: Event)
    requires e.AsksList? || e.SendsCommand? || e.AsksInspect? || e.StartsLogs? || e.StopsLogs? || e.TimerFires?
    ensures OnlySends(g, Next(g, e))
  {
    hide AskList, SendCommand, AskInspect, StartLogs, StopLogs, Expire;
    match e {
      case AsksList(agent, host) => AskListSends(g, agent, host);
      case StopsLogs(r) => StopSends(g, r);
      case TimerFires(_) =>
      case _ => OrderSends(g, e);
    }
  }

  /** Every message but a heartbeat. */
  lemma MessageSends(g: State, s: SocketId, m: AgentMessage)
    requires !m.Heartbeat?
    ensures OnlySends(g, Receive(g, s, m))
  {
    hide SetContainers, Close, RegisteredEnvelope, Post, Kept;
    PostSends(g, g, s, RegisteredEnvelope("", "", "Invalid JSON message"));
    if m.Register? {
      PostSends(g, g, s, RegisteredEnvelope("", m.uuid, "Invalid registration payload"));
    }
  }

  /** The gateway that has learnt a socket's name and id, and stored it. */
  function Introduced(g: State, s: SocketId, uuid: string, id: string): State
    requires s in g.clients
  {
    g.(clients := g.clients[s := g.clients[s].(agentUuid := uuid, agentId := Some(id))], sockets := g.sockets[uuid := s])
  }

  lemma RegisterSends(g: State, s: SocketId, uuid: string, id: string)
    requires s in g.clients
    ensures OnlySends(Introduced(g, s, uuid, id), Gateway.Register(g, s, uuid, id))
  {
    hide RememberHost, RegisteredEnvelope, ListEnvelope, Post, OnlySends;
    var named := Introduced(g, s, uuid, id);
    var k := Remembering(named, id, uuid);
    SameSends(named, k);
    PostSends(named, k, s, RegisteredEnvelope(id, uuid, ""));
    PostSends(named, Post(k, s, RegisteredEnvelope(id, uuid, "")), s, ListEnvelope());
  }

  lemma DisconnectSockets(g: State, s: SocketId)
    ensures var k, h := Closed(g, s), Disconnect(g, s);
      h.clients == k.clients
      && h.sockets == if s in g.clients && g.clients[s].agentUuid != "" then g.sockets - {g.clients[s].agentUuid} else g.sockets
  {
    hide AgentGone, SubscribersExcept, ByUuid;
  }

  lemma NamedOnce(g: State, e: Event, t: SocketId, uuid: string)
    requires Names(e, t, uuid)
    ensures forall s :: Unseats(g, e, s, uuid) <==> s != t && t in g.clients
    ensures forall s, u :: u != uuid ==> !Unseats(g, e, s, u)
  {}

  lemma HeartbeatConnects(g: State, t: SocketId, u: string, s: SocketId, uuid: string)
    ensures var e := Receives(t, Heartbeat(u));
      Connected(Next(g, e), uuid) == Some(s)
      <==> (s in g.clients && g.clients[s].open && Names(e, s, uuid)) || (Connected(g, uuid) == Some(s) && !Unseats(g, e, s, uuid))
  {
    if u != "" {
      NamedOnce(g, Receives(t, Heartbeat(u)), t, u);
    }
  }

  lemma RegisterConnects(g: State, t: SocketId, u: string, id: string, s: SocketId, uuid: string)
    ensures var e := Registers(t, u, id);
      Connected(Next(g, e), uuid) == Some(s)
      <==> (s in g.clients && g.clients[s].open && Names(e, s, uuid)) || (Connected(g, uuid) == Some(s) && !Unseats(g, e, s, uuid))
  {
    NamedOnce(g, Registers(t, u, id), t, u);
    if t in g.clients {
      RegisterSends(g, t, u, id);
      hide Gateway.Register;
    } else {
      assert Gateway.Register(g, t, u, id) == g;
    }
  }

  /** Events that change neither which sockets are stored nor which are open. */
  lemma SendingConnects(g: State, e: Event, s: SocketId, uuid: string)
    requires OnlySends(g, Next(g, e)) && !e.Closes? && !e.Disconnects? && !e.Connects? && forall t, u :: !Names(e, t, u)
    ensures Connected(Next(g, e), uuid) == Some(s)
      <==> (s in g.clients && g.clients[s].open && Names(e, s, uuid)) || (Connected(g, uuid) == Some(s) && !Unseats(g, e, s, uuid))
  {
    hide Next, Names;
  }

  lemma DisconnectConnects(g: State, t: SocketId, s: SocketId, uuid: string)
    ensures var e := Disconnects(t);
      Connected(Next(g, e), uuid) == Some(s)
      <==> (s in g.clients && g.clients[s].open && Names(e, s, uuid)) || (Connected(g, uuid) == Some(s) && !Unseats(g, e, s, uuid))
  {
    DisconnectSockets(g, t);
    hide Disconnect;
  }

  lemma OpeningConnects(g: State, t: SocketId, s: SocketId, uuid: string)
    requires SocketsKnown(g) && t !in g.clients
    ensures Connected(Next(g, Connects(t)), uuid) == Some(s) <==> Connected(g, uuid) == Some(s) && !Unseats(g, Connects(t), s, uuid)
  {}

  lemma ClosingConnects(g: State, t: SocketId, s: SocketId, uuid: string)
    ensures Connected(Next(g, Closes(t)), uuid) == Some(s) <==> Connected(g, uuid) == Some(s) && !Unseats(g, Closes(t), s, uuid)
  {}

  /** Who is connected after a step: exactly the agent that the step names an open socket for, by that socket,
      and those connected before that the step does not unseat. */
  lemma ConnectedIff(g: State, e: Event, s: SocketId, uuid: string)
    requires SocketsKnown(g) && Enabled(g, e)
    ensures Connected(Next(g, e), uuid) == Some(s)
      <==> (s in g.clients && g.clients[s].open && Names(e, s, uuid)) || (Connected(g, uuid) == Some(s) && !Unseats(g, e, s, uuid))
  {
    hide Next, Unseats, Connected;
    match e {
      case Connects(t) => OpeningConnects(g, t, s, uuid);
      case Closes(t) => ClosingConnects(g, t, s, uuid);
      case Disconnects(t) => DisconnectConnects(g, t, s, uuid);
      case Receives(t, Heartbeat(u)) => HeartbeatConnects(g, t, u, s, uuid);
      case Receives(t, m) => MessageConnects(g, t, m, s, uuid);
      case Registers(t, u, id) => RegisterConnects(g, t, u, id, s, uuid);
      case _ =>
        CallSends(g, e);
        SendingConnects(g, e, s, uuid);
    }
  }

  lemma MessageConnects(g: State, t: SocketId, m: AgentMessage, s: SocketId, uuid: string)
    requires !m.Heartbeat?
    ensures var e := Receives(t, m);
      Connected(Next(g, e), uuid) == Some(s)
      <==> (s in g.clients && g.clients[s].open && Names(e, s, uuid)) || (Connected(g, uuid) == Some(s) && !Unseats(g, e, s, uuid))
  {
    MessageSends(g, t, m);
    hide Receive;
    SendingConnects(g, Receives(t, m), s, uuid);
  }

  lemma StepKeepsKnown(g: State, e: Event)
    requires SocketsKnown(g)
    ensures SocketsKnown(Next(g, e))
  {
    hide Receive, Gateway.Register, AskList, SendCommand, AskInspect, StartLogs, StopLogs, Fire, Disconnect;
    match e {
      case Connects(_) =>
      case Closes(_) =>
      case Disconnects(t) => DisconnectSockets(g, t);
      case Receives(t, Heartbeat(u)) => BeatKnown(g, t, u);
      case Receives(t, m) => MessageSends(g, t, m);
      case Registers(t, u, id) => RegisterKnown(g, t, u, id);
      case _ => CallSends(g, e);
    }
  }

  lemma BeatKnown(g: State, t: SocketId, u: string)
    requires SocketsKnown(g)
    ensures SocketsKnown(Receive(g, t, Heartbeat(u)))
  {}

  lemma RegisterKnown(g: State, t: SocketId, u: string, id: string)
    requires SocketsKnown(g)
    ensures SocketsKnown(Gateway.Register(g, t, u, id))
  {
    if t in g.clients {
      RegisterSends(g, t, u, id);
      hide Gateway.Register;
    }
  }

  /** The socket carries the agent's uuid from then on, and the agent's id if it has registered; no other changes. */
  lemma SocketNamed(g: State, e: Event, s: SocketId, uuid: string)
    requires Names(e, s, uuid) && s in g.clients
    ensures var c, d := g.clients[s], Next(g, e).clients[s];
      && d.agentUuid == uuid && d.open == c.open && d.agentId == (if e.Registers? then Some(e.id) else c.agentId)
      && forall t :: t in g.clients && t != s ==> t in Next(g, e).clients && Next(g, e).clients[t] == g.clients[t]
  {
    hide RememberHost;
  }

  // ---------- over runs ----------

  ghost predicate NeverUnseated(g: State, events: seq<Event>, s: SocketId, uuid: string)
    decreases |events|
  {
    events == [] || (!Unseats(g, events[0], s, uuid) && NeverUnseated(Next(g, events[0]), events[1..], s, uuid))
  }

  lemma {:induction false} RunKeepsKnown(g: State, events: seq<Event>, h: State)
    requires SocketsKnown(g) && Run(g, events, h)
    ensures SocketsKnown(h)
    decreases |events|
  {
    hide Next, SocketsKnown, Enabled;
    if events != [] {
      StepKeepsKnown(g, events[0]);
      RunKeepsKnown(Next(g, events[0]), events[1..], h);
    }
  }

  lemma {:induction false} StaysConnected(g: State, events: seq<Event>, h: State, s: SocketId, uuid: string)
    requires SocketsKnown(g) && Connected(g, uuid) == Some(s) && Run(g, events, h) && NeverUnseated(g, events, s, uuid)
    ensures Connected(h, uuid) == Some(s)
    decreases |events|
  {
    hide Next, SocketsKnown, Enabled, Connected, Unseats;
    if events != [] {
      ConnectedIff(g, events[0], s, uuid);
      StepKeepsKnown(g, events[0]);
      StaysConnected(Next(g, events[0]), events[1..], h, s, uuid);
    }
  }

  /** In every run: an agent that registers, or beats, on an open socket is connected by that socket from then
      on, until something unseats it. */
  lemma NamedIsConnected(before: seq<Event>, g: State, e: Event, after: seq<Event>, h: State, s: SocketId, uuid: string)
    requires Run(INITIAL, before, g) && s in g.clients && g.clients[s].open && Enabled(g, e) && Names(e, s, uuid)
    requires Run(Next(g, e), after, h) && NeverUnseated(Next(g, e), after, s, uuid)
    ensures Connected(h, uuid) == Some(s)
  {
    assert SocketsKnown(INITIAL);
    hide Next, SocketsKnown, Connected, Unseats, Run, NeverUnseated;
    RunKeepsKnown(INITIAL, before, g);
    ConnectedIff(g, e, s, uuid);
    StepKeepsKnown(g, e);
    StaysConnected(Next(g, e), after, h, s, uuid);
  }

  // ---------- what is asked of a connected agent ----------

  /** A promise has been made for the slot, and is not settled. */
  ghost predicate Promised(g: State, h: State, slot: Slot) {
    var p := g.ledger.nextPromise;
    && p in h.ledger.promises && h.ledger.promises[p] == slot && h.ledger.nextPromise == p + 1
    && slot in h.ledger.entries && h.ledger.entries[slot].promise == p
  }

  /** A command goes out on the agent's socket under its protocol name, with `force` on removals alone. */
  lemma CommandGoesOut(g: State, s: SocketId, agent: string, host: string, action: Action, container: string, force: bool, r: string)
    requires Connected(g, agent) == Some(s)
    ensures var h := Next(g, SendsCommand(agent, host, action, container, force, r));
      && h.clients[s].sent == g.clients[s].sent
         + [Envelope("container." + Name(action), Target(r, container, if action.Remove? then Some(force) else None))]
      && Promised(g, h, ForCommand(r)) && h.ledger.entries[ForCommand(r)].agent == agent
  {
    hide RememberHost;
    WireNames(action);
  }

  lemma InspectGoesOut(g: State, s: SocketId, agent: string, host: string, container: string, r: string)
    requires Connected(g, agent) == Some(s)
    ensures var h := Next(g, AsksInspect(agent, host, container, r));
      && h.clients[s].sent == g.clients[s].sent + [Envelope("container.inspect", Target(r, container, None))]
      && Promised(g, h, ForInspect(r)) && h.ledger.entries[ForInspect(r)].agent == agent
  {
    hide RememberHost;
  }

  lemma ListGoesOut(g: State, s: SocketId, agent: string, host: string)
    requires Connected(g, agent) == Some(s)
    ensures var h := Next(g, AsksList(agent, host));
      && h.clients[s].sent == g.clients[s].sent + [Envelope("container.list", Empty)]
      && Promised(g, h, ForList(agent))
  {
    hide RememberHost, Close;
    CloseMakesNone(Remembering(g, host, agent).ledger, ForList(agent), Listing(CachedByUuid(Remembering(g, host, agent), agent)));
  }

  lemma CloseMakesNone(l: Ledger, slot: Slot, o: Outcome)
    ensures Close(l, slot, o).nextPromise == l.nextPromise && Close(l, slot, o).nextTimer == l.nextTimer
  {}

  lemma LogsGoOut(g: State, s: SocketId, agent: string, host: string, container: string, tail: int, follow: bool, r: string)
    requires Connected(g, agent) == Some(s)
    ensures var h := Next(g, StartsLogs(agent, host, container, tail, follow, r));
      && h.clients[s].sent == g.clients[s].sent + [Envelope("logs.subscribe", Subscription(r, container, tail, Some(follow)))]
      && r in h.subscribers && h.subscribers[r] == Subscriber(agent, container)
  {
    hide RememberHost;
  }

  /** Stopping takes the subscriber away, and tells its agent if that is connected. */
  lemma StopGoesOut(g: State, r: string)
    requires r in g.subscribers
    ensures var h := Next(g, StopsLogs(r));
      && h.subscribers == g.subscribers - {r}
      && match Connected(g, g.subscribers[r].agent)
         case Some(s) => h.clients[s].sent == g.clients[s].sent + [Envelope("logs.unsubscribe", Cancellation(r))]
         case None => h.clients == g.clients
  {}

  /** A registration that the database has accepted is acknowledged, and followed by a list request; a message
      that cannot be read, or that lacks a part, is answered with a refusal. */
  lemma RegistrationAnswered(g: State, s: SocketId, uuid: string, id: string)
    requires s in g.clients && g.clients[s].open
    ensures Next(g, Registers(s, uuid, id)).clients[s].sent
      == g.clients[s].sent + [Envelope("agent.registered", Registration(id, uuid, "")), Envelope("container.list", Empty)]
    ensures Next(g, Receives(s, Garbled)).clients[s].sent
      == g.clients[s].sent + [Envelope("agent.registered", Registration("", "", "Invalid JSON message"))]
    ensures forall hostname: string, os: string :: uuid == "" || hostname == "" || os == "" ==>
      Next(g, Receives(s, AgentMessage.Register(uuid, hostname, os))).clients[s].sent
      == g.clients[s].sent + [Envelope("agent.registered", Registration("", uuid, "Invalid registration payload"))]
  {
    hide RememberHost;
  }

  /** The event names an agent together with its host. */
  ghost predicate AboutHost(e: Event, agent: string, host: string) {
    match e
    case AsksList(a, h) => a == agent && h == host
    case SendsCommand(a, h, _, _, _, _) => a == agent && h == host
    case AsksInspect(a, h, _, _) => a == agent && h == host
    case StartsLogs(a, h, _, _, _, _) => a == agent && h == host
    case _ => false
  }

  /** Every call about an agent ties it to the host that the call names, under which its list is then found, and
      keeps the list that the host had... */
  lemma CallsRemember(g: State, e: Event, agent: string, host: string)
    requires AboutHost(e, agent, host)
    ensures var t, u := g.inventory, Next(g, e).inventory;
      && agent in u.hostIdByUuid && u.hostIdByUuid[agent] == host
      && (forall a :: a != agent ==> (a in t.hostIdByUuid <==> a in u.hostIdByUuid)
                                     && (a in t.hostIdByUuid ==> t.hostIdByUuid[a] == u.hostIdByUuid[a]))
      && (forall h :: CachedByHost(Next(g, e), h) == CachedByHost(g, h)) && host in u.byHostId
      && (host != "" ==> CachedByUuid(Next(g, e), agent) == CachedByHost(g, host))
  {
    CallsRememberAs(g, e, agent, host);
    hide Next;
  }

  lemma CallsRememberAs(g: State, e: Event, agent: string, host: string)
    requires AboutHost(e, agent, host)
    ensures Next(g, e).inventory == RememberHost(g.inventory, host, agent)
  {
    hide RememberHost, Close, Open;
  }

  /** ...and one about an agent that is not connected does nothing else. */
  lemma CallsRefused(g: State, e: Event, agent: string, host: string)
    requires AboutHost(e, agent, host) && Connected(g, agent).None?
    ensures Next(g, e) == g.(inventory := Next(g, e).inventory)
  {
    hide RememberHost, Close, Open;
  }
}
