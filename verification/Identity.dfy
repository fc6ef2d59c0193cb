/** An agent uses one uuid, so the gateway knows each socket, if at all, under the uuid of the agent at its
    other end. */
module Identity {
  import Batching
  import opened Prelude
  import opened Inventory
  import opened Protocol
  import opened Outstanding
  import opened Gateway
  import opened Connection
  import opened Fleet

  /** How an event changes what a known socket is called, whether it is open, and which socket a uuid has. */
  ghost predicate Renamed(g: State, h: State, e: Event) {
    && h.clients.Keys == g.clients.Keys
    && (forall s :: s in g.clients ==>
          h.clients[s].agentUuid == g.clients[s].agentUuid || Names(e, s, h.clients[s].agentUuid))
    && (forall s :: s in g.clients && h.clients[s].open ==> g.clients[s].open && e != Disconnects(s))
    && (forall u :: u in h.sockets ==>
          (u in g.sockets && h.sockets[u] == g.sockets[u])
          || (h.sockets[u] in g.clients && Names(e, h.sockets[u], u) && h.clients[h.sockets[u]].agentUuid == u))
  }

  lemma PostRenames(g: State, k: State, s: SocketId, e: Event, m: Envelope)
    requires Renamed(g, k, e)
    ensures Renamed(g, Post(k, s, m), e)
  {}

  lemma RegisterRenames(g: State, s: SocketId, uuid: string, id: string)
    requires s in g.clients
    ensures Renamed(g, Gateway.Register(g, s, uuid, id), Registers(s, uuid, id))
  {
    hide Post, RegisteredEnvelope, ListEnvelope, RememberHost;
    var e := Registers(s, uuid, id);
    var k := Remembering(g.(clients := g.clients[s := g.clients[s].(agentUuid := uuid, agentId := Some(id))],
                            sockets := g.sockets[uuid := s]), id, uuid);
    assert Renamed(g, k, e);
    hide Renamed;
    PostRenames(g, k, s, e, RegisteredEnvelope(id, uuid, ""));
    PostRenames(g, Post(k, s, RegisteredEnvelope(id, uuid, "")), s, e, ListEnvelope());
  }

  lemma UnchangedRenames(g: State, h: State, e: Event)
    requires h.clients == g.clients && h.sockets == g.sockets && !e.Disconnects?
    ensures Renamed(g, h, e)
  {}

  lemma ReceiveRenames(g: State, s: SocketId, m: AgentMessage)
    ensures Renamed(g, Receive(g, s, m), Receives(s, m))
  {
    match m {
      case Heartbeat(uuid) => BeatRenames(g, s, uuid);
      case _ =>
        hide SetContainers, Close, RegisteredEnvelope, Renamed, Post;
        var e := Receives(s, m);
        UnchangedRenames(g, g, e);
        match m {
          case Garbled => PostRenames(g, g, s, e, RegisteredEnvelope("", "", "Invalid JSON message"));
          case Register(uuid, _, _) => PostRenames(g, g, s, e, RegisteredEnvelope("", uuid, "Invalid registration payload"));
          case _ => UnchangedRenames(g, Receive(g, s, m), e);
        }
    }
  }

  lemma BeatRenames(g: State, s: SocketId, uuid: string)
    ensures Renamed(g, Beat(g, s, uuid), Receives(s, Heartbeat(uuid)))
  {}

  lemma DisconnectRenames(g: State, s: SocketId)
    ensures Renamed(g, Disconnect(g, s), Disconnects(s))
  {
    hide AgentGone, SubscribersExcept;
  }

  lemma OrderRenames(g: State, k: State, s: SocketId, r: string, order: Order, m: Envelope, e: Event)
    requires Renamed(g, k, e)
    ensures Renamed(g, Issuing(k, s, r, order, m), e)
  {
    hide Renamed, Post;
    if s in k.clients {
      var j := k.(issued := k.issued[r := Issue(s, |k.clients[s].sent|, order)]);
      assert Renamed(g, j, e) by {
        SameRenames(g, k, j, e);
      }
      PostRenames(g, j, s, e, m);
    }
  }

  lemma SameRenames(g: State, k: State, j: State, e: Event)
    requires Renamed(g, k, e) && j.clients == k.clients && j.sockets == k.sockets
    ensures Renamed(g, j, e)
  {}

  lemma AskListRenames(g: State, agent: string, host: string)
    ensures Renamed(g, AskList(g, agent, host), AsksList(agent, host))
  {
    hide RememberHost, Close, Open, ListEnvelope, Post;
    var e, k := AsksList(agent, host), Remembering(g, host, agent);
    assert Renamed(g, k, e);
    hide Renamed;
    if Connected(k, agent).Some? {
      var freed := Close(k.ledger, ForList(agent), Listing(CachedByUuid(k, agent)));
      var j := k.(ledger := Open(freed, ForList(agent), agent, host));
      SameRenames(g, k, j, e);
      PostRenames(g, j, Connected(k, agent).value, e, ListEnvelope());
    }
  }

  lemma CallRenames(g: State, e: Event)
    requires e.SendsCommand? || e.AsksInspect? || e.StartsLogs?
    ensures Renamed(g, Next(g, e), e)
  {
    hide RememberHost, Open, CommandEnvelope, InspectEnvelope, SubscribeEnvelope, Issuing;
    var k := Remembering(g, e.host, e.agent);
    assert Renamed(g, k, e);
    hide Renamed;
    if Connected(k, e.agent).Some? {
      var s := Connected(k, e.agent).value;
      match e {
        case SendsCommand(agent, host, action, container, force, r) =>
          var j := k.(ledger := Open(k.ledger, ForCommand(r), agent, host));
          SameRenames(g, k, j, e);
          OrderRenames(g, j, s, r, CommandOrder(action, container, force), CommandEnvelope(action, r, container, force), e);
        case AsksInspect(agent, host, container, r) =>
          var j := k.(ledger := Open(k.ledger, ForInspect(r), agent, host));
          SameRenames(g, k, j, e);
          OrderRenames(g, j, s, r, InspectOrder(container), InspectEnvelope(r, container), e);
        case StartsLogs(agent, host, container, tail, follow, r) =>
          var j := k.(subscribers := k.subscribers[r := Subscriber(agent, container)]);
          SameRenames(g, k, j, e);
          OrderRenames(g, j, s, r, LogOrder(container, tail, follow), SubscribeEnvelope(r, container, tail, follow), e);
      }
    }
  }

  lemma StepRenames(g: State, e: Event)
    requires !e.Connects? && (e.Registers? ==> e.socket in g.clients)
    ensures Renamed(g, Next(g, e), e)
  {
    hide Receive, Disconnect, Gateway.Register, AskList, SendCommand, AskInspect, StartLogs, StopLogs, Expire;
    match e {
      case Disconnects(s) => DisconnectRenames(g, s);
      case Receives(s, m) => ReceiveRenames(g, s, m);
      case Registers(s, uuid, id) => RegisterRenames(g, s, uuid, id);
      case AsksList(agent, host) => AskListRenames(g, agent, host);
      case StopsLogs(r) => StopRenames(g, r);
      case Closes(s) =>
      case TimerFires(t) =>
      case _ => CallRenames(g, e);
    }
  }

  lemma StopRenames(g: State, r: string)
    ensures Renamed(g, StopLogs(g, r), StopsLogs(r))
  {
    hide UnsubscribeEnvelope;
  }

  // ---------- in the fleet ----------

  ghost predicate OwnMessages(agent: string, up: seq<AgentMessage>) {
    forall i :: 0 <= i < |up| && up[i].Heartbeat? ==> up[i].uuid == agent
  }

  ghost predicate Named(w: World, s: SocketId) {
    s in w.links && s in w.g.clients && w.links[s].agent != ""
    && (w.g.clients[s].agentUuid == "" || w.g.clients[s].agentUuid == w.links[s].agent)
  }

  /** A uuid's socket leads to the agent of that uuid, and its disconnect will be known as that agent's. */
  ghost predicate Identified(w: World) {
    && w.links.Keys == w.g.clients.Keys
    && (forall s :: s in w.links ==> Named(w, s) && OwnMessages(w.links[s].agent, w.links[s].up))
    && (forall u :: u in w.g.sockets ==>
          w.g.sockets[u] in w.links && w.links[w.g.sockets[u]].agent == u && w.g.clients[w.g.sockets[u]].agentUuid == u)
  }

  /** `h`: the gateway after the event. */
  lemma RenamedIdentified(w: World, e: Event, h: State, links: map<SocketId, Link>)
    requires Identified(w) && Renamed(w.g, h, e) && links.Keys == w.links.Keys
    requires forall s :: s in links ==> links[s].agent == w.links[s].agent && OwnMessages(links[s].agent, links[s].up)
    requires forall s, u :: s in w.links && Names(e, s, u) ==> u == w.links[s].agent
    ensures Identified(w.(g := h, links := links))
  {
    hide OwnMessages, Names;
    var v := w.(g := h, links := links);
    forall s | s in v.links ensures Named(v, s) {
      assert Named(w, s);
    }
  }

  lemma ServeKeepsIdentified(w: World, e: Event, links: map<SocketId, Link>)
    requires Identified(w) && !e.Connects? && links.Keys == w.links.Keys
    requires forall s :: s in links ==> links[s].agent == w.links[s].agent && OwnMessages(links[s].agent, links[s].up)
    requires e.Registers? ==> e.socket in w.links && e.uuid == w.links[e.socket].agent
    requires e.Receives? && e.message.Heartbeat? && e.socket in w.links ==> e.message.uuid == w.links[e.socket].agent
    ensures Identified(w.(g := Next(w.g, e), links := links))
  {
    hide Next, OwnMessages, Named, Renamed;
    StepRenames(w.g, e);
    RenamedIdentified(w, e, Next(w.g, e), links);
  }

  lemma DialKeepsIdentified(w: World, agent: string, s: SocketId)
    requires Identified(w) && Possible(w, Dials(agent, s))
    ensures Identified(NextWorld(w, Dials(agent, s)))
  {
    assert OwnMessages(agent, []);
    hide OwnMessages, Named;
    var v := NextWorld(w, Dials(agent, s));
    forall t | t in v.links ensures Named(v, t) && OwnMessages(v.links[t].agent, v.links[t].up) {
      DialNames(w, agent, s, t);
    }
  }

  lemma DialNames(w: World, agent: string, s: SocketId, t: SocketId)
    requires Possible(w, Dials(agent, s)) && (t == s || Named(w, t))
    ensures Named(NextWorld(w, Dials(agent, s)), t)
  {}

  /** Nothing an agent does changes what is known of sockets, so long as it speaks under its own uuid. */
  lemma AgentKeepsIdentified(w: World, v: World)
    requires Identified(w) && v.g == w.g && v.links.Keys == w.links.Keys
    requires forall s :: s in v.links ==> v.links[s].agent == w.links[s].agent && OwnMessages(v.links[s].agent, v.links[s].up)
    ensures Identified(v)
  {
    hide OwnMessages;
    forall s | s in v.links ensures Named(v, s) {
      assert Named(w, s);
    }
  }

  lemma SpeakKeepsIdentified(w: World, s: SocketId, m: AgentMessage)
    requires Identified(w) && (m.Heartbeat? && s in w.links ==> m.uuid == w.links[s].agent)
    ensures Identified(Speak(w, s, m))
  {
    var v := Speak(w, s, m);
    forall t | t in v.links ensures v.links[t].agent == w.links[t].agent && OwnMessages(v.links[t].agent, v.links[t].up) {
      assert OwnMessages(w.links[t].agent, w.links[t].up);
    }
    AgentKeepsIdentified(w, v);
  }

  lemma CarriesOver(w: World, k: World)
    requires Identified(w) && k.g == w.g && k.links == w.links
    ensures Identified(k)
  {
    hide OwnMessages;
    forall s | s in k.links ensures Named(k, s) {
      assert Named(w, s);
    }
  }

  lemma ObeyKeepsIdentified(w: World, s: SocketId, agent: string, i: Instruction, d: Docker)
    requires Identified(w)
    ensures Identified(Obey(w, s, agent, i, d))
  {
    hide Identified, Obey, Speak;
    var m := ObeySays(w, s, agent, i, d);
    if m.Some? {
      SpeakKeepsIdentified(w, s, m.value);
      SpeakKeepsG(w, s, m.value);
      CarriesOver(Speak(w, s, m.value), Obey(w, s, agent, i, d));
    } else {
      CarriesOver(w, Obey(w, s, agent, i, d));
    }
  }

  lemma SpeakKeepsG(w: World, s: SocketId, m: AgentMessage)
    ensures Speak(w, s, m).g == w.g
  {}

  lemma TakeKeepsIdentified(w: World, s: SocketId, d: Docker)
    requires Identified(w)
    ensures Identified(Take(w, s, d))
  {
    hide Read, Obey, Identified, AwaitRegistered;
    if s in w.links && s in w.g.clients && w.links[s].taken < |w.g.clients[s].sent| {
      var l := w.links[s];
      var i := Read(w.g.clients[s].sent[l.taken]);
      var k := w.(links := w.links[s := l.(taken := l.taken + 1)]);
      RelinkKeepsIdentified(w, k, s);
      if l.registered {
        ObeyKeepsIdentified(k, s, l.agent, i, d);
      } else {
        AwaitKeepsIdentified(k, s, i);
      }
    }
  }

  lemma AwaitKeepsIdentified(w: World, s: SocketId, i: Instruction)
    requires Identified(w) && s in w.links
    ensures Identified(AwaitRegistered(w, s, i))
  {
    hide Identified;
    RelinkKeepsIdentified(w, AwaitRegistered(w, s, i), s);
  }

  /** A link changes in other ways than what has been said on it. */
  lemma RelinkKeepsIdentified(w: World, v: World, s: SocketId)
    requires Identified(w) && v.g == w.g && s in w.links && v.links.Keys == w.links.Keys
    requires v.links[s].agent == w.links[s].agent && v.links[s].up == w.links[s].up
    requires v.links == w.links[s := v.links[s]]
    ensures Identified(v)
  {
    hide OwnMessages;
    forall t | t in v.links ensures Named(v, t) {
      assert Named(w, t);
    }
  }

  lemma MoveStreamKeepsIdentified(w: World, r: string, move: Batching.Step)
    requires Identified(w)
    ensures Identified(MoveStream(w, r, move))
  {
    hide Identified, Batching.Next, Speak;
    if r in w.streams {
      var ls := w.streams[r];
      var next := Batching.Next(ls.stream, move);
      var k := w.(streams := w.streams[r := ls.(stream := next)]);
      CarriesOver(w, k);
      if |next.work.handed| > |ls.stream.work.handed| && ls.agent in w.sessions {
        SpeakKeepsIdentified(k, w.sessions[ls.agent],
                             Chunk(ChunkPayload(r, ls.container, Some(next.work.handed[|ls.stream.work.handed|]))));
      }
    }
  }

  lemma ArriveKeepsIdentified(w: World, s: SocketId)
    requires Identified(w) && Possible(w, Arrives(s))
    ensures Identified(Arrive(w, s))
  {
    hide Next;
    var up := w.links[s].up;
    assert OwnMessages(w.links[s].agent, up);
    assert OwnMessages(w.links[s].agent, up[1..]);
    ServeKeepsIdentified(w, Receives(s, up[0]), w.links[s := w.links[s].(up := up[1..])]);
  }

  lemma StepKeepsIdentified(w: World, step: Step)
    requires Identified(w) && Possible(w, step)
    ensures Identified(NextWorld(w, step))
  {
    hide Next, Take, MoveStream, Arrive, Speak, OwnMessages, Enabled, Named;
    match step {
      case Dials(agent, s) => DialKeepsIdentified(w, agent, s);
      case Serves(e) => ServeKeepsIdentified(w, e, w.links);
      case Notices(s) => ServeKeepsIdentified(w, Disconnects(s), w.links[s := w.links[s].(serverUp := false)]);
      case Arrives(s) => ArriveKeepsIdentified(w, s);
      case Says(s, m) => SpeakKeepsIdentified(w, s, m);
      case Takes(s, d) => TakeKeepsIdentified(w, s, d);
      case Loses(s) => RelinkKeepsIdentified(w, HangUp(w, s), s);
      case Streams(r, move) => MoveStreamKeepsIdentified(w, r, move);
    }
  }

  lemma {:induction false} AlwaysIdentified(w: World, steps: seq<Step>, v: World)
    requires Identified(w) && Happens(w, steps, v)
    ensures Identified(v)
    decreases |steps|
  {
    hide Identified, Possible, NextWorld;
    if steps != [] {
      StepKeepsIdentified(w, steps[0]);
      AlwaysIdentified(NextWorld(w, steps[0]), steps[1..], v);
    }
  }
}
