/** The link between a request id and the envelope that carries it: an id is sent once, on one socket, for
    the order it was generated for. */
module GatewayTrace {
  import opened Prelude
  import opened Inventory
  import opened Protocol
  import opened Outstanding
  import opened Gateway

  /** The request id of an envelope that gives the agent an order. */
  function RequestOf(e: Envelope): Option<string> {
    match e.payload
    case Target(r, _, _) => Some(r)
    case Subscription(r, _, _, _) => Some(r)
    case _ => None
  }

  function EnvelopeFor(r: string, order: Order): Envelope {
    match order
    case CommandOrder(action, container, force) => CommandEnvelope(action, r, container, force)
    case InspectOrder(container) => InspectEnvelope(r, container)
    case LogOrder(container, tail, follow) => SubscribeEnvelope(r, container, tail, follow)
  }

  ghost predicate EnvelopeTraced(e: Envelope, s: SocketId, i: nat, issued: map<string, Issue>) {
    RequestOf(e).Some? ==>
      var r := RequestOf(e).value;
      r in issued && issued[r].socket == s && issued[r].index == i
  }

  ghost predicate SentTraced(sent: seq<Envelope>, s: SocketId, issued: map<string, Issue>) {
    forall i :: 0 <= i < |sent| ==> EnvelopeTraced(sent[i], s, i, issued)
  }

  ghost predicate IssueTraced(clients: map<SocketId, Client>, r: string, i: Issue) {
    r != "" && i.socket in clients && i.index < |clients[i.socket].sent|
    && clients[i.socket].sent[i.index] == EnvelopeFor(r, i.order)
  }

  /** Each request id is carried by exactly the envelope recorded for it. */
  ghost predicate Traced(g: State) {
    && (forall s :: s in g.clients ==> SentTraced(g.clients[s].sent, s, g.issued))
    && (forall r :: r in g.issued ==> IssueTraced(g.clients, r, g.issued[r]))
  }

  lemma EnvelopeNamesRequest(r: string, order: Order)
    ensures RequestOf(EnvelopeFor(r, order)) == Some(r)
  {}

  /** What was sent stays sent. */
  ghost predicate SentGrows(g: State, h: State) {
    forall s :: s in g.clients ==> s in h.clients && g.clients[s].sent <= h.clients[s].sent
  }

  /** Steps that send nothing change sockets in other ways, if at all. */
  ghost predicate SameSent(g: State, h: State) {
    h.issued == g.issued && h.clients.Keys == g.clients.Keys
    && forall s :: s in g.clients ==> h.clients[s].sent == g.clients[s].sent
  }

  lemma SameSentTraced(g: State, h: State)
    requires Traced(g) && SameSent(g, h)
    ensures Traced(h) && SentGrows(g, h)
  {
    hide EnvelopeFor, EnvelopeTraced;
    forall r | r in h.issued ensures IssueTraced(h.clients, r, h.issued[r]) {
      assert IssueTraced(g.clients, r, g.issued[r]);
    }
  }

  lemma PostTraced(g: State, s: SocketId, e: Envelope)
    requires Traced(g) && RequestOf(e).None?
    ensures Traced(Post(g, s, e)) && SentGrows(g, Post(g, s, e))
  {
    hide EnvelopeFor;
    var h := Post(g, s, e);
    forall r | r in h.issued ensures IssueTraced(h.clients, r, h.issued[r]) {
      assert IssueTraced(g.clients, r, g.issued[r]);
    }
  }

  lemma IssuingTraced(g: State, s: SocketId, r: string, order: Order, e: Envelope)
    requires Traced(g) && NewId(g, r) && e == EnvelopeFor(r, order)
    requires s in g.clients && g.clients[s].open
    ensures Traced(Issuing(g, s, r, order, e)) && SentGrows(g, Issuing(g, s, r, order, e))
  {
    EnvelopeNamesRequest(r, order);
    hide EnvelopeFor;
    var h := Issuing(g, s, r, order, e);
    var at := |g.clients[s].sent|;
    assert h.clients[s].sent == g.clients[s].sent + [e];
    forall q | q in h.issued ensures IssueTraced(h.clients, q, h.issued[q]) {
      assert q in g.issued ==> IssueTraced(g.clients, q, g.issued[q]);
    }
    forall t | t in h.clients ensures SentTraced(h.clients[t].sent, t, h.issued) {
      forall i | 0 <= i < |h.clients[t].sent| ensures EnvelopeTraced(h.clients[t].sent[i], t, i, h.issued) {
        assert i < |g.clients[t].sent| ==> EnvelopeTraced(g.clients[t].sent[i], t, i, g.issued);
      }
    }
  }

  lemma GrowsTransitive(a: State, b: State, c: State)
    requires SentGrows(a, b) && SentGrows(b, c)
    ensures SentGrows(a, c)
  {}

  lemma RegisterTraced(g: State, s: SocketId, uuid: string, id: string)
    requires Traced(g)
    ensures Traced(Gateway.Register(g, s, uuid, id)) && SentGrows(g, Gateway.Register(g, s, uuid, id))
  {
    hide Traced, SentGrows, EnvelopeTraced, IssueTraced;
    if s in g.clients {
      var k := Remembering(g.(clients := g.clients[s := g.clients[s].(agentUuid := uuid, agentId := Some(id))],
                              sockets := g.sockets[uuid := s]), id, uuid);
      SameSentTraced(g, k);
      PostTraced(k, s, RegisteredEnvelope(id, uuid, ""));
      var l := Post(k, s, RegisteredEnvelope(id, uuid, ""));
      PostTraced(l, s, ListEnvelope());
      GrowsTransitive(g, k, l);
      GrowsTransitive(g, l, Post(l, s, ListEnvelope()));
    } else {
      SameSentTraced(g, g);
    }
  }

  lemma AskListTraced(g: State, agent: string, host: string)
    requires Traced(g)
    ensures Traced(AskList(g, agent, host)) && SentGrows(g, AskList(g, agent, host))
  {
    hide Traced, SentGrows, RememberHost, Close, Open;
    var k := Remembering(g, host, agent);
    SameSentTraced(g, k);
    if Connected(k, agent).Some? {
      var freed := Close(k.ledger, ForList(agent), Listing(CachedByUuid(k, agent)));
      var l := k.(ledger := Open(freed, ForList(agent), agent, host));
      SameSentTraced(g, l);
      PostTraced(l, Connected(k, agent).value, ListEnvelope());
      GrowsTransitive(g, l, Post(l, Connected(k, agent).value, ListEnvelope()));
    }
  }

  /** Common to the three calls that generate a request id: `k` is the gateway just before the envelope. */
  lemma OrderTraced(g: State, k: State, s: SocketId, r: string, order: Order, e: Envelope)
    requires Traced(g) && NewId(g, r) && e == EnvelopeFor(r, order) && SameSent(g, k)
    requires s in k.clients && k.clients[s].open
    ensures Traced(Issuing(k, s, r, order, e)) && SentGrows(g, Issuing(k, s, r, order, e))
  {
    hide Traced, SentGrows, EnvelopeFor;
    SameSentTraced(g, k);
    IssuingTraced(k, s, r, order, e);
    GrowsTransitive(g, k, Issuing(k, s, r, order, e));
  }

  lemma SendCommandTraced(g: State, agent: string, host: string, action: Action, container: string, force: bool, r: string)
    requires Traced(g) && NewId(g, r)
    ensures var h := SendCommand(g, agent, host, action, container, force, r); Traced(h) && SentGrows(g, h)
  {
    hide Traced, SentGrows, RememberHost, Open, CommandEnvelope, Issuing;
    var k := Remembering(g, host, agent);
    SameSentTraced(g, k);
    if Connected(k, agent).Some? {
      OrderTraced(g, k.(ledger := Open(k.ledger, ForCommand(r), agent, host)), Connected(k, agent).value, r,
                  CommandOrder(action, container, force), CommandEnvelope(action, r, container, force));
    }
  }

  lemma AskInspectTraced(g: State, agent: string, host: string, container: string, r: string)
    requires Traced(g) && NewId(g, r)
    ensures var h := AskInspect(g, agent, host, container, r); Traced(h) && SentGrows(g, h)
  {
    hide Traced, SentGrows, RememberHost, Open, InspectEnvelope, Issuing;
    var k := Remembering(g, host, agent);
    SameSentTraced(g, k);
    if Connected(k, agent).Some? {
      OrderTraced(g, k.(ledger := Open(k.ledger, ForInspect(r), agent, host)), Connected(k, agent).value, r,
                  InspectOrder(container), InspectEnvelope(r, container));
    }
  }

  lemma StartLogsTraced(g: State, agent: string, host: string, container: string, tail: int, follow: bool, r: string)
    requires Traced(g) && NewId(g, r)
    ensures var h := StartLogs(g, agent, host, container, tail, follow, r); Traced(h) && SentGrows(g, h)
  {
    hide Traced, SentGrows, RememberHost, SubscribeEnvelope, Issuing;
    var k := Remembering(g, host, agent);
    SameSentTraced(g, k);
    if Connected(k, agent).Some? {
      OrderTraced(g, k.(subscribers := k.subscribers[r := Subscriber(agent, container)]), Connected(k, agent).value, r,
                  LogOrder(container, tail, follow), SubscribeEnvelope(r, container, tail, follow));
    }
  }

  lemma StopLogsTraced(g: State, r: string)
    requires Traced(g)
    ensures Traced(StopLogs(g, r)) && SentGrows(g, StopLogs(g, r))
  {
    hide Traced, SentGrows;
    if r !in g.subscribers {
      SameSentTraced(g, g);
    } else {
      var k := g.(subscribers := g.subscribers - {r});
      SameSentTraced(g, k);
      if Connected(k, g.subscribers[r].agent).Some? {
        var s := Connected(k, g.subscribers[r].agent).value;
        PostTraced(k, s, UnsubscribeEnvelope(r));
        GrowsTransitive(g, k, Post(k, s, UnsubscribeEnvelope(r)));
      }
    }
  }

  lemma ReceiveTraced(g: State, s: SocketId, m: AgentMessage)
    requires Traced(g)
    ensures Traced(Receive(g, s, m)) && SentGrows(g, Receive(g, s, m))
  {
    hide Traced, SentGrows, SetContainers, Close;
    match m {
      case Garbled => PostTraced(g, s, RegisteredEnvelope("", "", "Invalid JSON message"));
      case Register(uuid, hostname, os) =>
        PostTraced(g, s, RegisteredEnvelope("", uuid, "Invalid registration payload"));
        SameSentTraced(g, g);
      case _ => SameSentTraced(g, Receive(g, s, m));
    }
  }

  lemma DisconnectTraced(g: State, s: SocketId)
    requires Traced(g)
    ensures Traced(Disconnect(g, s)) && SentGrows(g, Disconnect(g, s))
  {
    hide Traced, SentGrows, AgentGone;
    SameSentTraced(g, Disconnect(g, s));
  }

  lemma ConnectTraced(g: State, s: SocketId)
    requires Traced(g) && s !in g.clients
    ensures Traced(Next(g, Connects(s))) && SentGrows(g, Next(g, Connects(s)))
  {
    hide EnvelopeFor, EnvelopeTraced;
    var h := Next(g, Connects(s));
    forall r | r in h.issued ensures IssueTraced(h.clients, r, h.issued[r]) {
      assert IssueTraced(g.clients, r, g.issued[r]);
    }
  }

  lemma StepKeepsTraced(g: State, e: Event)
    requires Traced(g) && Enabled(g, e)
    ensures Traced(Next(g, e)) && SentGrows(g, Next(g, e))
  {
    hide Traced, SentGrows, Gateway.Register, AskList, SendCommand, AskInspect, StartLogs, StopLogs, Receive, Disconnect, Expire;
    match e {
      case Connects(s) => ConnectTraced(g, s);
      case Disconnects(s) => DisconnectTraced(g, s);
      case Receives(s, m) => ReceiveTraced(g, s, m);
      case Registers(s, uuid, id) => RegisterTraced(g, s, uuid, id);
      case AsksList(agent, host) => AskListTraced(g, agent, host);
      case SendsCommand(agent, host, action, container, force, r) => SendCommandTraced(g, agent, host, action, container, force, r);
      case AsksInspect(agent, host, container, r) => AskInspectTraced(g, agent, host, container, r);
      case StartsLogs(agent, host, container, tail, follow, r) => StartLogsTraced(g, agent, host, container, tail, follow, r);
      case StopsLogs(r) => StopLogsTraced(g, r);
      case Closes(s) => SameSentTraced(g, Next(g, e));
      case TimerFires(t) => SameSentTraced(g, Next(g, e));
    }
  }

  // ---------- what the agent reads ----------

  function InstructionFor(r: string, order: Order): Instruction {
    match order
    case CommandOrder(action, container, force) => Command(Some(action), Name(action), r, container, action.Remove? && force)
    case InspectOrder(container) => Inspect(r, container)
    case LogOrder(container, tail, follow) => Subscribe(r, container, EffectiveTail(tail), follow)
  }

  /** The agent reads an order as the order that was sent. */
  lemma OrderRead(r: string, order: Order)
    ensures Read(EnvelopeFor(r, order)) == InstructionFor(r, order)
  {
    if order.CommandOrder? {
      CommandRead(order.action, r, order.container, order.force);
    }
  }

  lemma NoOrderRead(e: Envelope)
    requires RequestOf(e).None?
    ensures !Read(e).Command? && !Read(e).Inspect? && !Read(e).Subscribe?
  {}

  /** Whatever envelope the agent finds at position `i` of a socket, it obeys an order recorded for that
      very position, or no order at all. */
  lemma ReadAt(g: State, s: SocketId, i: nat)
    requires Traced(g) && s in g.clients && i < |g.clients[s].sent|
    ensures var e := g.clients[s].sent[i];
      match RequestOf(e)
      case Some(r) => r != "" && r in g.issued && g.issued[r] == Issue(s, i, g.issued[r].order)
                      && Read(e) == InstructionFor(r, g.issued[r].order)
      case None => !Read(e).Command? && !Read(e).Inspect? && !Read(e).Subscribe?
  {
    hide EnvelopeFor, InstructionFor, Read;
    var e := g.clients[s].sent[i];
    assert SentTraced(g.clients[s].sent, s, g.issued);
    assert EnvelopeTraced(e, s, i, g.issued);
    if RequestOf(e).Some? {
      var r := RequestOf(e).value;
      assert IssueTraced(g.clients, r, g.issued[r]);
      OrderRead(r, g.issued[r].order);
    } else {
      NoOrderRead(e);
    }
  }
}
