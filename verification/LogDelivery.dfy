/** Log streams, end to end: what a subscriber's onChunk sees, against what the agent's stream decoded. Here an
    agent reconnects only after the server has handled its last disconnect, so that each uuid has one live
    socket. */
module LogDelivery {
  import Batching
  import opened Prelude
  import opened Decode
  import opened Inventory
  import opened Protocol
  import opened Outstanding
  import opened Gateway
  import opened GatewayRuns
  import opened GatewayTrace
  import opened Fleet
  import opened Identity
  import opened CommandDelivery

  // ---------- chunks ----------

  function SeenIn(m: AgentMessage, r: string): seq<Seen> {
    if m.Chunk? && m.chunk.requestId == r
    then [Seen(m.chunk.containerId, if m.chunk.entries.Some? then m.chunk.entries.value else [])] else []
  }

  /** A request's chunks on their way to the server. */
  function Flight(up: seq<AgentMessage>, r: string): seq<Seen> {
    if up == [] then [] else SeenIn(up[0], r) + Flight(up[1..], r)
  }

  function Labelled(container: string, chunks: seq<seq<Entry>>): seq<Seen> {
    if chunks == [] then [] else Labelled(container, chunks[..|chunks| - 1]) + [Seen(container, chunks[|chunks| - 1])]
  }

  function EntriesOf(seen: seq<Seen>): seq<Entry> {
    if seen == [] then [] else EntriesOf(seen[..|seen| - 1]) + seen[|seen| - 1].entries
  }

  lemma {:induction false} FlightSnoc(up: seq<AgentMessage>, m: AgentMessage, r: string)
    ensures Flight(up + [m], r) == Flight(up, r) + SeenIn(m, r)
  {
    hide SeenIn;
    if up == [] {
      assert up + [m] == [m] && [m][1..] == [];
      assert Flight([m], r) == SeenIn(m, r) + Flight([], r);
    } else {
      assert (up + [m])[1..] == up[1..] + [m];
      FlightSnoc(up[1..], m, r);
      Associate(SeenIn(up[0], r), Flight(up[1..], r), SeenIn(m, r));
    }
  }

  lemma LabelledSnoc(container: string, chunks: seq<seq<Entry>>, c: seq<Entry>)
    ensures Labelled(container, chunks + [c]) == Labelled(container, chunks) + [Seen(container, c)]
  {
    assert (chunks + [c])[..|chunks|] == chunks;
  }

  lemma {:induction false} LabelledEntries(container: string, chunks: seq<seq<Entry>>)
    ensures EntriesOf(Labelled(container, chunks)) == Concat(chunks)
  {
    if chunks != [] {
      var rest, last := chunks[..|chunks| - 1], chunks[|chunks| - 1];
      LabelledEntries(container, rest);
      LabelledSnoc(container, rest, last);
      assert chunks == rest + [last];
      ConcatSnoc(rest, last);
      var l := Labelled(container, rest) + [Seen(container, last)];
      assert l[..|l| - 1] == Labelled(container, rest);
    }
  }

  lemma {:induction false} EntriesPrefix(a: seq<Seen>, b: seq<Seen>)
    requires a <= b
    ensures EntriesOf(a) <= EntriesOf(b)
  {
    if a != b {
      EntriesPrefix(a, b[..|b| - 1]);
    }
  }

  // ---------- invariants ----------

  /** What the agent has handed over for a request. */
  function Handed(streams: map<string, LogStream>, r: string): seq<Seen> {
    if r in streams then Labelled(streams[r].container, streams[r].stream.work.handed) else []
  }

  predicate Rivals(a: Link, b: Link) {
    a.agent == b.agent && a.serverUp && (b.serverUp || b.agentUp)
  }

  /** The end of a link that is up at the server, and the end that is up at the agent, are of one link. */
  ghost predicate OneLive(links: map<SocketId, Link>) {
    forall s, t :: s in links && t in links && Rivals(links[s], links[t]) ==> s == t
  }

  ghost predicate SessionsSound(w: World) {
    && OneLive(w.links)
    && (forall a :: a in w.sessions ==>
          w.sessions[a] in w.links && w.links[w.sessions[a]].agent == a && w.links[w.sessions[a]].agentUp)
    && (forall s :: s in w.links && w.links[s].agentUp ==>
          w.links[s].agent in w.sessions && w.sessions[w.links[s].agent] == s)
    && (forall s :: s in w.links && s in w.g.clients && w.g.clients[s].open ==> w.links[s].serverUp)
  }

  /** A stream was opened for its own request's order, and conserves what it decodes. */
  ghost predicate StreamTraced(issued: map<string, Issue>, links: map<SocketId, Link>, r: string, ls: LogStream) {
    && r in issued && issued[r].order.LogOrder? && issued[r].order.container == ls.container
    && issued[r].socket in links && links[issued[r].socket].agent == ls.agent
    && issued[r].index < links[issued[r].socket].taken
    && Batching.Conserved(ls.stream) && ls.stream.source == ls.source
  }

  ghost predicate StreamsTraced(w: World) {
    forall r :: r in w.streams ==> StreamTraced(w.g.issued, w.links, r, w.streams[r])
  }

  ghost predicate ChunksKnown(up: seq<AgentMessage>, streams: map<string, LogStream>) {
    forall i :: 0 <= i < |up| && up[i].Chunk? ==> up[i].chunk.requestId in streams
  }

  /** A subscriber's socket is up, its agent's, and carries its chunks; no other does. What it has seen and
      what is in flight is what was handed over, as long as the agent is on that socket. */
  ghost predicate Flowing(issued: map<string, Issue>, clients: map<SocketId, Client>, links: map<SocketId, Link>,
                          r: string, subscriber: Subscriber, observed: seq<Seen>, handed: seq<Seen>)
  {
    && r in issued && issued[r].order.LogOrder? && issued[r].socket in links && issued[r].socket in clients
    && var s := issued[r].socket;
       var l := links[s];
       && l.serverUp && l.agent == subscriber.agent && clients[s].agentUuid == subscriber.agent
       && observed + Flight(l.up, r) <= handed
       && (l.agentUp ==> observed + Flight(l.up, r) == handed)
       && forall t :: t in links && t != s && links[t].serverUp ==> Flight(links[t].up, r) == []
  }

  ghost predicate SubscribersFlowing(w: World) {
    forall r :: r in w.g.subscribers ==>
      Flowing(w.g.issued, w.g.clients, w.links, r, w.g.subscribers[r], Observed(w.g, r), Handed(w.streams, r))
  }

  ghost predicate ObservedHanded(w: World) {
    forall r {:trigger Observed(w.g, r)} :: Observed(w.g, r) <= Handed(w.streams, r)
  }

  ghost predicate Delivering(w: World) {
    && SessionsSound(w) && StreamsTraced(w) && SubscribersFlowing(w) && ObservedHanded(w)
    && (forall s :: s in w.links ==> ChunksKnown(w.links[s].up, w.streams))
  }

  /** An agent does not connect while the server still believes in an earlier connection of it. */
  ghost predicate Disciplined(w: World, step: Step) {
    step.Dials? ==> forall s :: s in w.links && w.links[s].serverUp ==> w.links[s].agent != step.agent
  }

  ghost predicate DisciplinedRun(w: World, steps: seq<Step>, v: World)
    decreases |steps|
  {
    if steps == [] then w == v
    else Possible(w, steps[0]) && Disciplined(w, steps[0]) && DisciplinedRun(NextWorld(w, steps[0]), steps[1..], v)
  }

  // ---------- links that lose an end, or are new ----------

  ghost predicate Fades(before: Link, after: Link) {
    && after.agent == before.agent && after.up == before.up
    && (after.serverUp ==> before.serverUp) && (after.agentUp ==> before.agentUp)
  }

  ghost predicate AllFade(before: map<SocketId, Link>, after: map<SocketId, Link>) {
    forall t :: t in after ==> if t in before then Fades(before[t], after[t]) else after[t].up == []
  }

  lemma FadingFlows(issued: map<string, Issue>, clients: map<SocketId, Client>, links: map<SocketId, Link>,
                    later: map<string, Issue>, after: map<SocketId, Client>, faded: map<SocketId, Link>,
                    r: string, subscriber: Subscriber, observed: seq<Seen>, handed: seq<Seen>)
    requires Flowing(issued, clients, links, r, subscriber, observed, handed)
    requires r in later && later[r] == issued[r]
    requires issued[r].socket in after && after[issued[r].socket].agentUuid == clients[issued[r].socket].agentUuid
    requires AllFade(links, faded) && issued[r].socket in faded && faded[issued[r].socket].serverUp
    ensures Flowing(later, after, faded, r, subscriber, observed, handed)
  {
    var s := issued[r].socket;
    assert Fades(links[s], faded[s]);
    forall t | t in faded && t != s && faded[t].serverUp ensures Flight(faded[t].up, r) == [] {
      assert t in links ==> Fades(links[t], faded[t]);
    }
  }

  // ---------- the gateway's steps ----------

  /** A known socket keeps its name. */
  lemma NameStays(w: World, e: Event, s: SocketId)
    requires Identified(w) && s in w.links && w.g.clients[s].agentUuid != "" && !e.Connects?
    requires e.Registers? ==> e.socket in w.links && e.uuid == w.links[e.socket].agent
    requires e.Receives? && e.message.Heartbeat? && e.socket in w.links ==> e.message.uuid == w.links[e.socket].agent
    ensures s in Next(w.g, e).clients && Next(w.g, e).clients[s].agentUuid == w.g.clients[s].agentUuid
  {
    hide Next, OwnMessages;
    assert Named(w, s);
    StepRenames(w.g, e);
  }

  /** The links after a step of the gateway alone. */
  ghost predicate ServerLinks(before: map<SocketId, Link>, after: map<SocketId, Link>, e: Event) {
    && after.Keys == before.Keys
    && forall s :: s in before ==> after[s] == before[s].(serverUp := before[s].serverUp && e != Disconnects(s))
  }

  lemma ServeKeepsSessions(w: World, e: Event, h: State, links: map<SocketId, Link>)
    requires SessionsSound(w) && w.links.Keys == w.g.clients.Keys && Renamed(w.g, h, e) && ServerLinks(w.links, links, e)
    ensures SessionsSound(w.(g := h, links := links))
  {
    hide OneLive, Renamed;
    OneLiveStays(w.links, links, e);
    RenamedOpen(w.g, h, e);
  }

  lemma RenamedOpen(g: State, h: State, e: Event)
    requires Renamed(g, h, e)
    ensures h.clients.Keys == g.clients.Keys
    ensures forall s :: s in g.clients && h.clients[s].open ==> g.clients[s].open && e != Disconnects(s)
  {}

  lemma OneLiveStays(before: map<SocketId, Link>, after: map<SocketId, Link>, e: Event)
    requires OneLive(before) && ServerLinks(before, after, e)
    ensures OneLive(after)
  {
    forall s, t | s in after && t in after && Rivals(after[s], after[t]) ensures s == t {
      assert Rivals(before[s], before[t]);
    }
  }

  lemma ServeKeepsStreams(w: World, v: World)
    requires StreamsTraced(w) && Extends(w, v) && v.streams == w.streams
    requires forall s :: s in w.links ==> s in v.links && v.links[s].taken >= w.links[s].taken
    ensures StreamsTraced(v)
  {
    hide Batching.Conserved;
    forall r | r in v.streams ensures StreamTraced(v.g.issued, v.links, r, v.streams[r]) {
      assert StreamTraced(w.g.issued, w.links, r, w.streams[r]);
    }
  }

  lemma ServeKeepsChunks(w: World, v: World)
    requires forall s :: s in w.links ==> ChunksKnown(w.links[s].up, w.streams)
    requires v.streams == w.streams && forall s :: s in v.links ==> s in w.links && v.links[s].up == w.links[s].up
    ensures forall s :: s in v.links ==> ChunksKnown(v.links[s].up, v.streams)
  {
    hide ChunksKnown;
    forall s | s in v.links ensures ChunksKnown(v.links[s].up, v.streams) {
      assert ChunksKnown(w.links[s].up, w.streams);
    }
  }

  lemma ServeKeepsObserved(w: World, e: Event, links: map<SocketId, Link>)
    requires ObservedHanded(w) && !e.Receives?
    ensures ObservedHanded(w.(g := Next(w.g, e), links := links))
  {
    hide Next, Handed;
    var v := w.(g := Next(w.g, e), links := links);
    forall r: string ensures Observed(v.g, r) <= Handed(v.streams, r) {
      StepObserves(w.g, e, r);
      assert Observed(w.g, r) <= Handed(w.streams, r);
    }
  }

  /** A subscriber that a disconnect leaves subscribed is not on the socket that disconnected. */
  lemma StillConnected(w: World, e: Event, r: string)
    requires SubscribersFlowing(w) && Identified(w) && r in w.g.subscribers && r in Next(w.g, e).subscribers
    ensures r in w.g.issued && e != Disconnects(w.g.issued[r].socket)
  {
    hide Flight, OwnMessages;
    assert Flowing(w.g.issued, w.g.clients, w.links, r, w.g.subscribers[r], Observed(w.g, r), Handed(w.streams, r));
    var s := w.g.issued[r].socket;
    assert Named(w, s);
    if e == Disconnects(s) {
      DisconnectFrame(w.g, s);
    }
  }

  predicate Quiet(w: World, e: Event) {
    && !e.Connects? && !e.Receives?
    && (e.Registers? ==> e.socket in w.links && e.uuid == w.links[e.socket].agent)
  }

  /** A subscriber's socket is up at the server and known by name. */
  lemma SubscriberOnline(w: World, r: string)
    requires SubscribersFlowing(w) && Identified(w) && r in w.g.subscribers
    ensures r in w.g.issued && w.g.issued[r].socket in w.links && w.g.issued[r].socket in w.g.clients
    ensures w.links[w.g.issued[r].socket].serverUp && w.g.clients[w.g.issued[r].socket].agentUuid != ""
    ensures Flowing(w.g.issued, w.g.clients, w.links, r, w.g.subscribers[r], Observed(w.g, r), Handed(w.streams, r))
  {
    hide Handed, Flight, Observed, OwnMessages, Named;
    assert Flowing(w.g.issued, w.g.clients, w.links, r, w.g.subscribers[r], Observed(w.g, r), Handed(w.streams, r));
    assert Named(w, w.g.issued[r].socket);
    NamedNonEmpty(w, w.g.issued[r].socket);
  }

  lemma OldSubscriberFlows(w: World, e: Event, links: map<SocketId, Link>, r: string)
    requires SubscribersFlowing(w) && Identified(w) && Quiet(w, e) && Enabled(w.g, e)
    requires ServerLinks(w.links, links, e) && r in w.g.subscribers && r in Next(w.g, e).subscribers
    ensures var h := Next(w.g, e);
      Flowing(h.issued, h.clients, links, r, w.g.subscribers[r], Observed(h, r), Handed(w.streams, r))
  {
    hide Next, SubscribersFlowing, Identified, Flowing, Handed, Observed, Enabled;
    var h := Next(w.g, e);
    SubscriberOnline(w, r);
    StillConnected(w, e, r);
    StepObserves(w.g, e, r);
    StepKeepsIssued(w.g, e, r);
    NameStays(w, e, w.g.issued[r].socket);
    assert Observed(w.g, r) + [] == Observed(w.g, r);
    assert AllFade(w.links, links);
    FadingFlows(w.g.issued, w.g.clients, w.links, h.issued, h.clients, links, r, w.g.subscribers[r],
                Observed(w.g, r), Handed(w.streams, r));
  }

  lemma NamedNonEmpty(w: World, s: SocketId)
    requires Named(w, s)
    ensures w.links[s].agent != ""
  {}

  lemma {:induction false} NoChunks(up: seq<AgentMessage>, streams: map<string, LogStream>, r: string)
    requires ChunksKnown(up, streams) && r !in streams
    ensures Flight(up, r) == []
    decreases |up|
  {
    if up != [] {
      var rest := up[1..];
      assert forall i :: 0 <= i < |rest| ==> rest[i] == up[i + 1];
      NoChunks(rest, streams, r);
    }
  }

  /** startLogStream records the subscriber, and the order on a socket that leads to the agent. */
  lemma LogRecorded(w: World, agent: string, host: string, container: string, tail: int, follow: bool, r: string)
    requires Identified(w) && NewId(w.g, r)
    ensures var v := StartLogs(w.g, agent, host, container, tail, follow, r);
      if Connected(w.g, agent).None? then v.subscribers == w.g.subscribers
      else
        var s := w.g.sockets[agent];
        && v.subscribers == w.g.subscribers[r := Subscriber(agent, container)]
        && r in v.issued && v.issued[r].socket == s && v.issued[r].order == LogOrder(container, tail, follow)
        && s in w.links && w.links[s].agent == agent && w.g.clients[s].open
        && s in v.clients && v.clients[s].agentUuid == agent
  {
    hide RememberHost, SubscribeEnvelope, Named, OwnMessages;
  }

  lemma NewSubscriberFlows(w: World, e: Event, r: string)
    requires Delivering(w) && Identified(w) && e.StartsLogs? && Enabled(w.g, e)
    requires r in Next(w.g, e).subscribers && r !in w.g.issued && e.request == r && r !in w.g.subscribers
    ensures var h := Next(w.g, e);
      Flowing(h.issued, h.clients, w.links, r, h.subscribers[r], Observed(h, r), Handed(w.streams, r))
  {
    hide StartLogs, Flight, SubscribersFlowing, Batching.Conserved, ChunksKnown, Named, OwnMessages;
    LogRecorded(w, e.agent, e.host, e.container, e.tail, e.follow, r);
    StepObserves(w.g, e, r);
    assert r !in w.streams;
    assert Observed(w.g, r) <= Handed(w.streams, r);
    forall t | t in w.links ensures Flight(w.links[t].up, r) == [] {
      NoChunks(w.links[t].up, w.streams, r);
    }
  }

  lemma ServeKeepsFlowing(w: World, e: Event, links: map<SocketId, Link>)
    requires Delivering(w) && Identified(w) && SubscribersIssued(w.g) && Quiet(w, e) && Enabled(w.g, e)
    requires ServerLinks(w.links, links, e)
    ensures SubscribersFlowing(w.(g := Next(w.g, e), links := links))
  {
    hide Next, Flowing, Handed, Identified, Enabled, Quiet, ChunksKnown;
    var h := Next(w.g, e);
    forall r | r in h.subscribers
      ensures Flowing(h.issued, h.clients, links, r, h.subscribers[r], Observed(h, r), Handed(w.streams, r))
    {
      SubscriberOrigin(w.g, e, r);
      if r in w.g.subscribers {
        OldSubscriberFlows(w, e, links, r);
      } else {
        assert links == w.links;
        NewSubscriberFlows(w, e, r);
      }
    }
  }

  lemma ServeDelivers(w: World, e: Event, links: map<SocketId, Link>)
    requires Delivering(w) && Identified(w) && WellFormed(w.g) && Quiet(w, e) && Enabled(w.g, e)
    requires ServerLinks(w.links, links, e)
    ensures Delivering(w.(g := Next(w.g, e), links := links))
  {
    hide Next, SubscribersFlowing, ObservedHanded, SessionsSound, StreamsTraced, ChunksKnown, Enabled, Sound, RequestsIssued;
    var v := w.(g := Next(w.g, e), links := links);
    StepRenames(w.g, e);
    ServeKeepsSessions(w, e, v.g, links);
    ServeExtends(w, e, links);
    ServeKeepsStreams(w, v);
    ServeKeepsChunks(w, v);
    ServeKeepsObserved(w, e, links);
    ServeKeepsFlowing(w, e, links);
  }

  // ---------- arrivals ----------

  /** Changes to links that leave their ends alone. */
  ghost predicate SameEnds(before: map<SocketId, Link>, after: map<SocketId, Link>) {
    && after.Keys == before.Keys
    && forall s :: s in before ==> after[s].agent == before[s].agent && after[s].serverUp == before[s].serverUp
                                   && after[s].agentUp == before[s].agentUp && after[s].taken >= before[s].taken
  }

  lemma SameEndsSessions(w: World, v: World)
    requires SessionsSound(w) && v.g == w.g && v.sessions == w.sessions && SameEnds(w.links, v.links)
    ensures SessionsSound(v)
  {}

  /** The message at the head of a subscriber's own lane moves on to its observations; no other lane has
      anything for it. */
  lemma ArrivalFlows(w: World, s: SocketId, r: string, observed: seq<Seen>, links: map<SocketId, Link>, after: map<SocketId, Client>)
    requires r in w.g.subscribers && s in w.links && w.links[s].serverUp && w.links[s].up != []
    requires Flowing(w.g.issued, w.g.clients, w.links, r, w.g.subscribers[r], Observed(w.g, r), Handed(w.streams, r))
    requires observed == Observed(w.g, r) + SeenIn(w.links[s].up[0], r)
    requires links == w.links[s := w.links[s].(up := w.links[s].up[1..])]
    requires w.g.issued[r].socket in after && after[w.g.issued[r].socket].agentUuid == w.g.clients[w.g.issued[r].socket].agentUuid
    ensures Flowing(w.g.issued, after, links, r, w.g.subscribers[r], observed, Handed(w.streams, r))
    ensures observed <= Handed(w.streams, r)
  {
    hide Handed, SeenIn, Observed;
    var up := w.links[s].up;
    assert Flight(up, r) == SeenIn(up[0], r) + Flight(up[1..], r);
    Associate(Observed(w.g, r), SeenIn(up[0], r), Flight(up[1..], r));
  }

  lemma DeliveryIsSeen(g: State, s: SocketId, m: AgentMessage, r: string)
    ensures Delivery(g, Receives(s, m), r) == if r != "" && r in g.subscribers then SeenIn(m, r) else []
  {}

  /** What is known of a subscriber. */
  lemma SubscriberFlows(w: World, r: string)
    requires Delivering(w) && Identified(w) && Traced(w.g) && r in w.g.subscribers
    ensures r != "" && r in w.g.issued
    ensures w.g.issued[r].socket in w.links && w.g.issued[r].socket in w.g.clients
    ensures w.g.clients[w.g.issued[r].socket].agentUuid != ""
    ensures Flowing(w.g.issued, w.g.clients, w.links, r, w.g.subscribers[r], Observed(w.g, r), Handed(w.streams, r))
  {
    hide Handed, Flight, SessionsSound, StreamsTraced, ChunksKnown, Observed, SentTraced, OwnMessages, ObservedHanded;
    assert Flowing(w.g.issued, w.g.clients, w.links, r, w.g.subscribers[r], Observed(w.g, r), Handed(w.streams, r));
    assert IssueTraced(w.g.clients, r, w.g.issued[r]);
    NamedNonEmpty(w, w.g.issued[r].socket);
  }

  lemma FirstIsOwn(w: World, s: SocketId)
    requires Identified(w) && s in w.links && w.links[s].up != []
    ensures w.links[s].up[0].Heartbeat? ==> w.links[s].up[0].uuid == w.links[s].agent
  {
    assert OwnMessages(w.links[s].agent, w.links[s].up);
  }

  /** A subscriber, before and after an arrival; `h` is the gateway after it. */
  lemma ArriveSubscriber(w: World, s: SocketId, r: string, h: State)
    requires Delivering(w) && Identified(w) && Traced(w.g) && Possible(w, Arrives(s)) && r in w.g.subscribers
    requires h == Next(w.g, Receives(s, w.links[s].up[0]))
    requires Observed(h, r) == Observed(w.g, r) + Delivery(w.g, Receives(s, w.links[s].up[0]), r)
    ensures Observed(h, r) <= Handed(w.streams, r)
    ensures Flowing(w.g.issued, h.clients, w.links[s := w.links[s].(up := w.links[s].up[1..])], r, w.g.subscribers[r],
                    Observed(h, r), Handed(w.streams, r))
  {
    hide Next, Handed, Delivering, Identified, Flowing, Traced, Delivery, Observed, SeenIn;
    var m := w.links[s].up[0];
    DeliveryIsSeen(w.g, s, m, r);
    SubscriberFlows(w, r);
    FirstIsOwn(w, s);
    NameStays(w, Receives(s, m), w.g.issued[r].socket);
    ArrivalFlows(w, s, r, Observed(h, r), w.links[s := w.links[s].(up := w.links[s].up[1..])], h.clients);
  }

  /** One request, before and after an arrival. */
  lemma ArriveRequest(w: World, s: SocketId, r: string)
    requires Delivering(w) && Identified(w) && Traced(w.g) && Possible(w, Arrives(s))
    ensures var v := Arrive(w, s);
      && Observed(v.g, r) <= Handed(v.streams, r)
      && v.g.subscribers == w.g.subscribers
      && (r in v.g.subscribers ==>
            Flowing(v.g.issued, v.g.clients, v.links, r, v.g.subscribers[r], Observed(v.g, r), Handed(v.streams, r)))
  {
    hide Next, Handed, SessionsSound, StreamsTraced, SubscribersFlowing, ChunksKnown, Delivery, Observed, Traced, Identified, Flowing;
    var m := w.links[s].up[0];
    ReceiveObservation(w.g, s, m, r);
    if r in w.g.subscribers {
      ArriveSubscriber(w, s, r, Next(w.g, Receives(s, m)));
    } else {
      DeliveryIsSeen(w.g, s, m, r);
      assert Observed(w.g, r) <= Handed(w.streams, r);
    }
  }

  lemma ReceiveObservation(g: State, s: SocketId, m: AgentMessage, r: string)
    ensures var h := Next(g, Receives(s, m));
      h.subscribers == g.subscribers && h.issued == g.issued && Observed(h, r) == Observed(g, r) + Delivery(g, Receives(s, m), r)
  {
    hide Receive, Observed, Delivery;
    ReceiveFrame(g, s, m);
    ReceiveObserves(g, s, m, r);
  }

  lemma ArriveKeepsChunks(w: World, s: SocketId)
    requires Possible(w, Arrives(s)) && forall t :: t in w.links ==> ChunksKnown(w.links[t].up, w.streams)
    ensures forall t :: t in Arrive(w, s).links ==> ChunksKnown(Arrive(w, s).links[t].up, w.streams)
  {
    hide Next;
    assert ChunksKnown(w.links[s].up, w.streams);
    var rest := w.links[s].up[1..];
    assert forall i :: 0 <= i < |rest| ==> rest[i] == w.links[s].up[i + 1];
    assert ChunksKnown(rest, w.streams);
  }

  lemma ArriveKeepsRest(w: World, s: SocketId)
    requires Delivering(w) && Identified(w) && WellFormed(w.g) && Possible(w, Arrives(s))
    ensures SessionsSound(Arrive(w, s)) && StreamsTraced(Arrive(w, s))
    ensures forall t :: t in Arrive(w, s).links ==> ChunksKnown(Arrive(w, s).links[t].up, Arrive(w, s).streams)
  {
    hide Next, SubscribersFlowing, ObservedHanded, SessionsSound, StreamsTraced, ChunksKnown, WellFormed, Renamed, Named, OwnMessages;
    var v := Arrive(w, s);
    var e := Receives(s, w.links[s].up[0]);
    StepRenames(w.g, e);
    ServeKeepsSessions(w, e, v.g, w.links);
    SameEndsSessions(w.(g := v.g), v);
    assert WellFormed(w.g) && Enabled(w.g, e);
    ServeExtends(w, e, v.links);
    ServeKeepsStreams(w, v);
    ArriveKeepsChunks(w, s);
  }

  lemma ArriveKeepsFlowing(w: World, s: SocketId)
    requires Delivering(w) && Identified(w) && Traced(w.g) && Possible(w, Arrives(s))
    ensures SubscribersFlowing(Arrive(w, s)) && ObservedHanded(Arrive(w, s))
  {
    hide Arrive, Flowing, Handed, Delivering, Observed, Traced, Identified, Possible;
    var v := Arrive(w, s);
    forall r: string ensures Observed(v.g, r) <= Handed(v.streams, r) {
      ArriveRequest(w, s, r);
    }
    forall r | r in v.g.subscribers
      ensures Flowing(v.g.issued, v.g.clients, v.links, r, v.g.subscribers[r], Observed(v.g, r), Handed(v.streams, r))
    {
      ArriveRequest(w, s, r);
    }
  }

  lemma ArriveDelivers(w: World, s: SocketId)
    requires Delivering(w) && Identified(w) && WellFormed(w.g) && Traced(w.g) && Possible(w, Arrives(s))
    ensures Delivering(Arrive(w, s))
  {
    hide Arrive, SessionsSound, StreamsTraced, ChunksKnown, SubscribersFlowing, ObservedHanded, Traced, WellFormed, Identified,
         Possible;
    ArriveKeepsRest(w, s);
    ArriveKeepsFlowing(w, s);
  }

  // ---------- the agent speaks, takes and hangs up ----------

  ghost predicate SameChunks(before: seq<AgentMessage>, after: seq<AgentMessage>, streams: map<string, LogStream>) {
    && (forall r :: Flight(after, r) == Flight(before, r))
    && (ChunksKnown(before, streams) ==> ChunksKnown(after, streams))
  }

  /** Changes that leave every request's chunks where they are. */
  ghost predicate SameFlight(before: map<SocketId, Link>, after: map<SocketId, Link>, streams: map<string, LogStream>) {
    forall s :: s in after ==> s in before && SameChunks(before[s].up, after[s].up, streams)
  }

  lemma SameFlightFlows(w: World, v: World, r: string)
    requires r in w.g.subscribers && v.g == w.g && SameEnds(w.links, v.links) && SameFlight(w.links, v.links, w.streams)
    requires Flowing(w.g.issued, w.g.clients, w.links, r, w.g.subscribers[r], Observed(w.g, r), Handed(w.streams, r))
    ensures Flowing(v.g.issued, v.g.clients, v.links, r, v.g.subscribers[r], Observed(v.g, r), Handed(w.streams, r))
  {
    hide Handed, Observed, ChunksKnown, Flight;
  }

  lemma SameFlightDelivers(w: World, v: World)
    requires Delivering(w) && v.g == w.g && v.sessions == w.sessions && v.streams == w.streams && v.engines == w.engines
    requires SameEnds(w.links, v.links) && SameFlight(w.links, v.links, w.streams)
    ensures Delivering(v)
  {
    hide Flowing, Handed, SessionsSound, StreamsTraced, ChunksKnown, Observed, Flight;
    SameEndsSessions(w, v);
    ServeKeepsStreams(w, v);
    forall r | r in v.g.subscribers
      ensures Flowing(v.g.issued, v.g.clients, v.links, r, v.g.subscribers[r], Observed(v.g, r), Handed(v.streams, r))
    {
      SameFlightFlows(w, v, r);
    }
  }

  lemma SpeakSameFlight(w: World, s: SocketId, m: AgentMessage)
    requires !m.Chunk?
    ensures SameEnds(w.links, Speak(w, s, m).links) && SameFlight(w.links, Speak(w, s, m).links, w.streams)
  {
    if s in w.links {
      forall r: string ensures Flight(w.links[s].up + [m], r) == Flight(w.links[s].up, r) {
        FlightSnoc(w.links[s].up, m, r);
      }
    }
  }

  lemma SpeakDelivers(w: World, s: SocketId, m: AgentMessage)
    requires Delivering(w) && !m.Chunk?
    ensures Delivering(Speak(w, s, m))
  {
    hide Delivering, SameEnds, SameFlight;
    SpeakSameFlight(w, s, m);
    SameFlightDelivers(w, Speak(w, s, m));
  }

  lemma HangUpSessions(w: World, s: SocketId)
    requires SessionsSound(w) && s in w.links && w.links[s].agentUp
    ensures SessionsSound(HangUp(w, s)) && AllFade(w.links, HangUp(w, s).links)
  {}

  lemma HangUpFlows(w: World, s: SocketId)
    requires SubscribersFlowing(w) && AllFade(w.links, HangUp(w, s).links)
    ensures SubscribersFlowing(HangUp(w, s))
  {
    hide Handed, Observed, Flight, AllFade;
    var v := HangUp(w, s);
    forall r | r in v.g.subscribers
      ensures Flowing(v.g.issued, v.g.clients, v.links, r, v.g.subscribers[r], Observed(v.g, r), Handed(v.streams, r))
    {
      FadingFlows(w.g.issued, w.g.clients, w.links, v.g.issued, v.g.clients, v.links, r, w.g.subscribers[r],
                  Observed(w.g, r), Handed(w.streams, r));
    }
  }

  lemma HangUpDelivers(w: World, s: SocketId)
    requires Delivering(w) && s in w.links && w.links[s].agentUp
    ensures Delivering(HangUp(w, s))
  {
    hide Handed, Observed, ChunksKnown, StreamTraced, SubscribersFlowing, SessionsSound, AllFade;
    HangUpSessions(w, s);
    HangUpFlows(w, s);
    var v := HangUp(w, s);
    forall r | r in v.streams ensures StreamTraced(v.g.issued, v.links, r, v.streams[r]) {
      StreamKept(w, v, r);
    }
  }

  lemma StreamKept(w: World, v: World, r: string)
    requires r in w.streams && StreamTraced(w.g.issued, w.links, r, w.streams[r]) && v.g == w.g
    requires forall s :: s in w.links ==> s in v.links && v.links[s].agent == w.links[s].agent && v.links[s].taken >= w.links[s].taken
    ensures StreamTraced(v.g.issued, v.links, r, w.streams[r])
  {}

  /** Streams change without a chunk being handed over. */
  lemma SameHandedDelivers(w: World, v: World)
    requires Delivering(w) && v == w.(streams := v.streams) && StreamsTraced(v) && w.streams.Keys <= v.streams.Keys
    requires forall r {:trigger Handed(w.streams, r)} :: Handed(v.streams, r) == Handed(w.streams, r)
    ensures Delivering(v)
  {
    hide Flowing, Handed, Observed, StreamTraced, SessionsSound;
    assert SessionsSound(v) by {
      SameEndsSessions(w, v);
    }
    forall r: string ensures Observed(v.g, r) <= Handed(v.streams, r) {
      assert Observed(w.g, r) <= Handed(w.streams, r);
    }
  }

  /** A stream opened for an order taken just now: none was open for it. */
  lemma OpenStreamDelivers(w: World, s: SocketId, r: string, container: string, d: Docker)
    requires Delivering(w) && r !in w.streams && s in w.links && r in w.g.issued && w.g.issued[r].socket == s
    requires w.g.issued[r].order.LogOrder? && w.g.issued[r].order.container == container
    requires w.g.issued[r].index < w.links[s].taken
    ensures Delivering(OpenStream(w, w.links[s].agent, r, container, d))
  {
    var v := OpenStream(w, w.links[s].agent, r, container, d);
    if v != w {
      NewStreamTraced(w, s, r, container, d);
      NewStreamHands(w, w.links[s].agent, r, container, d);
      hide OpenStream, Delivering, StreamsTraced, Handed;
      SameHandedDelivers(w, v);
    }
  }

  lemma NewStreamTraced(w: World, s: SocketId, r: string, container: string, d: Docker)
    requires StreamsTraced(w) && s in w.links && r in w.g.issued && w.g.issued[r].socket == s
    requires w.g.issued[r].order.LogOrder? && w.g.issued[r].order.container == container
    requires w.g.issued[r].index < w.links[s].taken
    ensures var v := OpenStream(w, w.links[s].agent, r, container, d); v == w.(streams := v.streams) && StreamsTraced(v)
  {
    Batching.OpenConserved(Batching.DEFAULT_BATCH_SIZE, d.source, d.ending);
    hide Batching.Conserved;
  }

  /** It has handed nothing over, and no other stream is touched. */
  lemma NewStreamHands(w: World, agent: string, r: string, container: string, d: Docker)
    requires r !in w.streams
    ensures var v := OpenStream(w, agent, r, container, d);
      w.streams.Keys <= v.streams.Keys && forall q {:trigger Handed(w.streams, q)} :: Handed(v.streams, q) == Handed(w.streams, q)
  {}

  // ---------- streams ----------

  /** A step of a stream hands over at most one chunk. */
  lemma HandsOver(s: Batching.Stream, move: Batching.Step)
    ensures var before, after := s.work.handed, Batching.Next(s, move).work.handed;
      after == before || (|after| == |before| + 1 && after == before + [after[|before|]])
  {}

  /** The request whose stream hands over a chunk, `up` and `sent` being its agent's lane before and after. */
  lemma EmissionFlows(w: World, v: World, r: string, seen: Seen)
    requires SessionsSound(w) && r in w.g.subscribers && r in w.streams && r in w.g.issued && w.g.issued[r].socket in w.links
    requires w.links[w.g.issued[r].socket].agent == w.streams[r].agent
    requires Flowing(w.g.issued, w.g.clients, w.links, r, w.g.subscribers[r], Observed(w.g, r), Handed(w.streams, r))
    requires v.g == w.g && Handed(v.streams, r) == Handed(w.streams, r) + [seen]
    requires var a := w.streams[r].agent;
      if a in w.sessions then SameEnds(w.links, v.links) && SentOn(w.links, v.links, w.sessions[a], r, seen) else v.links == w.links
    ensures Flowing(v.g.issued, v.g.clients, v.links, r, v.g.subscribers[r], Observed(v.g, r), Handed(v.streams, r))
  {
    hide Handed, Observed, Flight;
    var s := w.g.issued[r].socket;
    var flight := Flight(w.links[s].up, r);
    if w.streams[r].agent in w.sessions {
      SessionMeets(w, s);
    }
    Associate(Observed(w.g, r), flight, [seen]);
  }

  /** While the server believes in a socket, the agent's session, if it has one, is on that socket. */
  lemma SessionMeets(w: World, s: SocketId)
    requires SessionsSound(w) && s in w.links && w.links[s].serverUp && w.links[s].agent in w.sessions
    ensures w.sessions[w.links[s].agent] == s
  {
    var t := w.sessions[w.links[s].agent];
    assert Rivals(w.links[s], w.links[t]);
  }

  /** A chunk has joined one lane, and no other lane has changed. */
  ghost predicate SentOn(before: map<SocketId, Link>, after: map<SocketId, Link>, s: SocketId, r: string, seen: Seen) {
    && after.Keys == before.Keys && s in before
    && Flight(after[s].up, r) == Flight(before[s].up, r) + [seen]
    && forall t :: t in before && t != s ==> after[t] == before[t]
  }

  lemma EmitLinks(k: World, r: string, ls: LogStream, chunk: seq<Entry>)
    requires ls.agent in k.sessions && k.sessions[ls.agent] in k.links
    ensures var v := Emit(k, r, ls, chunk); var s := k.sessions[ls.agent];
      && SameEnds(k.links, v.links) && SentOn(k.links, v.links, s, r, Seen(ls.container, chunk))
      && (forall q :: q != r ==> Flight(v.links[s].up, q) == Flight(k.links[s].up, q))
  {
    var s := k.sessions[ls.agent];
    var m := Chunk(ChunkPayload(r, ls.container, Some(chunk)));
    FlightSnoc(k.links[s].up, m, r);
    forall q | q != r ensures Flight(k.links[s].up + [m], q) == Flight(k.links[s].up, q) {
      FlightSnoc(k.links[s].up, m, q);
    }
  }

  /** Any other request. */
  lemma OtherFlows(w: World, v: World, q: string, s: SocketId)
    requires q in w.g.subscribers && v.g == w.g && Handed(v.streams, q) == Handed(w.streams, q)
    requires Flowing(w.g.issued, w.g.clients, w.links, q, w.g.subscribers[q], Observed(w.g, q), Handed(w.streams, q))
    requires SameEnds(w.links, v.links) && s in w.links && Flight(v.links[s].up, q) == Flight(w.links[s].up, q)
    requires forall t :: t in w.links && t != s ==> v.links[t] == w.links[t]
    ensures Flowing(v.g.issued, v.g.clients, v.links, q, v.g.subscribers[q], Observed(v.g, q), Handed(v.streams, q))
  {
    hide Handed, Observed, Flight;
  }

  ghost predicate HandsChunk(before: map<string, LogStream>, after: map<string, LogStream>, r: string, chunk: seq<Entry>) {
    && r in before && Handed(after, r) == Handed(before, r) + [Seen(before[r].container, chunk)]
    && forall q :: q != r ==> Handed(after, q) == Handed(before, q)
  }

  /** One subscriber, before and after a stream hands over a chunk. */
  lemma EmitSubscriber(w: World, v: World, r: string, chunk: seq<Entry>, q: string)
    requires Delivering(w) && r in w.streams && q in w.g.subscribers && v.g == w.g
    requires HandsChunk(w.streams, v.streams, r, chunk)
    requires v.links == Emit(w, r, w.streams[r], chunk).links
    ensures Flowing(v.g.issued, v.g.clients, v.links, q, v.g.subscribers[q], Observed(v.g, q), Handed(v.streams, q))
  {
    hide Handed, Observed, Flight, ChunksKnown, Emit, ObservedHanded, Batching.Conserved;
    var ls, seen := w.streams[r], Seen(w.streams[r].container, chunk);
    assert StreamTraced(w.g.issued, w.links, r, ls);
    assert Flowing(w.g.issued, w.g.clients, w.links, q, w.g.subscribers[q], Observed(w.g, q), Handed(w.streams, q));
    if ls.agent in w.sessions {
      EmitLinks(w, r, ls, chunk);
      if q == r {
        EmissionFlows(w, v, r, seen);
      } else {
        OtherFlows(w, v, q, w.sessions[ls.agent]);
      }
    } else {
      NotEmitted(w, r, ls, chunk);
      if q == r {
        EmissionFlows(w, v, r, seen);
      }
    }
  }

  lemma NotEmitted(w: World, r: string, ls: LogStream, chunk: seq<Entry>)
    requires ls.agent !in w.sessions
    ensures Emit(w, r, ls, chunk).links == w.links
  {}

  lemma EmitFrame(w: World, r: string, ls: LogStream, chunk: seq<Entry>)
    ensures var v := Emit(w, r, ls, chunk);
      v.g == w.g && v.streams == w.streams && SameEnds(w.links, v.links) && v.sessions == w.sessions
  {}

  lemma EmitKeepsChunks(w: World, r: string, ls: LogStream, chunk: seq<Entry>)
    requires r in w.streams && forall s :: s in w.links ==> ChunksKnown(w.links[s].up, w.streams)
    ensures var v := Emit(w, r, ls, chunk); forall s :: s in v.links ==> ChunksKnown(v.links[s].up, v.streams)
  {
    var m := Chunk(ChunkPayload(r, ls.container, Some(chunk)));
    forall s | s in w.links ensures ChunksKnown(w.links[s].up, w.streams) && ChunksKnown(w.links[s].up + [m], w.streams) {}
    hide ChunksKnown;
  }

  lemma EmitKeepsRest(w: World, r: string, ls: LogStream, chunk: seq<Entry>)
    requires SessionsSound(w) && StreamsTraced(w) && r in w.streams
    requires forall s :: s in w.links ==> ChunksKnown(w.links[s].up, w.streams)
    ensures var v := Emit(w, r, ls, chunk);
      && v.g == w.g && v.streams == w.streams && SameEnds(w.links, v.links) && v.sessions == w.sessions
      && SessionsSound(v) && StreamsTraced(v)
      && (forall s :: s in v.links ==> ChunksKnown(v.links[s].up, v.streams))
  {
    hide StreamTraced, SessionsSound, ChunksKnown, Emit;
    var v := Emit(w, r, ls, chunk);
    EmitFrame(w, r, ls, chunk);
    SameEndsSessions(w, v);
    forall q | q in v.streams ensures StreamTraced(v.g.issued, v.links, q, v.streams[q]) {
      StreamKept(w, v, q);
    }
    EmitKeepsChunks(w, r, ls, chunk);
  }

  lemma MovedStreams(w: World, r: string, move: Batching.Step)
    requires StreamsTraced(w) && r in w.streams && Batching.Enabled(w.streams[r].stream, move)
    ensures var ls := w.streams[r]; var next := Batching.Next(ls.stream, move);
      && StreamsTraced(w.(streams := w.streams[r := ls.(stream := next)]))
      && ls.stream.work.handed <= next.work.handed
  {
    var ls := w.streams[r];
    assert StreamTraced(w.g.issued, w.links, r, ls);
    Batching.StepConserves(ls.stream, move);
    hide Batching.Conserved, Batching.Next, Batching.Enabled;
    var k := w.(streams := w.streams[r := ls.(stream := Batching.Next(ls.stream, move))]);
    forall q | q in k.streams ensures StreamTraced(k.g.issued, k.links, q, k.streams[q]) {
      assert StreamTraced(w.g.issued, w.links, q, w.streams[q]);
    }
  }

  lemma MovedHandsChunk(streams: map<string, LogStream>, r: string, next: Batching.Stream, chunk: seq<Entry>)
    requires r in streams && next.work.handed == streams[r].stream.work.handed + [chunk]
    ensures HandsChunk(streams, streams[r := streams[r].(stream := next)], r, chunk)
  {
    LabelledSnoc(streams[r].container, streams[r].stream.work.handed, chunk);
  }

  lemma ChunkKeepsObserved(w: World, v: World, r: string, chunk: seq<Entry>)
    requires ObservedHanded(w) && HandsChunk(w.streams, v.streams, r, chunk) && v.g == w.g
    ensures ObservedHanded(v)
  {
    hide Handed, Observed;
    forall q: string ensures Observed(v.g, q) <= Handed(v.streams, q) {
      assert Observed(w.g, q) <= Handed(w.streams, q);
      assert q != r ==> Handed(v.streams, q) == Handed(w.streams, q);
    }
  }

  lemma ChunkKeepsFlowing(w: World, v: World, r: string, chunk: seq<Entry>)
    requires Delivering(w) && HandsChunk(w.streams, v.streams, r, chunk) && v.g == w.g
    requires r in w.streams && v.links == Emit(w, r, w.streams[r], chunk).links
    ensures SubscribersFlowing(v)
  {
    hide Delivering, Handed, Flowing, HandsChunk, Observed, Emit;
    forall q | q in v.g.subscribers
      ensures Flowing(v.g.issued, v.g.clients, v.links, q, v.g.subscribers[q], Observed(v.g, q), Handed(v.streams, q))
    {
      EmitSubscriber(w, v, r, chunk, q);
    }
  }

  lemma ChunkDelivers(w: World, k: World, r: string, chunk: seq<Entry>)
    requires Delivering(w) && r in w.streams && k == w.(streams := k.streams) && k.streams.Keys == w.streams.Keys
    requires StreamsTraced(k) && HandsChunk(w.streams, k.streams, r, chunk)
    ensures Delivering(Emit(k, r, w.streams[r], chunk))
  {
    var ls := w.streams[r];
    var v := Emit(k, r, ls, chunk);
    assert v.links == Emit(w, r, ls, chunk).links;
    assert forall s :: s in k.links ==> ChunksKnown(k.links[s].up, k.streams);
    hide HandsChunk, ChunksKnown, StreamsTraced, SessionsSound, Emit, SubscribersFlowing, ObservedHanded;
    SameEndsSessions(w, k);
    EmitKeepsRest(k, r, ls, chunk);
    ChunkKeepsFlowing(w, v, r, chunk);
    ChunkKeepsObserved(w, v, r, chunk);
  }

  lemma MoveStreamDelivers(w: World, r: string, move: Batching.Step)
    requires Delivering(w) && Possible(w, Streams(r, move))
    ensures Delivering(MoveStream(w, r, move))
  {
    hide Handed, SubscribersFlowing, ObservedHanded, ChunksKnown, StreamsTraced, SessionsSound, Batching.Next, Batching.Enabled, Emit;
    var ls := w.streams[r];
    var next := Batching.Next(ls.stream, move);
    var k := w.(streams := w.streams[r := ls.(stream := next)]);
    MovedStreams(w, r, move);
    HandsOver(ls.stream, move);
    if |next.work.handed| > |ls.stream.work.handed| {
      var chunk := next.work.handed[|ls.stream.work.handed|];
      MovedHandsChunk(w.streams, r, next, chunk);
      ChunkDelivers(w, k, r, chunk);
    } else {
      SameHandedStill(w.streams, r, next);
      SameHandedDelivers(w, k);
    }
  }

  lemma SameHandedStill(streams: map<string, LogStream>, r: string, next: Batching.Stream)
    requires r in streams && next.work.handed == streams[r].stream.work.handed
    ensures forall q {:trigger Handed(streams, q)} :: Handed(streams[r := streams[r].(stream := next)], q) == Handed(streams, q)
  {}

  // ---------- the agent takes an envelope ----------

  /** Calls and answers play no part in log delivery. */
  lemma CallsIrrelevant(w: World, v: World)
    requires Delivering(w) && v.g == w.g && v.links == w.links && v.sessions == w.sessions && v.streams == w.streams
    ensures Delivering(v)
  {
    hide Flowing, Handed, Observed, StreamTraced, ChunksKnown;
    SameEndsSessions(w, v);
    forall r: string ensures Observed(v.g, r) <= Handed(v.streams, r) {
      assert Observed(w.g, r) <= Handed(w.streams, r);
    }
  }

  /** `j`: the world with the stream opened that the instruction asks for, if any. */
  lemma ObeyDelivers(w: World, s: SocketId, agent: string, i: Instruction, d: Docker, j: World)
    requires Delivering(j) && j == (if i.Subscribe? then OpenStream(w, agent, i.requestId, i.containerId, d) else w)
    ensures Delivering(Obey(w, s, agent, i, d))
  {
    OpenStreamOnly(w, agent, if i.Subscribe? then i.requestId else "", if i.Subscribe? then i.containerId else "", d);
    hide Delivering, Obey, OpenStream;
    var m := ObeySays(w, s, agent, i, d);
    var v := Obey(w, s, agent, i, d);
    if m.Some? {
      SpeakDelivers(j, s, m.value);
      CallsIrrelevant(Speak(j, s, m.value), v);
    } else {
      CallsIrrelevant(j, v);
    }
  }

  lemma OpenStreamOnly(w: World, agent: string, r: string, container: string, d: Docker)
    ensures OpenStream(w, agent, r, container, d) == w.(streams := OpenStream(w, agent, r, container, d).streams)
  {}

  lemma AwaitDelivers(w: World, s: SocketId, i: Instruction)
    requires Delivering(w) && s in w.links && w.links[s].agentUp
    ensures Delivering(AwaitRegistered(w, s, i))
  {
    hide Delivering, ChunksKnown, Flight, HangUp;
    var v := AwaitRegistered(w, s, i);
    if i.Acknowledge? && i.fails {
      HangUpDelivers(w, s);
    } else {
      assert SameFlight(w.links, v.links, w.streams);
      SameFlightDelivers(w, v);
    }
  }

  lemma AdvanceDelivers(w: World, s: SocketId)
    requires Delivering(w) && s in w.links
    ensures Delivering(Advanced(w, s))
  {
    hide Delivering, ChunksKnown, Flight;
    assert SameFlight(w.links, Advanced(w, s).links, w.streams);
    SameFlightDelivers(w, Advanced(w, s));
  }

  /** No stream has been opened for an order that is being taken. */
  lemma NoStreamYet(w: World, s: SocketId, r: string)
    requires StreamsTraced(w) && s in w.links && r in w.g.issued
    requires w.g.issued[r].socket == s && w.g.issued[r].index == w.links[s].taken
    ensures r !in w.streams
  {
    hide Batching.Conserved;
    assert r in w.streams ==> StreamTraced(w.g.issued, w.links, r, w.streams[r]);
  }

  /** The agent obeys the order that it has just taken, for which no stream is open. */
  lemma OrderDelivers(k: World, s: SocketId, r: string, d: Docker)
    requires Delivering(k) && r !in k.streams && s in k.links && r in k.g.issued
    requires k.g.issued[r].socket == s && k.g.issued[r].index < k.links[s].taken
    ensures Delivering(Obey(k, s, k.links[s].agent, InstructionFor(r, k.g.issued[r].order), d))
  {
    hide Delivering, Obey, OpenStream;
    var agent, order := k.links[s].agent, k.g.issued[r].order;
    if order.LogOrder? {
      OpenStreamDelivers(k, s, r, order.container, d);
      ObeyDelivers(k, s, agent, InstructionFor(r, order), d, OpenStream(k, agent, r, order.container, d));
    } else {
      ObeyDelivers(k, s, agent, InstructionFor(r, order), d, k);
    }
  }

  lemma TakeDelivers(w: World, s: SocketId, d: Docker)
    requires Delivering(w) && Traced(w.g) && Possible(w, Takes(s, d))
    ensures Delivering(Take(w, s, d))
  {
    assert StreamsTraced(w);
    hide Delivering, Read, Obey, Traced, StreamsTraced, InstructionFor, AwaitRegistered, OpenStream;
    var l := w.links[s];
    var e := w.g.clients[s].sent[l.taken];
    var k := Advanced(w, s);
    AdvanceDelivers(w, s);
    ReadAt(w.g, s, l.taken);
    if !l.registered {
      AwaitDelivers(k, s, Read(e));
    } else if RequestOf(e).Some? {
      NoStreamYet(w, s, RequestOf(e).value);
      OrderDelivers(k, s, RequestOf(e).value, d);
    } else {
      ObeyDelivers(k, s, l.agent, Read(e), d, k);
    }
  }

  // ---------- an agent connects ----------

  lemma DialSessions(w: World, agent: string, s: SocketId)
    requires SessionsSound(w) && Possible(w, Dials(agent, s)) && Disciplined(w, Dials(agent, s)) && w.links.Keys == w.g.clients.Keys
    ensures SessionsSound(NextWorld(w, Dials(agent, s)))
  {
    hide OneLive, Disciplined;
    DialOneLive(w, agent, s);
  }

  lemma DialOneLive(w: World, agent: string, s: SocketId)
    requires SessionsSound(w) && agent !in w.sessions && s !in w.links && Disciplined(w, Dials(agent, s))
    ensures OneLive(w.links[s := Link(agent, true, true, false, 0, [])])
  {}

  lemma DialStreams(w: World, agent: string, s: SocketId)
    requires StreamsTraced(w) && Possible(w, Dials(agent, s))
    ensures StreamsTraced(NextWorld(w, Dials(agent, s)))
  {
    hide Batching.Conserved;
    var v := NextWorld(w, Dials(agent, s));
    forall r | r in v.streams ensures StreamTraced(v.g.issued, v.links, r, v.streams[r]) {
      assert StreamTraced(w.g.issued, w.links, r, w.streams[r]);
    }
  }

  lemma DialFlows(w: World, agent: string, s: SocketId, r: string)
    requires Possible(w, Dials(agent, s)) && r in w.g.subscribers
    requires Flowing(w.g.issued, w.g.clients, w.links, r, w.g.subscribers[r], Observed(w.g, r), Handed(w.streams, r))
    ensures var v := NextWorld(w, Dials(agent, s));
      Flowing(v.g.issued, v.g.clients, v.links, r, v.g.subscribers[r], Observed(v.g, r), Handed(v.streams, r))
  {
    hide Handed, Flight;
    var v := NextWorld(w, Dials(agent, s));
    assert AllFade(w.links, v.links);
    FadingFlows(w.g.issued, w.g.clients, w.links, v.g.issued, v.g.clients, v.links, r, w.g.subscribers[r],
                Observed(w.g, r), Handed(w.streams, r));
  }

  lemma DialDelivers(w: World, agent: string, s: SocketId)
    requires Delivering(w) && Possible(w, Dials(agent, s)) && Disciplined(w, Dials(agent, s)) && w.links.Keys == w.g.clients.Keys
    ensures Delivering(NextWorld(w, Dials(agent, s)))
  {
    hide SessionsSound, StreamsTraced, Flowing, Handed, Disciplined;
    DialSessions(w, agent, s);
    DialStreams(w, agent, s);
    var v := NextWorld(w, Dials(agent, s));
    forall r | r in v.g.subscribers
      ensures Flowing(v.g.issued, v.g.clients, v.links, r, v.g.subscribers[r], Observed(v.g, r), Handed(v.streams, r))
    {
      DialFlows(w, agent, s, r);
    }
    forall r: string ensures Observed(v.g, r) <= Handed(v.streams, r) {
      assert Observed(w.g, r) <= Handed(w.streams, r);
    }
  }

  // ---------- every step ----------

  lemma ServesDelivers(w: World, e: Event)
    requires Delivering(w) && Identified(w) && WellFormed(w.g) && Possible(w, Serves(e))
    ensures Delivering(NextWorld(w, Serves(e)))
  {
    hide Delivering, Identified, WellFormed, Next;
    ServeDelivers(w, e, w.links);
  }

  lemma NoticesDelivers(w: World, s: SocketId)
    requires Delivering(w) && Identified(w) && WellFormed(w.g) && Possible(w, Notices(s))
    ensures Delivering(NextWorld(w, Notices(s)))
  {
    hide Delivering, Identified, WellFormed, Next;
    ServeDelivers(w, Disconnects(s), w.links[s := w.links[s].(serverUp := false)]);
  }

  lemma SaysDelivers(w: World, s: SocketId, m: AgentMessage)
    requires Delivering(w) && Possible(w, Says(s, m))
    ensures Delivering(Speak(w, s, m))
  {
    hide Delivering;
    SpeakDelivers(w, s, m);
  }

  lemma LosesDelivers(w: World, s: SocketId)
    requires Delivering(w) && Possible(w, Loses(s))
    ensures Delivering(HangUp(w, s))
  {
    hide Delivering;
    HangUpDelivers(w, s);
  }

  lemma FaithfulParts(w: World)
    requires Faithful(w)
    ensures w.links.Keys == w.g.clients.Keys && WellFormed(w.g) && Traced(w.g)
  {
    hide WellFormed, Traced, AnswersSound, CallsSound, LanesSound, OutcomesSound;
  }

  lemma StepIs(w: World, step: Step)
    ensures match step
      case Arrives(s) => NextWorld(w, step) == Arrive(w, s)
      case Says(s, m) => NextWorld(w, step) == Speak(w, s, m)
      case Takes(s, d) => NextWorld(w, step) == Take(w, s, d)
      case Loses(s) => NextWorld(w, step) == HangUp(w, s)
      case Streams(r, move) => NextWorld(w, step) == MoveStream(w, r, move)
      case _ => true
  {
    hide Next, Arrive, Take, MoveStream, HangUp, Speak;
  }

  lemma StepDelivers(w: World, step: Step)
    requires Delivering(w) && Faithful(w) && Identified(w) && Possible(w, step) && Disciplined(w, step)
    ensures Delivering(NextWorld(w, step))
  {
    hide Delivering, Faithful, Identified, WellFormed, Traced, NextWorld, Arrive, Take, MoveStream, HangUp, Speak, Disciplined,
         Possible;
    FaithfulParts(w);
    StepIs(w, step);
    match step {
      case Dials(agent, s) => DialDelivers(w, agent, s);
      case Serves(e) => ServesDelivers(w, e);
      case Notices(s) => NoticesDelivers(w, s);
      case Arrives(s) => ArriveDelivers(w, s);
      case Says(s, m) => SaysDelivers(w, s, m);
      case Takes(s, d) => TakeDelivers(w, s, d);
      case Loses(s) => LosesDelivers(w, s);
      case Streams(r, move) => MoveStreamDelivers(w, r, move);
    }
  }

  lemma {:induction false} AlwaysDelivering(w: World, steps: seq<Step>, v: World)
    requires Delivering(w) && Faithful(w) && Identified(w) && DisciplinedRun(w, steps, v)
    ensures Delivering(v)
    decreases |steps|
  {
    hide Delivering, Faithful, Identified, Possible, Disciplined, NextWorld;
    if steps != [] {
      StepDelivers(w, steps[0]);
      StepKeepsFaithful(w, steps[0]);
      StepKeepsIdentified(w, steps[0]);
      AlwaysDelivering(NextWorld(w, steps[0]), steps[1..], v);
    }
  }

  lemma RestDelivering(engines: set<string>)
    ensures Delivering(AtRest(engines))
  {}

  // ---------- the theorems ----------

  /** In every disciplined run, what a request's onChunk has seen is a prefix of the chunks handed over by
      the stream opened for that very request, by the agent at the other end of the socket it went out on,
      each once, in order and under its own container; and so it is a prefix of what the decoder makes of
      Docker's bytes. Before the stream is opened nothing is seen. */
  lemma LogsDelivered(engines: set<string>, steps: seq<Step>, w: World, r: string)
    requires DisciplinedRun(AtRest(engines), steps, w)
    ensures r !in w.streams ==> Observed(w.g, r) == []
    ensures r in w.streams ==>
      var ls := w.streams[r];
      && r in w.g.issued && w.g.issued[r].order.LogOrder? && w.g.issued[r].order.container == ls.container
      && w.g.issued[r].socket in w.links && w.links[w.g.issued[r].socket].agent == ls.agent
      && (r in w.g.subscribers ==> w.g.subscribers[r].agent == ls.agent)
      && Observed(w.g, r) <= Labelled(ls.container, ls.stream.work.handed)
      && EntriesOf(Observed(w.g, r)) <= ls.source
  {
    RestFaithful(engines);
    RestDelivering(engines);
    AlwaysDelivering(AtRest(engines), steps, w);
    hide DisciplinedRun, SessionsSound, Batching.Conserved, Observed, Flight;
    assert Observed(w.g, r) <= Handed(w.streams, r);
    if r in w.streams {
      var ls := w.streams[r];
      assert r in w.g.subscribers ==>
        Flowing(w.g.issued, w.g.clients, w.links, r, w.g.subscribers[r], Observed(w.g, r), Handed(w.streams, r));
      assert StreamTraced(w.g.issued, w.links, r, ls);
      Batching.ConservedPrefix(ls.stream);
      LabelledEntries(ls.container, ls.stream.work.handed);
      EntriesPrefix(Observed(w.g, r), Handed(w.streams, r));
    }
  }

  lemma {:induction false} DisciplinedHappens(w: World, steps: seq<Step>, v: World)
    requires DisciplinedRun(w, steps, v)
    ensures Happens(w, steps, v)
    decreases |steps|
  {
    hide Possible, Disciplined, NextWorld;
    if steps != [] {
      DisciplinedHappens(NextWorld(w, steps[0]), steps[1..], v);
    }
  }

  lemma {:induction false} DisciplinedAppend(w: World, first: seq<Step>, m: World, second: seq<Step>, v: World)
    requires DisciplinedRun(w, first, m) && DisciplinedRun(m, second, v)
    ensures DisciplinedRun(w, first + second, v)
    decreases |first|
  {
    hide Possible, Disciplined, NextWorld;
    if first == [] {
      assert first + second == second;
    } else {
      assert (first + second)[1..] == first[1..] + second;
      DisciplinedAppend(NextWorld(w, first[0]), first[1..], m, second, v);
    }
  }

  lemma OneDisciplinedStep(w: World, step: Step)
    requires Possible(w, step) && Disciplined(w, step)
    ensures DisciplinedRun(w, [step], NextWorld(w, step))
  {
    hide Possible, Disciplined, NextWorld;
  }

  /** From one call of startLogStream: in every disciplined run, everything its onChunk has seen comes from a
      stream that this agent opened on this container for this request, whole chunks in order. */
  lemma StartedLogsDelivered(engines: set<string>, before: seq<Step>, w: World, after: seq<Step>, v: World,
                             agent: string, host: string, container: string, tail: int, follow: bool, r: string)
    requires DisciplinedRun(AtRest(engines), before, w) && Connected(w.g, agent).Some?
    requires Possible(w, Serves(StartsLogs(agent, host, container, tail, follow, r)))
    requires DisciplinedRun(NextWorld(w, Serves(StartsLogs(agent, host, container, tail, follow, r))), after, v)
    ensures r !in v.streams ==> Observed(v.g, r) == []
    ensures r in v.streams ==>
      var ls := v.streams[r];
      && ls.agent == agent && ls.container == container
      && Observed(v.g, r) <= Labelled(container, ls.stream.work.handed)
      && EntriesOf(Observed(v.g, r)) <= ls.source
  {
    var step := Serves(StartsLogs(agent, host, container, tail, follow, r));
    var started := NextWorld(w, step);
    assert NewId(w.g, r) && Disciplined(w, step);
    hide Faithful, Identified, Happens, Possible, DisciplinedRun, Disciplined, StartLogs, Observed, EntriesOf, NewId;
    StartedRun(engines, before, w, step, after, v);
    LogRecorded(w, agent, host, container, tail, follow, r);
    LogsDelivered(engines, before + [step] + after, v, r);
  }

  lemma StartedRun(engines: set<string>, before: seq<Step>, w: World, step: Step, after: seq<Step>, v: World)
    requires DisciplinedRun(AtRest(engines), before, w) && Possible(w, step) && Disciplined(w, step)
    requires DisciplinedRun(NextWorld(w, step), after, v)
    ensures DisciplinedRun(AtRest(engines), before + [step] + after, v)
    ensures Identified(w) && Extends(NextWorld(w, step), v)
  {
    hide Faithful, Identified, Happens, Possible, DisciplinedRun, Disciplined, NextWorld, Extends;
    RestFaithful(engines);
    OneDisciplinedStep(w, step);
    DisciplinedAppend(AtRest(engines), before, w, [step], NextWorld(w, step));
    DisciplinedAppend(AtRest(engines), before + [step], NextWorld(w, step), after, v);
    DisciplinedHappens(AtRest(engines), before, w);
    DisciplinedHappens(NextWorld(w, step), after, v);
    AlwaysFaithful(AtRest(engines), before, w);
    AlwaysIdentified(AtRest(engines), before, w);
    StepKeepsFaithful(w, step);
    RunExtends(NextWorld(w, step), after, v);
  }

  /** While a request is subscribed and its agent is on the socket, nothing handed over is lost: it has been
      seen or is on that socket's lane, and is on no other. Once the stream has drained to its end and
      the lane is empty, everything decoded has been seen. */
  lemma NothingLost(engines: set<string>, steps: seq<Step>, w: World, r: string)
    requires DisciplinedRun(AtRest(engines), steps, w) && r in w.g.subscribers && r in w.g.issued
    requires w.g.issued[r].socket in w.links && w.links[w.g.issued[r].socket].agentUp
    ensures var flight := Flight(w.links[w.g.issued[r].socket].up, r);
      && Observed(w.g, r) + flight == Handed(w.streams, r)
      && (flight == [] && r in w.streams && Batching.CleanlyDrained(w.streams[r].stream) ==>
            EntriesOf(Observed(w.g, r)) == w.streams[r].source)
  {
    RestFaithful(engines);
    RestDelivering(engines);
    AlwaysDelivering(AtRest(engines), steps, w);
    hide DisciplinedRun, SessionsSound, ObservedHanded, Batching.Conserved, Observed, Flight;
    assert Flowing(w.g.issued, w.g.clients, w.links, r, w.g.subscribers[r], Observed(w.g, r), Handed(w.streams, r));
    var flight := Flight(w.links[w.g.issued[r].socket].up, r);
    if flight == [] && r in w.streams {
      var ls := w.streams[r];
      assert StreamTraced(w.g.issued, w.links, r, ls);
      Batching.ConservedPrefix(ls.stream);
      LabelledEntries(ls.container, ls.stream.work.handed);
      assert Observed(w.g, r) + [] == Observed(w.g, r);
    }
  }

  /** From what the container wrote: if the agent read the first `cut` bytes of Docker's stream of it, onChunk has
      seen a prefix of the lines of the outputs that are complete in them, each tagged with the stream that it
      was written to. */
  lemma OutputDelivered(engines: set<string>, steps: seq<Step>, w: World, r: string,
                        output: seq<Output>, codes: seq<Byte>, cut: nat, parse: StampParser) returns (n: nat)
    requires DisciplinedRun(AtRest(engines), steps, w) && r in w.streams
    requires Coded(output, codes) && cut <= |EncodeFrames(FramesOf(output, codes))|
    requires w.streams[r].source == LogEntries(EncodeFrames(FramesOf(output, codes))[..cut], parse)
    ensures n <= |output| && |EncodeFrames(FramesOf(output, codes)[..n])| <= cut
    ensures EntriesOf(Observed(w.g, r)) <= OutputEntries(output[..n], parse)
  {
    hide DisciplinedRun, LogEntries, EncodeFrames, OutputEntries, FramesOf, WireFrames, Observed, EntriesOf, Coded;
    LogsDelivered(engines, steps, w, r);
    n := OutputDecoded(output, codes, cut, parse);
  }

  /** From Docker to the browser's server: if the agent read the first `cut` bytes of some multiplexed frames,
      onChunk has seen a prefix of the lines of the frames that are complete in them. */
  lemma FramesDelivered(engines: set<string>, steps: seq<Step>, w: World, r: string,
                        fs: seq<Frame>, cut: nat, parse: StampParser)
    requires DisciplinedRun(AtRest(engines), steps, w) && r in w.streams
    requires WireFrames(fs) && cut <= |EncodeFrames(fs)|
    requires w.streams[r].source == LogEntries(EncodeFrames(fs)[..cut], parse)
    ensures EntriesOf(Observed(w.g, r)) <= FrameEntries(CompleteFrames(fs, cut), parse)
  {
    hide DisciplinedRun, LogEntries, EncodeFrames, FrameEntries, CompleteFrames, WireFrames, Observed, EntriesOf;
    LogsDelivered(engines, steps, w, r);
    MultiplexRoundTrip(fs, cut, parse);
  }
}
