/** That the fleet answers: what is asked of an agent that is idle comes back, in as many steps as it takes. */
module RoundTrips {
  import Batching
  import opened Prelude
  import opened ContainerListed
  import opened Decode
  import opened Inventory
  import opened Protocol
  import opened Outstanding
  import opened Gateway
  import opened Connection
  import opened GatewayRuns
  import opened GatewayAnswers
  import opened Fleet
  import opened AgentClient

  /** The agent is connected and registered at both ends of the socket, and nothing is on its way. */
  ghost predicate Idle(w: World, s: SocketId, agent: string) {
    && Connected(w.g, agent) == Some(s) && w.g.clients[s].agentUuid == agent != ""
    && s in w.links && w.links[s] == Link(agent, true, true, true, |w.g.clients[s].sent|, [])
    && agent in w.sessions && w.sessions[agent] == s
  }

  /** The server has asked for something, and the agent has not read it. */
  ghost predicate Asked(w: World, s: SocketId, agent: string, e: Envelope) {
    && Connected(w.g, agent) == Some(s) && w.g.clients[s].agentUuid == agent != ""
    && |w.g.clients[s].sent| > 0 && w.g.clients[s].sent[|w.g.clients[s].sent| - 1] == e
    && s in w.links && w.links[s] == Link(agent, true, true, true, |w.g.clients[s].sent| - 1, [])
    && agent in w.sessions && w.sessions[agent] == s
  }

  /** Three steps, one after the other. */
  lemma ThreeSteps(w: World, a: Step, b: Step, c: Step)
    requires Possible(w, a) && Possible(NextWorld(w, a), b) && Possible(NextWorld(NextWorld(w, a), b), c)
    ensures Happens(w, [a, b, c], NextWorld(NextWorld(NextWorld(w, a), b), c))
  {
    hide Possible, NextWorld;
    var k := NextWorld(w, a);
    var l := NextWorld(k, b);
    assert Happens(l, [c], NextWorld(l, c));
    assert [a, b, c][1..] == [b, c] && [b, c][1..] == [c];
    assert Happens(k, [b, c], NextWorld(l, c));
  }

  // ---------- commands ----------

  /** The agent reads what it was asked, and handles it. */
  lemma Handled(w: World, s: SocketId, agent: string, e: Envelope, d: Docker)
    requires Asked(w, s, agent, e)
    ensures Possible(w, Takes(s, d))
    ensures Take(w, s, d)
      == Obey(w.(links := w.links[s := Link(agent, true, true, true, |w.g.clients[s].sent|, [])]), s, agent, Read(e), d)
  {
    hide Obey, Read;
  }

  /** What the agent writes and calls for it is what its handlers write and call. */
  lemma HandledWrites(w: World, s: SocketId, agent: string, e: Envelope, d: Docker)
    requires Asked(w, s, agent, e)
    ensures var v := Take(w, s, d); var ready := agent in w.engines;
      && v.g == w.g && v.engines == w.engines && v.sessions == w.sessions
      && v.calls == w.calls + Called(agent, ready, Read(e), d)
      && v.links == w.links[s := Link(agent, true, true, true, |w.g.clients[s].sent|, Written(ready, Read(e), d))]
      && v.streams == (if Read(e).Subscribe? then OpenStream(w, agent, Read(e).requestId, Read(e).containerId, d).streams
                       else w.streams)
  {
    hide Read, Take, Called, Written, Obey;
    Handled(w, s, agent, e, d);
    var k := w.(links := w.links[s := Link(agent, true, true, true, |w.g.clients[s].sent|, [])]);
    ObeyWrites(k, s, agent, Read(e), d);
    var m := ObeySays(k, s, agent, Read(e), d);
    assert [] + Written(agent in w.engines, Read(e), d) == Written(agent in w.engines, Read(e), d);
  }

  /** A command, read, called and answered. */
  lemma CommandAnswered(action: Action, container: string, force: bool, r: string, agent: string, ready: bool, d: Docker)
    requires r != ""
    ensures var i := Read(CommandEnvelope(action, r, container, force));
      var runs := container != "" && ready; var ok := runs && d.verdict.ok;
      && !i.Subscribe?
      && Called(agent, ready, i, d)
         == (if runs then [DockerCall(agent, r, CommandOrder(action, container, action.Remove? && force), d.verdict)] else [])
      && Written(ready, i, d) ==
         [Result(ResultPayload(r, Name(action), container, ok,
            Some(if container == "" then "Invalid command payload" else if !ready then "Docker engine unavailable"
                 else Name(action) + (if ok then " succeeded" else " failed")),
            if container == "" then Some("requestId and containerId are required")
            else if !ready then Some("docker client is not initialized")
            else if ok then None else Some(d.verdict.error)))]
  {
    CommandRead(action, r, container, force);
    hide Read, CommandEnvelope;
  }

  /** The agent's reply is on its way, and nothing else. */
  ghost predicate Carries(w: World, s: SocketId, agent: string, m: AgentMessage) {
    && Connected(w.g, agent) == Some(s) && w.g.clients[s].agentUuid == agent != ""
    && s in w.links && w.links[s] == Link(agent, true, true, true, |w.g.clients[s].sent|, [m])
    && agent in w.sessions && w.sessions[agent] == s
  }

  lemma AnswersSendNothing(g: State, s: SocketId, m: AgentMessage)
    requires m.Result? || m.Inspected? || m.Listed?
    ensures Next(g, Receives(s, m)).clients == g.clients && Next(g, Receives(s, m)).sockets == g.sockets
  {
    hide Close, SetContainers, Kept;
  }

  lemma ReplyArrives(w: World, s: SocketId, agent: string, m: AgentMessage)
    requires Carries(w, s, agent, m) && (m.Result? || m.Inspected? || m.Listed?)
    ensures var v := NextWorld(w, Arrives(s));
      Possible(w, Arrives(s)) && Idle(v, s, agent) && v.calls == w.calls && v.g == Next(w.g, Receives(s, m))
  {
    AnswersSendNothing(w.g, s, m);
    hide Next;
  }

  /** Asking keeps everything but the gateway, and the gateway's sockets but for the one envelope. */
  lemma OrderAsked(w: World, s: SocketId, agent: string, e: Event, m: Envelope)
    requires Idle(w, s, agent) && Internal(w, e) && OnlySends(w.g, Next(w.g, e)) && !e.Registers?
    requires Next(w.g, e).clients[s].sent == w.g.clients[s].sent + [m]
    ensures Possible(w, Serves(e)) && Asked(NextWorld(w, Serves(e)), s, agent, m)
  {
    hide Next, Internal;
  }

  lemma CommandAsked(w: World, s: SocketId, agent: string, host: string, action: Action, container: string, force: bool, r: string)
    requires Idle(w, s, agent) && NewId(w.g, r)
    ensures var e := SendsCommand(agent, host, action, container, force, r); var k := NextWorld(w, Serves(e));
      && Possible(w, Serves(e)) && Asked(k, s, agent, CommandEnvelope(action, r, container, force))
      && Promised(w.g, k.g, ForCommand(r))
  {
    var e := SendsCommand(agent, host, action, container, force, r);
    CommandGoesOut(w.g, s, agent, host, action, container, force, r);
    OrderSends(w.g, e);
    WireNames(action);
    assert Internal(w, e);
    hide Next, Idle, Asked, Promised;
    OrderAsked(w, s, agent, e, CommandEnvelope(action, r, container, force));
  }

  /** In every world where the agent is idle: sending it a command, letting it handle what it is sent and its
      reply arrive resolves the promise, with the outcome of the one call made for it, and leaves it idle. */
  lemma CommandRoundTrip(w: World, s: SocketId, agent: string, host: string, action: Action, container: string, force: bool,
                         r: string, d: Docker) returns (v: World)
    requires WellFormed(w.g) && Idle(w, s, agent) && NewId(w.g, r)
    ensures Happens(w, [Serves(SendsCommand(agent, host, action, container, force, r)), Takes(s, d), Arrives(s)], v)
    ensures Idle(v, s, agent)
    ensures var runs := container != "" && agent in w.engines; var ok := runs && d.verdict.ok;
      && v.calls == w.calls
         + (if runs then [DockerCall(agent, r, CommandOrder(action, container, action.Remove? && force), d.verdict)] else [])
      && w.g.ledger.nextPromise in v.g.ledger.outcomes
      && v.g.ledger.outcomes[w.g.ledger.nextPromise] == Commanded(CommandResult(r, Name(action), container, ok,
           if container == "" then "Invalid command payload" else if agent !in w.engines then "Docker engine unavailable"
           else Name(action) + (if ok then " succeeded" else " failed"),
           if container == "" then Some("requestId and containerId are required")
           else if agent !in w.engines then Some("docker client is not initialized")
           else if ok then None else Some(d.verdict.error)))
  {
    var e := SendsCommand(agent, host, action, container, force, r);
    var k := NextWorld(w, Serves(e));
    CommandAsked(w, s, agent, host, action, container, force, r);
    StepKeepsWellFormed(w.g, e);
    var l := NextWorld(k, Takes(s, d));
    CommandHandled(k, s, agent, action, container, force, r, d);
    hide Next, Take, WellFormed, Asked, Idle, Possible, CommandEnvelope, Name;
    var m := l.links[s].up[0];
    ResultAnswers(l.g, s, m.result);
    ReplyArrives(l, s, agent, m);
    v := NextWorld(l, Arrives(s));
    hide NextWorld;
    ThreeSteps(w, Serves(e), Takes(s, d), Arrives(s));
  }

  lemma CommandHandled(k: World, s: SocketId, agent: string, action: Action, container: string, force: bool, r: string, d: Docker)
    requires r != "" && Asked(k, s, agent, CommandEnvelope(action, r, container, force))
    ensures var l := NextWorld(k, Takes(s, d)); var runs := container != "" && agent in k.engines; var ok := runs && d.verdict.ok;
      && Possible(k, Takes(s, d)) && l.g == k.g
      && l.calls == k.calls
         + (if runs then [DockerCall(agent, r, CommandOrder(action, container, action.Remove? && force), d.verdict)] else [])
      && Carries(l, s, agent,
         Result(ResultPayload(r, Name(action), container, ok,
            Some(if container == "" then "Invalid command payload" else if agent !in k.engines then "Docker engine unavailable"
                 else Name(action) + (if ok then " succeeded" else " failed")),
            if container == "" then Some("requestId and containerId are required")
            else if agent !in k.engines then Some("docker client is not initialized")
            else if ok then None else Some(d.verdict.error))))
  {
    hide Take, Read, CommandEnvelope, Called, Written, Name;
    Handled(k, s, agent, CommandEnvelope(action, r, container, force), d);
    HandledWrites(k, s, agent, CommandEnvelope(action, r, container, force), d);
    CommandAnswered(action, container, force, r, agent, agent in k.engines, d);
  }

  // ---------- inspections ----------

  lemma InspectAsked(w: World, s: SocketId, agent: string, host: string, container: string, r: string)
    requires Idle(w, s, agent) && NewId(w.g, r)
    ensures var e := AsksInspect(agent, host, container, r); var k := NextWorld(w, Serves(e));
      && Possible(w, Serves(e)) && Asked(k, s, agent, InspectEnvelope(r, container)) && Promised(w.g, k.g, ForInspect(r))
  {
    var e := AsksInspect(agent, host, container, r);
    InspectGoesOut(w.g, s, agent, host, container, r);
    OrderSends(w.g, e);
    assert Internal(w, e);
    hide Next, Idle, Asked, Promised;
    OrderAsked(w, s, agent, e, InspectEnvelope(r, container));
  }

  lemma InspectAnswered(container: string, r: string, agent: string, ready: bool, d: Docker)
    requires r != ""
    ensures var i := Read(InspectEnvelope(r, container)); var runs := container != "" && ready; var ok := runs && d.verdict.ok;
      && !i.Subscribe?
      && Called(agent, ready, i, d) == (if runs then [DockerCall(agent, r, InspectOrder(container), d.verdict)] else [])
      && Written(ready, i, d) ==
         [Inspected(InspectedPayload(r, if ok then Some(d.verdict.details) else None, ok,
            if container == "" then Some("requestId and containerId are required")
            else if !ready then Some("Docker engine unavailable") else if ok then None else Some(d.verdict.error)))]
  {}

  lemma InspectHandled(k: World, s: SocketId, agent: string, container: string, r: string, d: Docker)
    requires r != "" && Asked(k, s, agent, InspectEnvelope(r, container))
    ensures var l := NextWorld(k, Takes(s, d)); var runs := container != "" && agent in k.engines; var ok := runs && d.verdict.ok;
      && Possible(k, Takes(s, d)) && l.g == k.g
      && l.calls == k.calls + (if runs then [DockerCall(agent, r, InspectOrder(container), d.verdict)] else [])
      && Carries(l, s, agent,
         Inspected(InspectedPayload(r, if ok then Some(d.verdict.details) else None, ok,
            if container == "" then Some("requestId and containerId are required")
            else if agent !in k.engines then Some("Docker engine unavailable") else if ok then None else Some(d.verdict.error))))
  {
    hide Take, Read, InspectEnvelope, Called, Written;
    Handled(k, s, agent, InspectEnvelope(r, container), d);
    HandledWrites(k, s, agent, InspectEnvelope(r, container), d);
    InspectAnswered(container, r, agent, agent in k.engines, d);
  }

  /** The same for an inspection: it comes back with the details that the agent's Docker returned. */
  lemma InspectRoundTrip(w: World, s: SocketId, agent: string, host: string, container: string, r: string, d: Docker)
    returns (v: World)
    requires WellFormed(w.g) && Idle(w, s, agent) && NewId(w.g, r)
    ensures Happens(w, [Serves(AsksInspect(agent, host, container, r)), Takes(s, d), Arrives(s)], v)
    ensures Idle(v, s, agent)
    ensures var runs := container != "" && agent in w.engines; var ok := runs && d.verdict.ok;
      && v.calls == w.calls + (if runs then [DockerCall(agent, r, InspectOrder(container), d.verdict)] else [])
      && w.g.ledger.nextPromise in v.g.ledger.outcomes
      && v.g.ledger.outcomes[w.g.ledger.nextPromise] == Inspection(InspectResult(r,
           if ok then Some(d.verdict.details) else None, ok,
           if container == "" then Some("requestId and containerId are required")
           else if agent !in w.engines then Some("Docker engine unavailable") else if ok then None else Some(d.verdict.error)))
  {
    var e := AsksInspect(agent, host, container, r);
    var k := NextWorld(w, Serves(e));
    InspectAsked(w, s, agent, host, container, r);
    StepKeepsWellFormed(w.g, e);
    var l := NextWorld(k, Takes(s, d));
    InspectHandled(k, s, agent, container, r, d);
    hide Next, Take, WellFormed, Asked, Idle, Possible, InspectEnvelope;
    var m := l.links[s].up[0];
    InspectedAnswers(l.g, s, m.inspected);
    ReplyArrives(l, s, agent, m);
    v := NextWorld(l, Arrives(s));
    hide NextWorld;
    ThreeSteps(w, Serves(e), Takes(s, d), Arrives(s));
  }

  // ---------- lists ----------

  lemma ListAsked(w: World, s: SocketId, agent: string, host: string)
    requires Idle(w, s, agent)
    ensures var e := AsksList(agent, host); var k := NextWorld(w, Serves(e));
      && Possible(w, Serves(e)) && Asked(k, s, agent, ListEnvelope()) && Promised(w.g, k.g, ForList(agent))
  {
    var e := AsksList(agent, host);
    ListGoesOut(w.g, s, agent, host);
    AskListSends(w.g, agent, host);
    assert Internal(w, e);
    hide Next, Idle, Asked, Promised;
    OrderAsked(w, s, agent, e, ListEnvelope());
  }

  /** What an agent lists: what its Docker lists, or nothing without Docker. */
  function WhatIsListed(ready: bool, d: Docker): Json
    requires ready ==> d.listing.Some?
  {
    if ready then d.listing.value else PayloadJson([])
  }

  lemma ListHandled(k: World, s: SocketId, agent: string, d: Docker)
    requires Asked(k, s, agent, ListEnvelope()) && (agent in k.engines ==> d.listing.Some?)
    ensures var l := NextWorld(k, Takes(s, d));
      && Possible(k, Takes(s, d)) && l.g == k.g && l.calls == k.calls
      && Carries(l, s, agent, Listed(WhatIsListed(agent in k.engines, d)))
  {
    hide Take;
    Handled(k, s, agent, ListEnvelope(), d);
    HandledWrites(k, s, agent, ListEnvelope(), d);
    assert k.calls + [] == k.calls;
  }

  lemma NothingListed()
    ensures Kept(Items(PayloadJson([]))) == []
  {
    ListFixpoint([]);
  }

  /** And for a list, unless the agent's Docker fails to list. */
  lemma ListRoundTrip(w: World, s: SocketId, agent: string, host: string, d: Docker) returns (v: World)
    requires WellFormed(w.g) && Idle(w, s, agent) && (agent in w.engines ==> d.listing.Some?)
    ensures Happens(w, [Serves(AsksList(agent, host)), Takes(s, d), Arrives(s)], v)
    ensures Idle(v, s, agent) && v.calls == w.calls
    ensures w.g.ledger.nextPromise in v.g.ledger.outcomes
      && v.g.ledger.outcomes[w.g.ledger.nextPromise]
         == Listing(if agent in w.engines then Kept(Items(d.listing.value)) else [])
  {
    var e := AsksList(agent, host);
    var k := NextWorld(w, Serves(e));
    ListAsked(w, s, agent, host);
    StepKeepsWellFormed(w.g, e);
    var l := NextWorld(k, Takes(s, d));
    ListHandled(k, s, agent, d);
    NothingListed();
    hide Next, Take, WellFormed, Asked, Possible, ListEnvelope, Kept, Items, PayloadJson;
    var m := l.links[s].up[0];
    ListedAnswers(l.g, s, m.listing);
    ReplyArrives(l, s, agent, m);
    v := NextWorld(l, Arrives(s));
    hide NextWorld, Idle;
    ThreeSteps(w, Serves(e), Takes(s, d), Arrives(s));
  }

  // ---------- logs ----------

  lemma LogsAsked(w: World, s: SocketId, agent: string, host: string, container: string, tail: int, follow: bool, r: string)
    requires Idle(w, s, agent) && NewId(w.g, r)
    ensures var e := StartsLogs(agent, host, container, tail, follow, r); var k := NextWorld(w, Serves(e));
      && Possible(w, Serves(e)) && Asked(k, s, agent, SubscribeEnvelope(r, container, tail, follow))
      && r in k.g.subscribers && k.g.subscribers[r] == Subscriber(agent, container)
  {
    var e := StartsLogs(agent, host, container, tail, follow, r);
    LogsGoOut(w.g, s, agent, host, container, tail, follow, r);
    OrderSends(w.g, e);
    assert Internal(w, e);
    hide Next, Idle, Asked;
    OrderAsked(w, s, agent, e, SubscribeEnvelope(r, container, tail, follow));
  }

  lemma LogsHandled(k: World, s: SocketId, agent: string, container: string, tail: int, follow: bool, r: string, d: Docker)
    requires r != "" && container != "" && agent in k.engines && d.opens
    requires Asked(k, s, agent, SubscribeEnvelope(r, container, tail, follow))
    ensures var l := NextWorld(k, Takes(s, d));
      && Possible(k, Takes(s, d)) && l.g == k.g && Idle(l, s, agent)
      && l.streams == k.streams[r := LogStream(agent, container, d.source, Batching.Open(50, d.source, d.ending))]
  {
    hide Take;
    Handled(k, s, agent, SubscribeEnvelope(r, container, tail, follow), d);
    HandledWrites(k, s, agent, SubscribeEnvelope(r, container, tail, follow), d);
  }

  lemma TwoSteps(w: World, a: Step, b: Step)
    requires Possible(w, a) && Possible(NextWorld(w, a), b)
    ensures Happens(w, [a, b], NextWorld(NextWorld(w, a), b))
  {
    hide Possible, NextWorld;
    var k := NextWorld(w, a);
    assert [a, b][1..] == [b];
    assert Happens(k, [b], NextWorld(k, b));
  }

  /** Starting a log opens a stream for it, on the container asked for. */
  lemma LogsOpened(w: World, s: SocketId, agent: string, host: string, container: string, tail: int, follow: bool, r: string,
                   d: Docker) returns (v: World)
    requires Idle(w, s, agent) && NewId(w.g, r) && container != "" && agent in w.engines && d.opens
    ensures Happens(w, [Serves(StartsLogs(agent, host, container, tail, follow, r)), Takes(s, d)], v)
    ensures Idle(v, s, agent)
    ensures r in v.g.subscribers && v.g.subscribers[r] == Subscriber(agent, container)
    ensures v.streams == w.streams[r := LogStream(agent, container, d.source, Batching.Open(50, d.source, d.ending))]
  {
    var e := StartsLogs(agent, host, container, tail, follow, r);
    LogsAsked(w, s, agent, host, container, tail, follow, r);
    LogsHandled(NextWorld(w, Serves(e)), s, agent, container, tail, follow, r, d);
    v := NextWorld(NextWorld(w, Serves(e)), Takes(s, d));
    TwoSteps(w, Serves(e), Takes(s, d));
  }

  lemma ChunkArrives(g: State, s: SocketId, r: string, container: string, chunk: seq<Entry>)
    requires r != "" && r in g.subscribers
    ensures var h := Next(g, Receives(s, Chunk(ChunkPayload(r, container, Some(chunk)))));
      && h.clients == g.clients && h.sockets == g.sockets
      && Observed(h, r) == Observed(g, r) + [Seen(container, chunk)]
      && forall q :: q != r ==> Observed(h, q) == Observed(g, q)
  {}

  /** A stream gets on by its own steps, and by nothing else. */
  lemma StreamMoved(w: World, r: string, move: Batching.Step)
    requires r in w.streams
    ensures var v := NextWorld(w, Streams(r, move));
      && v.streams == w.streams[r := w.streams[r].(stream := Batching.Next(w.streams[r].stream, move))]
      && v.g == w.g && v.sessions == w.sessions && v.calls == w.calls
  {
    hide Batching.Next;
  }

  lemma ChunkHanded(w: World, s: SocketId, agent: string, r: string, move: Batching.Step, chunk: seq<Entry>)
    requires Idle(w, s, agent) && Possible(w, Streams(r, move)) && w.streams[r].agent == agent
    requires Batching.Next(w.streams[r].stream, move).work.handed == w.streams[r].stream.work.handed + [chunk]
    ensures var k := NextWorld(w, Streams(r, move));
      k.g == w.g && Carries(k, s, agent, Chunk(ChunkPayload(r, w.streams[r].container, Some(chunk))))
  {
    hide Batching.Next, Batching.Enabled;
    var m := Chunk(ChunkPayload(r, w.streams[r].container, Some(chunk)));
    assert [] + [m] == [m];
  }

  /** A chunk that a stream hands over is seen by its own request's subscriber, under the stream's container. */
  lemma ChunkRoundTrip(w: World, s: SocketId, agent: string, r: string, move: Batching.Step, chunk: seq<Entry>) returns (v: World)
    requires Idle(w, s, agent) && r != "" && r in w.g.subscribers
    requires Possible(w, Streams(r, move)) && w.streams[r].agent == agent
    requires Batching.Next(w.streams[r].stream, move).work.handed == w.streams[r].stream.work.handed + [chunk]
    ensures Happens(w, [Streams(r, move), Arrives(s)], v)
    ensures Idle(v, s, agent)
    ensures Observed(v.g, r) == Observed(w.g, r) + [Seen(w.streams[r].container, chunk)]
    ensures forall q :: q != r ==> Observed(v.g, q) == Observed(w.g, q)
    ensures v.streams == w.streams[r := w.streams[r].(stream := Batching.Next(w.streams[r].stream, move))]
  {
    var k := NextWorld(w, Streams(r, move));
    StreamMoved(w, r, move);
    ChunkHanded(w, s, agent, r, move, chunk);
    ChunkArrives(w.g, s, r, w.streams[r].container, chunk);
    v := NextWorld(k, Arrives(s));
    hide Next, MoveStream, Observed, Batching.Next, Batching.Enabled;
    TwoSteps(w, Streams(r, move), Arrives(s));
  }

  // ---------- connecting ----------

  /** Connected, but not known to the gateway. */
  ghost predicate Dialled(w: World, s: SocketId, agent: string, up: seq<AgentMessage>) {
    && s in w.g.clients && w.g.clients[s] == Client(true, "", None, [])
    && s in w.links && w.links[s] == Link(agent, true, true, false, 0, up)
    && agent in w.sessions && w.sessions[agent] == s && agent != ""
  }

  lemma DialledIn(w: World, s: SocketId, agent: string)
    requires Possible(w, Dials(agent, s))
    ensures var k := NextWorld(w, Dials(agent, s)); Dialled(k, s, agent, []) && k.engines == w.engines && k.calls == w.calls
  {}

  lemma RegistrationSaid(k: World, s: SocketId, agent: string, m: AgentMessage)
    requires Dialled(k, s, agent, []) && m.Register? && m.uuid == agent && m.hostname != "" && m.os != ""
    ensures var l := NextWorld(k, Says(s, m));
      Possible(k, Says(s, m)) && Dialled(l, s, agent, [m]) && l.engines == k.engines && l.calls == k.calls
  {
    assert [] + [m] == [m];
  }

  lemma RegistrationReceived(l: World, s: SocketId, agent: string, m: AgentMessage)
    requires Dialled(l, s, agent, [m]) && m.Register? && m.uuid == agent && m.hostname != "" && m.os != ""
    ensures var v := NextWorld(l, Arrives(s));
      Possible(l, Arrives(s)) && Dialled(v, s, agent, []) && v.engines == l.engines && v.calls == l.calls
  {
    assert [m][1..] == [];
  }

  /** Dialling and registering. */
  lemma RegistrationSent(w: World, s: SocketId, agent: string, hostname: string, os: string) returns (v: World)
    requires Possible(w, Dials(agent, s)) && hostname != "" && os != ""
    ensures Happens(w, [Dials(agent, s), Says(s, AgentMessage.Register(agent, hostname, os)), Arrives(s)], v)
    ensures Dialled(v, s, agent, []) && v.engines == w.engines && v.calls == w.calls
  {
    hide NextWorld, Dialled, Possible;
    var m := AgentMessage.Register(agent, hostname, os);
    var k := NextWorld(w, Dials(agent, s));
    DialledIn(w, s, agent);
    RegistrationSaid(k, s, agent, m);
    var l := NextWorld(k, Says(s, m));
    RegistrationReceived(l, s, agent, m);
    v := NextWorld(l, Arrives(s));
    ThreeSteps(w, Dials(agent, s), Says(s, m), Arrives(s));
  }

  lemma RegistrationStored(w: World, s: SocketId, agent: string, id: string)
    requires Dialled(w, s, agent, [])
    ensures var k := NextWorld(w, Serves(Registers(s, agent, id)));
      && Possible(w, Serves(Registers(s, agent, id))) && k == w.(g := k.g) && Connected(k.g, agent) == Some(s)
      && k.g.clients[s] == Client(true, agent, Some(id), [RegisteredEnvelope(id, agent, ""), ListEnvelope()])
  {
    RegistrationAnswered(w.g, s, agent, id);
    RegisterConnects(w.g, s, agent, id, s, agent);
    RegisterSends(w.g, s, agent, id);
    hide Next;
  }

  lemma AcknowledgementRead(k: World, s: SocketId, agent: string, id: string, d: Docker)
    requires s in k.links && k.links[s] == Link(agent, true, true, false, 0, []) && agent in k.sessions && k.sessions[agent] == s
    requires agent != "" && Connected(k.g, agent) == Some(s)
    requires k.g.clients[s] == Client(true, agent, Some(id), [RegisteredEnvelope(id, agent, ""), ListEnvelope()])
    ensures var v := NextWorld(k, Takes(s, d));
      && Possible(k, Takes(s, d)) && Asked(v, s, agent, ListEnvelope()) && v.g == k.g
      && v.engines == k.engines && v.calls == k.calls
  {
    RegistrationRead(id, agent, "");
    RequestsRead("", "");
    hide Read, RegisteredEnvelope, ListEnvelope, Obey;
  }

  /** The rest of the registration, and the agent reading it. */
  lemma RegistrationDone(w: World, s: SocketId, agent: string, id: string, d: Docker) returns (v: World)
    requires Dialled(w, s, agent, [])
    ensures Happens(w, [Serves(Registers(s, agent, id)), Takes(s, d)], v)
    ensures Asked(v, s, agent, ListEnvelope()) && v.g.clients[s].agentId == Some(id)
    ensures v.engines == w.engines && v.calls == w.calls
  {
    hide Next, NextWorld, Possible, RegisteredEnvelope, ListEnvelope;
    var k := NextWorld(w, Serves(Registers(s, agent, id)));
    RegistrationStored(w, s, agent, id);
    AcknowledgementRead(k, s, agent, id, d);
    v := NextWorld(k, Takes(s, d));
    TwoSteps(w, Serves(Registers(s, agent, id)), Takes(s, d));
  }

  /** From any world in which an agent has no connection it can get one: once it has dialled, registered, read the
      acknowledgement and listed, it is idle, and the server's cache holds its list. */
  lemma FreshAgentConnects(w: World, s: SocketId, agent: string, hostname: string, os: string, id: string, d: Docker)
    returns (v: World)
    requires Possible(w, Dials(agent, s)) && hostname != "" && os != "" && id != ""
    requires agent in w.engines ==> d.listing.Some?
    ensures Happens(w, [Dials(agent, s), Says(s, AgentMessage.Register(agent, hostname, os)), Arrives(s)]
                       + [Serves(Registers(s, agent, id)), Takes(s, d)] + [Takes(s, d), Arrives(s)], v)
    ensures Idle(v, s, agent) && v.calls == w.calls
    ensures CachedByHost(v.g, id) == (if agent in w.engines then Kept(Items(d.listing.value)) else [])
  {
    var k := RegistrationSent(w, s, agent, hostname, os);
    var l := RegistrationDone(k, s, agent, id, d);
    var m := NextWorld(l, Takes(s, d));
    ListHandled(l, s, agent, d);
    NothingListed();
    hide Next, Take, Asked, Possible, ListEnvelope, Kept, Items, PayloadJson;
    ListedCached(m.g, s, WhatIsListed(agent in l.engines, d), id);
    ReplyArrives(m, s, agent, Listed(WhatIsListed(agent in l.engines, d)));
    v := NextWorld(m, Arrives(s));
    hide NextWorld, Idle;
    TwoSteps(l, Takes(s, d), Arrives(s));
    HappensAppend(w, [Dials(agent, s), Says(s, AgentMessage.Register(agent, hostname, os)), Arrives(s)], k,
                  [Serves(Registers(s, agent, id)), Takes(s, d)], l);
    HappensAppend(w, [Dials(agent, s), Says(s, AgentMessage.Register(agent, hostname, os)), Arrives(s)]
                     + [Serves(Registers(s, agent, id)), Takes(s, d)], l, [Takes(s, d), Arrives(s)], v);
  }

  // ---------- coming and going ----------

  /** A session that ends is over for the agent at once; the server does not know yet, and the agent may dial again. */
  lemma SessionLost(w: World, s: SocketId, agent: string, t: SocketId)
    requires Possible(w, Loses(s)) && w.links[s].agent == agent != "" && t !in w.g.clients && t !in w.links
    ensures var v := NextWorld(w, Loses(s));
      && v.g == w.g && v.engines == w.engines && v.calls == w.calls
      && s in v.links && !v.links[s].agentUp && v.links[s].serverUp == w.links[s].serverUp
      && Possible(v, Dials(agent, t)) && (forall d :: !Possible(v, Takes(s, d))) && forall m :: !Possible(v, Says(s, m))
  {}

  /** So an agent that has lost its connection gets another, whether the server has noticed or not. */
  lemma AgentReconnects(w: World, s: SocketId, agent: string, t: SocketId, hostname: string, os: string, id: string, d: Docker)
    returns (v: World)
    requires Possible(w, Loses(s)) && w.links[s].agent == agent != "" && t !in w.g.clients && t !in w.links
    requires hostname != "" && os != "" && id != "" && (agent in w.engines ==> d.listing.Some?)
    ensures Happens(w, [Loses(s)] + ([Dials(agent, t), Says(t, AgentMessage.Register(agent, hostname, os)), Arrives(t)]
                                     + [Serves(Registers(t, agent, id)), Takes(t, d)] + [Takes(t, d), Arrives(t)]), v)
    ensures Idle(v, t, agent)
  {
    var k := NextWorld(w, Loses(s));
    SessionLost(w, s, agent, t);
    hide NextWorld, Possible, Idle;
    v := FreshAgentConnects(k, t, agent, hostname, os, id, d);
    assert Happens(k, [], k);
    assert Happens(w, [Loses(s)], k);
    HappensAppend(w, [Loses(s)], k,
                  [Dials(agent, t), Says(t, AgentMessage.Register(agent, hostname, os)), Arrives(t)]
                  + [Serves(Registers(t, agent, id)), Takes(t, d)] + [Takes(t, d), Arrives(t)], v);
  }

  /** When the server notices a disconnect, nothing is left waiting for that agent, and the socket is done with. */
  lemma DisconnectNoticed(w: World, s: SocketId, agent: string)
    requires WellFormed(w.g) && Possible(w, Notices(s)) && s in w.g.clients && w.g.clients[s].agentUuid == agent != ""
    ensures var v := NextWorld(w, Notices(s));
      && v.g == Next(w.g, Disconnects(s)) && Connected(v.g, agent).None?
      && (forall slot :: slot in v.g.ledger.entries ==> v.g.ledger.entries[slot].agent != agent)
      && (forall r :: r in v.g.subscribers ==> v.g.subscribers[r].agent != agent)
      && !Possible(v, Notices(s)) && !Possible(v, Arrives(s))
  {
    DisconnectExact(w.g, s, agent);
    hide Disconnect, WellFormed;
    var v := NextWorld(w, Notices(s));
    forall slot | slot in v.g.ledger.entries ensures v.g.ledger.entries[slot].agent != agent {
      assert slot in w.g.ledger.entries;
    }
  }

  /** What an agent says arrives. */
  lemma SaidArrives(w: World, s: SocketId, agent: string, m: AgentMessage)
    requires s in w.links && w.links[s].agent == agent && w.links[s].agentUp && w.links[s].serverUp && w.links[s].up == []
    requires m == Heartbeat(agent) || m.Listed?
    ensures var v := NextWorld(NextWorld(w, Says(s, m)), Arrives(s));
      Happens(w, [Says(s, m), Arrives(s)], v) && v.g == Next(w.g, Receives(s, m)) && v.links == w.links
  {
    var k := NextWorld(w, Says(s, m));
    assert [] + [m] == [m] && [m][1..] == [];
    var v := NextWorld(k, Arrives(s));
    assert v.links == w.links;
    hide Next;
    TwoSteps(w, Says(s, m), Arrives(s));
  }

  /** A heartbeat on a live socket connects the agent by that socket, whatever has unseated it. */
  lemma HeartbeatSeats(w: World, s: SocketId, agent: string) returns (v: World)
    requires s in w.links && w.links[s].agent == agent != "" && w.links[s].agentUp && w.links[s].serverUp && w.links[s].up == []
    requires s in w.g.clients && w.g.clients[s].open
    ensures Happens(w, [Says(s, Heartbeat(agent)), Arrives(s)], v) && Connected(v.g, agent) == Some(s)
  {
    SaidArrives(w, s, agent, Heartbeat(agent));
    HeartbeatConnects(w.g, s, agent, s, agent);
    v := NextWorld(NextWorld(w, Says(s, Heartbeat(agent))), Arrives(s));
    hide Next, NextWorld, Connected;
  }

  /** A list that an agent sends on its own accord is what the server has cached for it. */
  lemma PushedListCached(w: World, s: SocketId, agent: string, listing: Json, id: string) returns (v: World)
    requires s in w.links && w.links[s].agent == agent != "" && w.links[s].agentUp && w.links[s].serverUp && w.links[s].up == []
    requires s in w.g.clients && w.g.clients[s].agentUuid == agent && w.g.clients[s].agentId == Some(id) && id != ""
    ensures Happens(w, [Says(s, Listed(listing)), Arrives(s)], v)
    ensures CachedByHost(v.g, id) == Kept(Items(listing)) && CachedByUuid(v.g, agent) == Kept(Items(listing))
  {
    SaidArrives(w, s, agent, Listed(listing));
    ListedCached(w.g, s, listing, id);
    v := NextWorld(NextWorld(w, Says(s, Listed(listing))), Arrives(s));
    hide Next, NextWorld;
  }
}
