/** Log delivery when agents reconnect as they please: without the order, but still nothing from elsewhere and
    nothing twice. */
module LogAccounting {
  import Batching
  import opened Prelude
  import opened Decode
  import opened Protocol
  import opened Gateway
  import opened GatewayRuns
  import opened GatewayTrace
  import opened Fleet
  import opened Identity
  import opened CommandDelivery
  import opened LogDelivery

  /** How often a chunk occurs. */
  ghost function Times(chunks: seq<Seen>, x: Seen): nat { multiset(chunks)[x] }

  lemma TimesAppend(a: seq<Seen>, b: seq<Seen>, x: Seen)
    ensures Times(a + b, x) == Times(a, x) + Times(b, x)
  {}

  /** How often a chunk of the request is on the lanes of the first `n` sockets, dead or alive. */
  ghost function InFlight(links: map<SocketId, Link>, r: string, x: Seen, n: nat): nat {
    if n == 0 then 0
    else InFlight(links, r, x, n - 1) + (if n - 1 in links then Times(Flight(links[n - 1].up, r), x) else 0)
  }

  lemma {:induction false} MoreSockets(links: map<SocketId, Link>, r: string, x: Seen, n: nat, m: nat)
    requires n <= m
    ensures InFlight(links, r, x, n) <= InFlight(links, r, x, m)
    decreases m
  {
    hide Times, Flight;
    if n < m {
      MoreSockets(links, r, x, n, m - 1);
    }
  }

  /** One lane changes. */
  lemma {:induction false} OneLane(links: map<SocketId, Link>, s: SocketId, l: Link, r: string, x: Seen, n: nat)
    requires s in links
    ensures InFlight(links[s := l], r, x, n) + (if s < n then Times(Flight(links[s].up, r), x) else 0)
      == InFlight(links, r, x, n) + (if s < n then Times(Flight(l.up, r), x) else 0)
  {
    hide Times, Flight;
    if n > 0 {
      OneLane(links, s, l, r, x, n - 1);
    }
  }

  /** The lanes hold the same chunks of the request. */
  lemma {:induction false} SameLanes(links: map<SocketId, Link>, after: map<SocketId, Link>, r: string, x: Seen, n: nat)
    requires forall s :: s in links ==> s in after && Flight(after[s].up, r) == Flight(links[s].up, r)
    requires forall s :: s in after && s !in links ==> Flight(after[s].up, r) == []
    ensures InFlight(after, r, x, n) == InFlight(links, r, x, n)
  {
    assert Times([], x) == 0;
    hide Times, Flight;
    if n > 0 {
      SameLanes(links, after, r, x, n - 1);
    }
  }

  /** What has been seen and what is on the lanes was handed over, each as often at least. */
  ghost predicate Accounted(w: World, r: string) {
    forall x: Seen, n: nat :: Covered(w, r, x, n)
  }

  ghost predicate Covered(w: World, r: string, x: Seen, n: nat) {
    Times(Observed(w.g, r), x) + InFlight(w.links, r, x, n) <= Times(Handed(w.streams, r), x)
  }

  ghost predicate Accounting(w: World) {
    StreamsTraced(w) && forall r :: Accounted(w, r)
  }

  /** Nothing moves. */
  lemma StillAccounted(w: World, v: World, r: string)
    requires Accounted(w, r) && Observed(v.g, r) == Observed(w.g, r) && Handed(v.streams, r) == Handed(w.streams, r)
    requires forall s :: s in w.links ==> s in v.links && Flight(v.links[s].up, r) == Flight(w.links[s].up, r)
    requires forall s :: s in v.links && s !in w.links ==> Flight(v.links[s].up, r) == []
    ensures Accounted(v, r)
  {
    hide Flight, Observed, Handed, Times, InFlight;
    forall x: Seen, n: nat ensures Covered(v, r, x, n) {
      assert Covered(w, r, x, n);
      SameLanes(w.links, v.links, r, x, n);
    }
  }

  /** How a step of the gateway alone leaves the links; a new one carries nothing. */
  ghost predicate LanesKept(before: map<SocketId, Link>, after: map<SocketId, Link>) {
    && (forall s :: s in before ==> s in after && after[s].agent == before[s].agent && after[s].up == before[s].up
                                    && after[s].taken == before[s].taken)
    && (forall s :: s in after && s !in before ==> after[s].up == [])
  }

  lemma ServeAccounting(w: World, e: Event, v: World)
    requires Accounting(w) && WellFormed(w.g) && Enabled(w.g, e) && !e.Receives? && v.g == Next(w.g, e)
    requires v.streams == w.streams && v.engines == w.engines && LanesKept(w.links, v.links)
    ensures Accounting(v)
  {
    hide Next, Accounted, StreamsTraced, WellFormed, Enabled, Observed, Handed, Flight;
    ServeExtends(w, e, v.links);
    assert Extends(w, v);
    ServeKeepsStreams(w, v);
    forall r: string ensures Accounted(v, r) {
      StepObserves(w.g, e, r);
      assert Observed(w.g, r) + [] == Observed(w.g, r);
      EmptyLane(r);
      StillAccounted(w, v, r);
    }
  }

  lemma EmptyLane(r: string)
    ensures Flight([], r) == []
  {}

  /** The chunk at the head of a lane moves to the observations, if there is someone to observe it. */
  lemma ArriveCovered(w: World, s: SocketId, r: string, x: Seen, n: nat)
    requires Accounted(w, r) && Possible(w, Arrives(s))
    ensures Covered(Arrive(w, s), r, x, n)
  {
    hide Next, Observed, Handed, SeenIn, Delivery, Times, InFlight;
    var up, m, v := w.links[s].up, w.links[s].up[0], Arrive(w, s);
    ReceiveObservation(w.g, s, m, r);
    DeliveryIsSeen(w.g, s, m, r);
    assert Flight(up, r) == SeenIn(m, r) + Flight(up[1..], r);
    hide Flight;
    TimesAppend(SeenIn(m, r), Flight(up[1..], r), x);
    TimesAppend(Observed(w.g, r), SeenIn(m, r), x);
    assert Observed(w.g, r) + [] == Observed(w.g, r);
    var all := if n <= s then s + 1 else n;
    OneLane(w.links, s, v.links[s], r, x, all);
    MoreSockets(v.links, r, x, n, all);
    assert Covered(w, r, x, all);
  }

  lemma ArriveAccounting(w: World, s: SocketId)
    requires Accounting(w) && WellFormed(w.g) && Possible(w, Arrives(s))
    ensures Accounting(Arrive(w, s))
  {
    hide Next, StreamsTraced, WellFormed, Covered;
    var v := Arrive(w, s);
    var e := Receives(s, w.links[s].up[0]);
    assert Enabled(w.g, e);
    ServeExtends(w, e, v.links);
    ServeKeepsStreams(w, v);
    forall r: string, x: Seen, n: nat ensures Covered(v, r, x, n) {
      assert Accounted(w, r);
      ArriveCovered(w, s, r, x, n);
    }
  }

  /** Nothing is said but what is no chunk, nothing is handed over, and nothing is taken back. */
  lemma QuietAccounting(w: World, v: World)
    requires Accounting(w) && v.g == w.g && StreamsTraced(v) && v.links.Keys == w.links.Keys
    requires SameFlight(w.links, v.links, w.streams)
    requires forall r {:trigger Handed(w.streams, r)} :: Handed(v.streams, r) == Handed(w.streams, r)
    ensures Accounting(v)
  {
    hide StreamsTraced, Handed, Observed, Flight, ChunksKnown;
    forall r: string ensures Accounted(v, r) {
      assert Accounted(w, r);
      StillAccounted(w, v, r);
    }
  }

  lemma SpeakAccounting(w: World, s: SocketId, m: AgentMessage)
    requires Accounting(w) && !m.Chunk?
    ensures Accounting(Speak(w, s, m))
  {
    hide StreamTraced, SameFlight, Accounted, Handed;
    var v := Speak(w, s, m);
    SpeakSameFlight(w, s, m);
    forall r | r in v.streams ensures StreamTraced(v.g.issued, v.links, r, v.streams[r]) {
      StreamKept(w, v, r);
    }
    QuietAccounting(w, v);
  }

  /** A link is taken from, registers or loses its agent. */
  lemma RelinkAccounting(w: World, s: SocketId, l: Link, v: World)
    requires Accounting(w) && s in w.links && v.links == w.links[s := l] && v.g == w.g && v.streams == w.streams
    requires l.agent == w.links[s].agent && l.up == w.links[s].up && l.taken >= w.links[s].taken
    ensures Accounting(v)
  {
    hide StreamTraced, Accounted, Handed, Flight, ChunksKnown;
    forall r | r in v.streams ensures StreamTraced(v.g.issued, v.links, r, v.streams[r]) {
      StreamKept(w, v, r);
    }
    assert SameFlight(w.links, v.links, w.streams);
    QuietAccounting(w, v);
  }

  /** A stream opened for an order taken just now: none was open for it. */
  lemma OpenStreamAccounting(w: World, s: SocketId, r: string, container: string, d: Docker)
    requires Accounting(w) && r !in w.streams && s in w.links && r in w.g.issued && w.g.issued[r].socket == s
    requires w.g.issued[r].order.LogOrder? && w.g.issued[r].order.container == container
    requires w.g.issued[r].index < w.links[s].taken
    ensures Accounting(OpenStream(w, w.links[s].agent, r, container, d))
  {
    var v := OpenStream(w, w.links[s].agent, r, container, d);
    if v != w {
      Batching.OpenConserved(Batching.DEFAULT_BATCH_SIZE, d.source, d.ending);
      hide Batching.Conserved, Accounted, Flight, ChunksKnown;
      assert SameFlight(w.links, v.links, w.streams);
      QuietAccounting(w, v);
    }
  }

  lemma SameLogsAccounting(w: World, v: World)
    requires Accounting(w) && v.g == w.g && v.links == w.links && v.streams == w.streams
    ensures Accounting(v)
  {
    hide StreamTraced, Handed, Observed, Flight, ChunksKnown, Accounted;
    assert SameFlight(w.links, v.links, w.streams);
    QuietAccounting(w, v);
  }

  /** `j`: the world with the stream opened that the instruction asks for, if any. */
  lemma ObeyAccounting(w: World, s: SocketId, agent: string, i: Instruction, d: Docker, j: World)
    requires Accounting(j) && j == (if i.Subscribe? then OpenStream(w, agent, i.requestId, i.containerId, d) else w)
    ensures Accounting(Obey(w, s, agent, i, d))
  {
    OpenStreamOnly(w, agent, if i.Subscribe? then i.requestId else "", if i.Subscribe? then i.containerId else "", d);
    hide Accounting, Obey, OpenStream;
    var m := ObeySays(w, s, agent, i, d);
    var v := Obey(w, s, agent, i, d);
    if m.Some? {
      SpeakAccounting(j, s, m.value);
      SameLogsAccounting(Speak(j, s, m.value), v);
    } else {
      SameLogsAccounting(j, v);
    }
  }

  lemma OrderAccounting(k: World, s: SocketId, r: string, d: Docker)
    requires Accounting(k) && r !in k.streams && s in k.links && r in k.g.issued
    requires k.g.issued[r].socket == s && k.g.issued[r].index < k.links[s].taken
    ensures Accounting(Obey(k, s, k.links[s].agent, InstructionFor(r, k.g.issued[r].order), d))
  {
    hide Accounting, Obey, OpenStream;
    var agent, order := k.links[s].agent, k.g.issued[r].order;
    if order.LogOrder? {
      OpenStreamAccounting(k, s, r, order.container, d);
      ObeyAccounting(k, s, agent, InstructionFor(r, order), d, OpenStream(k, agent, r, order.container, d));
    } else {
      ObeyAccounting(k, s, agent, InstructionFor(r, order), d, k);
    }
  }

  lemma AwaitAccounting(w: World, s: SocketId, i: Instruction)
    requires Accounting(w) && s in w.links
    ensures Accounting(AwaitRegistered(w, s, i))
  {
    hide Accounting;
    var v := AwaitRegistered(w, s, i);
    RelinkAccounting(w, s, v.links[s], v);
  }

  lemma TracedStreams(w: World)
    requires Accounting(w)
    ensures StreamsTraced(w)
  {}

  lemma TakeAccounting(w: World, s: SocketId, d: Docker)
    requires Accounting(w) && Traced(w.g) && Possible(w, Takes(s, d))
    ensures Accounting(Take(w, s, d))
  {
    hide Accounting, Read, Obey, Traced, StreamsTraced, InstructionFor, AwaitRegistered;
    var l := w.links[s];
    var e := w.g.clients[s].sent[l.taken];
    var k := Advanced(w, s);
    TracedStreams(w);
    RelinkAccounting(w, s, k.links[s], k);
    ReadAt(w.g, s, l.taken);
    if !l.registered {
      AwaitAccounting(k, s, Read(e));
    } else if RequestOf(e).Some? {
      NoStreamYet(w, s, RequestOf(e).value);
      OrderAccounting(k, s, RequestOf(e).value, d);
    } else {
      ObeyAccounting(k, s, l.agent, Read(e), d, k);
    }
  }

  // ---------- a stream hands over a chunk ----------

  lemma EmitLane(k: World, r: string, ls: LogStream, chunk: seq<Entry>, q: string)
    ensures var v := Emit(k, r, ls, chunk);
      v.links == k.links
      || exists s :: s in k.links && v.links == k.links[s := v.links[s]]
           && Flight(v.links[s].up, q) == Flight(k.links[s].up, q) + (if q == r then [Seen(ls.container, chunk)] else [])
  {
    if ls.agent in k.sessions && k.sessions[ls.agent] in k.links {
      var s := k.sessions[ls.agent];
      FlightSnoc(k.links[s].up, Chunk(ChunkPayload(r, ls.container, Some(chunk))), q);
      assert Emit(k, r, ls, chunk).links == k.links[s := Emit(k, r, ls, chunk).links[s]];
    }
  }

  lemma EmitCovered(w: World, v: World, r: string, chunk: seq<Entry>, q: string, x: Seen, n: nat)
    requires Accounted(w, q) && HandsChunk(w.streams, v.streams, r, chunk) && v.g == w.g
    requires v.links == Emit(w, r, w.streams[r], chunk).links
    ensures Covered(v, q, x, n)
  {
    hide Handed, Observed, Flight, Times, InFlight, Emit;
    var added := if q == r then [Seen(w.streams[r].container, chunk)] else [];
    EmitLane(w, r, w.streams[r], chunk, q);
    assert Handed(w.streams, q) + [] == Handed(w.streams, q);
    TimesAppend(Handed(w.streams, q), added, x);
    assert Covered(w, q, x, n);
    if v.links != w.links {
      var s :| s in w.links && v.links == w.links[s := v.links[s]] && Flight(v.links[s].up, q) == Flight(w.links[s].up, q) + added;
      TimesAppend(Flight(w.links[s].up, q), added, x);
      OneLane(w.links, s, v.links[s], q, x, n);
    }
  }

  lemma EmitAccounting(w: World, k: World, r: string, chunk: seq<Entry>)
    requires Accounting(w) && r in w.streams && k == w.(streams := k.streams) && StreamsTraced(k)
    requires HandsChunk(w.streams, k.streams, r, chunk)
    ensures Accounting(Emit(k, r, w.streams[r], chunk))
  {
    var ls := w.streams[r];
    var v := Emit(k, r, ls, chunk);
    assert v.links == Emit(w, r, ls, chunk).links;
    hide HandsChunk, Emit, Covered, StreamTraced;
    EmitFrame(k, r, ls, chunk);
    forall q | q in v.streams ensures StreamTraced(v.g.issued, v.links, q, v.streams[q]) {
      StreamKept(k, v, q);
    }
    forall q: string, x: Seen, n: nat ensures Covered(v, q, x, n) {
      assert Accounted(w, q);
      EmitCovered(w, v, r, chunk, q, x, n);
    }
  }

  lemma MoveStreamAccounting(w: World, r: string, move: Batching.Step)
    requires Accounting(w) && Possible(w, Streams(r, move))
    ensures Accounting(MoveStream(w, r, move))
  {
    hide Handed, Accounted, StreamsTraced, ChunksKnown, Flight, Batching.Next, Batching.Enabled, Emit, HandsChunk;
    var ls := w.streams[r];
    var next := Batching.Next(ls.stream, move);
    var k := w.(streams := w.streams[r := ls.(stream := next)]);
    MovedStreams(w, r, move);
    HandsOver(ls.stream, move);
    if |next.work.handed| > |ls.stream.work.handed| {
      var chunk := next.work.handed[|ls.stream.work.handed|];
      MovedHandsChunk(w.streams, r, next, chunk);
      EmitAccounting(w, k, r, chunk);
    } else {
      SameHandedStill(w.streams, r, next);
      QuietAccounting(w, k);
    }
  }

  // ---------- every step ----------

  lemma DialAccounting(w: World, agent: string, s: SocketId)
    requires Accounting(w) && WellFormed(w.g) && Possible(w, Dials(agent, s))
    ensures Accounting(NextWorld(w, Dials(agent, s)))
  {
    hide Accounting, WellFormed, Next;
    ServeAccounting(w, Connects(s), NextWorld(w, Dials(agent, s)));
  }

  lemma ServesAccounting(w: World, e: Event)
    requires Accounting(w) && WellFormed(w.g) && Possible(w, Serves(e))
    ensures Accounting(NextWorld(w, Serves(e)))
  {
    hide Accounting, WellFormed, Next;
    ServeAccounting(w, e, NextWorld(w, Serves(e)));
  }

  lemma NoticesAccounting(w: World, s: SocketId)
    requires Accounting(w) && WellFormed(w.g) && Possible(w, Notices(s))
    ensures Accounting(NextWorld(w, Notices(s)))
  {
    hide Accounting, WellFormed, Next;
    ServeAccounting(w, Disconnects(s), NextWorld(w, Notices(s)));
  }

  lemma SaysAccounting(w: World, s: SocketId, m: AgentMessage)
    requires Accounting(w) && Possible(w, Says(s, m))
    ensures Accounting(Speak(w, s, m))
  {
    hide Accounting;
    SpeakAccounting(w, s, m);
  }

  lemma LosesAccounting(w: World, s: SocketId)
    requires Accounting(w) && Possible(w, Loses(s))
    ensures Accounting(HangUp(w, s))
  {
    hide Accounting;
    RelinkAccounting(w, s, HangUp(w, s).links[s], HangUp(w, s));
  }

  lemma StepAccounting(w: World, step: Step)
    requires Accounting(w) && Faithful(w) && Possible(w, step)
    ensures Accounting(NextWorld(w, step))
  {
    hide Accounting, Faithful, WellFormed, Traced, NextWorld, Arrive, Take, MoveStream, HangUp, Speak, Possible;
    FaithfulParts(w);
    StepIs(w, step);
    match step {
      case Dials(agent, s) => DialAccounting(w, agent, s);
      case Serves(e) => ServesAccounting(w, e);
      case Notices(s) => NoticesAccounting(w, s);
      case Arrives(s) => ArriveAccounting(w, s);
      case Says(s, m) => SaysAccounting(w, s, m);
      case Takes(s, d) => TakeAccounting(w, s, d);
      case Loses(s) => LosesAccounting(w, s);
      case Streams(r, move) => MoveStreamAccounting(w, r, move);
    }
  }

  lemma {:induction false} AlwaysAccounting(w: World, steps: seq<Step>, v: World)
    requires Accounting(w) && Faithful(w) && Happens(w, steps, v)
    ensures Accounting(v)
    decreases |steps|
  {
    hide Accounting, Faithful, Possible, NextWorld;
    if steps != [] {
      StepAccounting(w, steps[0]);
      StepKeepsFaithful(w, steps[0]);
      AlwaysAccounting(NextWorld(w, steps[0]), steps[1..], v);
    }
  }

  lemma {:induction false} NoLanes(r: string, x: Seen, n: nat)
    ensures InFlight(map[], r, x, n) == 0
  {
    if n > 0 {
      NoLanes(r, x, n - 1);
    }
  }

  lemma RestAccounting(engines: set<string>)
    ensures Accounting(AtRest(engines))
  {
    forall r: string, x: Seen, n: nat ensures Covered(AtRest(engines), r, x, n) {
      NoLanes(r, x, n);
    }
  }

  lemma NothingOfNothing(seen: seq<Seen>)
    requires multiset(seen) <= multiset{}
    ensures seen == []
  {
    assert |multiset(seen)| == 0;
  }

  lemma SeenAccounted(w: World, r: string)
    requires Accounted(w, r)
    ensures multiset(Observed(w.g, r)) <= multiset(Handed(w.streams, r))
  {
    hide Observed, Handed;
    forall x: Seen ensures multiset(Observed(w.g, r))[x] <= multiset(Handed(w.streams, r))[x] {
      assert Covered(w, r, x, 0);
    }
  }

  /** What a request's onChunk has seen is accounted for by the stream that was opened for that request. */
  ghost predicate OnlyOwnChunks(w: World, r: string) {
    if r !in w.streams then Observed(w.g, r) == []
    else
      var ls := w.streams[r];
      && r in w.g.issued && w.g.issued[r].order.LogOrder? && w.g.issued[r].order.container == ls.container
      && w.g.issued[r].socket in w.links && w.links[w.g.issued[r].socket].agent == ls.agent
      && multiset(Observed(w.g, r)) <= multiset(Labelled(ls.container, ls.stream.work.handed))
      && Concat(ls.stream.work.handed) <= ls.source
  }

  lemma AccountedIsOwn(w: World, r: string)
    requires Accounting(w)
    ensures OnlyOwnChunks(w, r)
  {
    hide Batching.Conserved, Observed;
    SeenAccounted(w, r);
    if r in w.streams {
      assert StreamTraced(w.g.issued, w.links, r, w.streams[r]);
      Batching.ConservedPrefix(w.streams[r].stream);
    } else {
      NothingOfNothing(Observed(w.g, r));
    }
  }

  lemma OwnStream(w: World, r: string)
    requires OnlyOwnChunks(w, r) && r in w.streams
    ensures r in w.g.issued && w.g.issued[r].socket in w.links && w.g.issued[r].order.LogOrder?
    ensures w.streams[r].agent == w.links[w.g.issued[r].socket].agent && w.streams[r].container == w.g.issued[r].order.container
  {}

  lemma StartRecorded(w: World, agent: string, host: string, container: string, tail: int, follow: bool, r: string)
    requires Identified(w) && Connected(w.g, agent).Some?
    requires Possible(w, Serves(StartsLogs(agent, host, container, tail, follow, r)))
    ensures var v := NextWorld(w, Serves(StartsLogs(agent, host, container, tail, follow, r)));
      && r in v.g.issued && v.g.issued[r].order == LogOrder(container, tail, follow)
      && v.g.issued[r].socket in v.links && v.links[v.g.issued[r].socket].agent == agent
  {
    assert NewId(w.g, r);
    hide Identified, StartLogs, Possible;
    LogRecorded(w, agent, host, container, tail, follow, r);
  }

  lemma AccountedRun(engines: set<string>, before: seq<Step>, w: World, step: Step, after: seq<Step>, v: World)
    requires Happens(AtRest(engines), before, w) && Possible(w, step) && Happens(NextWorld(w, step), after, v)
    ensures Identified(w) && Accounting(v) && Extends(NextWorld(w, step), v)
  {
    RestFaithful(engines);
    RestAccounting(engines);
    hide Faithful, Identified, Accounting, Happens, Possible, NextWorld, Extends;
    AlwaysFaithful(AtRest(engines), before, w);
    AlwaysIdentified(AtRest(engines), before, w);
    AlwaysAccounting(AtRest(engines), before, w);
    StepKeepsFaithful(w, step);
    StepAccounting(w, step);
    RunExtends(NextWorld(w, step), after, v);
    AlwaysAccounting(NextWorld(w, step), after, v);
  }

  // ---------- the theorems ----------

  /** In every run whatsoever, with agents that reconnect while the server still believes in their last
      connection: what a request's onChunk has seen, whatever its order, are chunks that the one stream opened
      for that very request handed over, by the agent at the other end of the socket the request went out on
      and under the container it named, each seen no more often than handed over. Without a stream nothing is
      seen. */
  lemma LogsAccounted(engines: set<string>, steps: seq<Step>, w: World, r: string)
    requires Happens(AtRest(engines), steps, w)
    ensures OnlyOwnChunks(w, r)
  {
    RestFaithful(engines);
    RestAccounting(engines);
    hide Happens, Faithful, Accounting, OnlyOwnChunks;
    AlwaysAccounting(AtRest(engines), steps, w);
    AccountedIsOwn(w, r);
  }

  /** From one call of startLogStream: in every run the stream is the asked agent's, on the asked container. */
  lemma StartedLogsAccounted(engines: set<string>, before: seq<Step>, w: World, after: seq<Step>, v: World,
                             agent: string, host: string, container: string, tail: int, follow: bool, r: string)
    requires Happens(AtRest(engines), before, w) && Connected(w.g, agent).Some?
    requires Possible(w, Serves(StartsLogs(agent, host, container, tail, follow, r)))
    requires Happens(NextWorld(w, Serves(StartsLogs(agent, host, container, tail, follow, r))), after, v)
    ensures OnlyOwnChunks(v, r)
    ensures r in v.streams ==> v.streams[r].agent == agent && v.streams[r].container == container
  {
    hide Accounting, Identified, Happens, Possible, NextWorld, OnlyOwnChunks, Connected;
    AccountedRun(engines, before, w, Serves(StartsLogs(agent, host, container, tail, follow, r)), after, v);
    StartRecorded(w, agent, host, container, tail, follow, r);
    AccountedIsOwn(v, r);
    if r in v.streams {
      OwnStream(v, r);
    }
  }
}
