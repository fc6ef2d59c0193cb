/** What a promise of the gateway is settled with, by whatever settles it
    (apps/server/src/agents/agents.gateway.ts). */
module GatewayAnswers {
  import opened Prelude
  import opened ContainerListed
  import opened Inventory
  import opened Protocol
  import opened Outstanding
  import opened Gateway
  import opened GatewayRuns
  import opened Connection

  // ---------- messages ----------

  lemma ClosedWith(l: Ledger, slot: Slot, o: Outcome)
    requires Sound(l) && slot in l.entries && Fits(slot, o)
    ensures var p := l.entries[slot].promise; var q := Close(l, slot, o);
      p !in l.outcomes && q.outcomes == l.outcomes[p := o] && slot !in q.entries && l.entries[slot].timer !in q.timers
  {
    assert EntryBacked(l, slot);
  }

  /** A result resolves its own request's promise with what it says; what it leaves out reads as an empty
      message and as no error. */
  lemma ResultAnswers(g: State, s: SocketId, p: ResultPayload)
    requires WellFormed(g) && p.requestId != "" && ForCommand(p.requestId) in g.ledger.entries
    ensures var e, h := g.ledger.entries[ForCommand(p.requestId)], Next(g, Receives(s, Result(p)));
      && e.promise !in g.ledger.outcomes && e.timer !in h.ledger.timers && ForCommand(p.requestId) !in h.ledger.entries
      && h.ledger.outcomes == g.ledger.outcomes[e.promise :=
           Commanded(CommandResult(p.requestId, p.action, p.containerId, p.ok,
                                   match p.message case Some(m) => m case None => "", p.error))]
  {
    ClosedWith(g.ledger, ForCommand(p.requestId), Commanded(Normalised(p)));
  }

  /** So does an inspection, the container's details with it. */
  lemma InspectedAnswers(g: State, s: SocketId, p: InspectedPayload)
    requires WellFormed(g) && p.requestId != "" && ForInspect(p.requestId) in g.ledger.entries
    ensures var e, h := g.ledger.entries[ForInspect(p.requestId)], Next(g, Receives(s, Inspected(p)));
      && e.promise !in g.ledger.outcomes && e.timer !in h.ledger.timers && ForInspect(p.requestId) !in h.ledger.entries
      && h.ledger.outcomes == g.ledger.outcomes[e.promise := Inspection(InspectResult(p.requestId, p.container, p.ok, p.error))]
  {
    ClosedWith(g.ledger, ForInspect(p.requestId), Inspection(NormalisedInspection(p)));
  }

  /** A list answers whoever waits for that agent's list, with every summary in it that can be read. */
  lemma ListedAnswers(g: State, s: SocketId, listing: Json)
    requires WellFormed(g) && s in g.clients && g.clients[s].agentUuid != "" && ForList(g.clients[s].agentUuid) in g.ledger.entries
    ensures var slot := ForList(g.clients[s].agentUuid);
      var e, h := g.ledger.entries[slot], Next(g, Receives(s, Listed(listing)));
      && e.promise !in g.ledger.outcomes && e.timer !in h.ledger.timers && slot !in h.ledger.entries
      && h.ledger.outcomes == g.ledger.outcomes[e.promise := Listing(Kept(Items(listing)))]
  {
    hide SetContainers, Kept;
    ClosedWith(g.ledger, ForList(g.clients[s].agentUuid), Listing(Kept(Items(listing))));
  }

  /** ...and becomes what either lookup of that agent gives. */
  lemma ListedCached(g: State, s: SocketId, listing: Json, id: string)
    requires s in g.clients && g.clients[s].agentUuid != "" && g.clients[s].agentId == Some(id) && id != ""
    ensures var h := Next(g, Receives(s, Listed(listing)));
      CachedByHost(h, id) == Kept(Items(listing)) && CachedByUuid(h, g.clients[s].agentUuid) == Kept(Items(listing))
  {
    hide Kept, Close;
  }

  /** A message for a request that waits for nothing settles nothing. */
  lemma StrayIgnored(g: State, s: SocketId, m: AgentMessage)
    requires match m
      case Result(p) => p.requestId == "" || ForCommand(p.requestId) !in g.ledger.entries
      case Inspected(p) => p.requestId == "" || ForInspect(p.requestId) !in g.ledger.entries
      case Chunk(p) => p.requestId == "" || p.requestId !in g.subscribers
      case Ignored => true
      case _ => false
    ensures Next(g, Receives(s, m)) == g
  {}

  // ---------- an entry keeps its agent until it is answered ----------

  lemma MoveKeepsEntry(l: Ledger, m: Move, slot: Slot)
    requires Sound(l) && Fair(l, m) && slot in l.entries
    ensures Stands(Moved(l, m), slot, l.entries[slot]) || l.entries[slot].promise in Moved(l, m).outcomes
  {
    hide AgentGone;
    assert EntryBacked(l, slot);
    match m {
      case Lapse(t, o) => ExpireCloses(l, t, o);
      case Leave(agent, cached) => GoneEntry(l, agent, cached, slot);
      case _ =>
    }
  }

  lemma StepKeepsEntry(g: State, e: Event, slot: Slot, entry: Pending)
    requires WellFormed(g) && Enabled(g, e) && (Stands(g.ledger, slot, entry) || entry.promise in g.ledger.outcomes)
    ensures Stands(Next(g, e).ledger, slot, entry) || entry.promise in Next(g, e).ledger.outcomes
  {
    hide Next, MoveOf, Moved, Sound, Enabled, Fair;
    StepMoves(g, e);
    StepIsFair(g, e);
    if entry.promise in g.ledger.outcomes {
      MoveKeepsOutcome(g.ledger, MoveOf(g, e), entry.promise);
    } else {
      MoveKeepsEntry(g.ledger, MoveOf(g, e), slot);
    }
  }

  lemma {:induction false} RunKeepsEntry(g: State, events: seq<Event>, h: State, slot: Slot, entry: Pending)
    requires WellFormed(g) && Run(g, events, h) && (Stands(g.ledger, slot, entry) || entry.promise in g.ledger.outcomes)
    ensures WellFormed(h) && (Stands(h.ledger, slot, entry) || entry.promise in h.ledger.outcomes)
    decreases |events|
  {
    hide Next, WellFormed, Stands, Enabled;
    if events != [] {
      StepKeepsEntry(g, events[0], slot, entry);
      StepKeepsWellFormed(g, events[0]);
      RunKeepsEntry(Next(g, events[0]), events[1..], h, slot, entry);
    }
  }

  /** The slot of the promise that a call makes for a connected agent. */
  function AskedSlot(e: Event): Option<Slot> {
    match e
    case SendsCommand(_, _, _, _, _, r) => Some(ForCommand(r))
    case AsksInspect(_, _, _, r) => Some(ForInspect(r))
    case AsksList(agent, _) => Some(ForList(agent))
    case _ => None
  }

  lemma AskedEntry(g: State, e: Event)
    requires AskedSlot(e).Some? && Connected(g, e.agent).Some?
    ensures var l := Next(g, e).ledger;
      Stands(l, AskedSlot(e).value, Pending(e.agent, g.ledger.nextPromise, g.ledger.nextTimer))
  {
    hide RememberHost, Close;
    match e {
      case AsksList(agent, host) =>
        var k := Remembering(g, host, agent);
        CloseMakesNone(k.ledger, ForList(agent), Listing(CachedByUuid(k, agent)));
      case _ =>
    }
  }

  /** In every run: when the agent that was asked disconnects, the promise is settled; if nothing has settled it
      before, a list with what the cache holds, a command or an inspection with a rejection. */
  lemma DisconnectAnswers(before: seq<Event>, g: State, e: Event, after: seq<Event>, h: State, s: SocketId)
    requires e.SendsCommand? || e.AsksInspect? || e.AsksList?
    requires Run(INITIAL, before, g) && Connected(g, e.agent).Some? && Enabled(g, e)
    requires Run(Next(g, e), after, h) && s in h.clients && h.clients[s].agentUuid == e.agent && e.agent != ""
    ensures var p := g.ledger.nextPromise; var l := Next(h, Disconnects(s)).ledger;
      p in l.outcomes
      && (p !in h.ledger.outcomes ==>
            l.outcomes[p] == if e.AsksList? then Listing(CachedByUuid(h, e.agent)) else Rejected(Disconnected))
  {
    assert WellFormed(INITIAL);
    RunKeepsWellFormed(INITIAL, before, g);
    var slot, entry := AskedSlot(e).value, Pending(e.agent, g.ledger.nextPromise, g.ledger.nextTimer);
    hide Run, Enabled, WellFormed, Next, MoveOf;
    AskedEntry(g, e);
    StepKeepsWellFormed(g, e);
    RunKeepsEntry(Next(g, e), after, h, slot, entry);
    Leaving(h, s, slot, entry);
  }

  lemma Leaving(h: State, s: SocketId, slot: Slot, entry: Pending)
    requires WellFormed(h) && s in h.clients && h.clients[s].agentUuid == entry.agent != ""
    requires Stands(h.ledger, slot, entry) || entry.promise in h.ledger.outcomes
    ensures var l := Next(h, Disconnects(s)).ledger;
      entry.promise in l.outcomes
      && (entry.promise !in h.ledger.outcomes ==> l.outcomes[entry.promise] == Farewell(slot, CachedByUuid(h, entry.agent)))
  {
    hide AgentGone, Sound, Disconnect, ByUuid;
    var cached := CachedByUuid(h, entry.agent);
    DisconnectMoves(h, s);
    if entry.promise in h.ledger.outcomes {
      AgentGoneKeepsOutcome(h.ledger, entry.agent, cached, entry.promise);
    } else {
      GoneEntry(h.ledger, entry.agent, cached, slot);
    }
  }
}
