/** What holds in every run of the gateway, whatever the agents send and whenever timers fire and sockets
    come and go. */
module GatewayRuns {
  import opened Prelude
  import opened ContainerListed
  import opened Inventory
  import opened Protocol
  import opened Outstanding
  import opened Gateway

  ghost predicate SlotIssued(issued: map<string, Issue>, slot: Slot) {
    match slot
    case ForList(_) => true
    case ForCommand(request) => request in issued && issued[request].order.CommandOrder?
    case ForInspect(request) => request in issued && issued[request].order.InspectOrder?
  }

  /** Every request id in use was generated by the gateway. */
  ghost predicate RequestsIssued(g: State) {
    forall p :: p in g.ledger.promises ==> SlotIssued(g.issued, g.ledger.promises[p])
  }

  ghost predicate SubscribersIssued(g: State) {
    forall r :: r in g.subscribers ==> r in g.issued && g.issued[r].order.LogOrder?
  }

  ghost predicate WellFormed(g: State) {
    Sound(g.ledger) && RequestsIssued(g) && SubscribersIssued(g)
  }

  // ---------- what a step does to the ledger ----------

  datatype Move =
    | Stay
    | Supersede(agent: string, host: string, cached: seq<ContainerSummary>)
    | Begin(slot: Slot, agent: string, host: string)
    | Answer(slot: Slot, outcome: Outcome)
    | Lapse(timer: TimerId, outcome: Outcome)
    | Leave(agent: string, cached: seq<ContainerSummary>)

  function Moved(l: Ledger, m: Move): Ledger {
    match m
    case Stay => l
    case Supersede(agent, host, cached) => Open(Close(l, ForList(agent), Listing(cached)), ForList(agent), agent, host)
    case Begin(slot, agent, host) => Open(l, slot, agent, host)
    case Answer(slot, o) => Close(l, slot, o)
    case Lapse(t, o) => Expire(l, t, o)
    case Leave(agent, cached) => AgentGone(l, agent, cached)
  }

  function MoveOf(g: State, e: Event): Move {
    match e
    case Disconnects(s) =>
      if s in g.clients && g.clients[s].agentUuid != ""
      then Leave(g.clients[s].agentUuid, CachedByUuid(g, g.clients[s].agentUuid)) else Stay
    case Receives(s, Listed(listing)) =>
      if s in g.clients && g.clients[s].agentUuid != ""
      then Answer(ForList(g.clients[s].agentUuid), Listing(Kept(Items(listing)))) else Stay
    case Receives(_, Result(p)) =>
      if p.requestId != "" then Answer(ForCommand(p.requestId), Commanded(Normalised(p))) else Stay
    case Receives(_, Inspected(p)) =>
      if p.requestId != "" then Answer(ForInspect(p.requestId), Inspection(NormalisedInspection(p))) else Stay
    case AsksList(agent, host) =>
      if Connected(g, agent).Some? then Supersede(agent, host, CachedByUuid(Remembering(g, host, agent), agent)) else Stay
    case SendsCommand(agent, host, _, _, _, request) =>
      if Connected(g, agent).Some? then Begin(ForCommand(request), agent, host) else Stay
    case AsksInspect(agent, host, _, request) =>
      if Connected(g, agent).Some? then Begin(ForInspect(request), agent, host) else Stay
    case TimerFires(t) => if t in g.ledger.timers then Lapse(t, ExpiredOutcome(g, g.ledger.timers[t])) else Stay
    case _ => Stay
  }

  lemma DisconnectMoves(g: State, s: SocketId)
    ensures Disconnect(g, s).ledger == Moved(g.ledger, MoveOf(g, Disconnects(s)))
  {}

  lemma ReceiveMoves(g: State, s: SocketId, m: AgentMessage)
    ensures Receive(g, s, m).ledger == Moved(g.ledger, MoveOf(g, Receives(s, m)))
  {}

  lemma AskListMoves(g: State, agent: string, host: string)
    ensures AskList(g, agent, host).ledger == Moved(g.ledger, MoveOf(g, AsksList(agent, host)))
  {}

  lemma StepMoves(g: State, e: Event)
    ensures Next(g, e).ledger == Moved(g.ledger, MoveOf(g, e))
  {
    match e {
      case Disconnects(s) => DisconnectMoves(g, s);
      case Receives(s, m) => ReceiveMoves(g, s, m);
      case AsksList(agent, host) => AskListMoves(g, agent, host);
      case _ =>
    }
  }

  /** The moves the gateway makes: entries are opened in free slots and answered in kind. */
  ghost predicate Fair(l: Ledger, m: Move) {
    match m
    case Begin(slot, _, _) => !slot.ForList? && slot !in l.entries
    case Answer(slot, o) => Fits(slot, o)
    case Lapse(t, o) => t in l.timers && Fits(l.timers[t].slot, o)
    case _ => true
  }

  lemma MoveKeepsSound(l: Ledger, m: Move)
    requires Sound(l) && Fair(l, m)
    ensures Sound(Moved(l, m))
  {
    match m {
      case Stay =>
      case Supersede(agent, host, cached) =>
        CloseSound(l, ForList(agent), Listing(cached));
        OpenSound(Close(l, ForList(agent), Listing(cached)), ForList(agent), agent, host);
      case Begin(slot, agent, host) => OpenSound(l, slot, agent, host);
      case Answer(slot, o) => CloseSound(l, slot, o);
      case Lapse(t, o) =>
        ExpireCloses(l, t, o);
        CloseSound(l, l.timers[t].slot, o);
      case Leave(agent, cached) => AgentGoneSound(l, agent, cached);
    }
  }

  lemma AgentGoneSound(l: Ledger, agent: string, cached: seq<ContainerSummary>)
    requires Sound(l)
    ensures Sound(AgentGone(l, agent, cached))
  {
    var a := Close(l, ForList(agent), Listing(cached));
    var b := RejectAll(a, CommandSlots(a, agent));
    CloseSound(l, ForList(agent), Listing(cached));
    RejectAllSound(a, CommandSlots(a, agent));
    RejectAllSound(b, InspectSlots(b, agent));
  }

  /** What a promise was settled with never changes. */
  lemma MoveKeepsOutcome(l: Ledger, m: Move, p: PromiseId)
    requires Sound(l) && p in l.outcomes
    ensures p in Moved(l, m).outcomes && Moved(l, m).outcomes[p] == l.outcomes[p]
  {
    if m.Leave? {
      AgentGoneKeepsOutcome(l, m.agent, m.cached, p);
    }
  }

  lemma AgentGoneKeepsOutcome(l: Ledger, agent: string, cached: seq<ContainerSummary>, p: PromiseId)
    requires Sound(l) && p in l.outcomes
    ensures p in AgentGone(l, agent, cached).outcomes && AgentGone(l, agent, cached).outcomes[p] == l.outcomes[p]
  {
    var a := Close(l, ForList(agent), Listing(cached));
    var b := RejectAll(a, CommandSlots(a, agent));
    CloseSound(l, ForList(agent), Listing(cached));
    RejectAllSound(a, CommandSlots(a, agent));
    SettledStays(a, CommandSlots(a, agent), p);
    SettledStays(b, InspectSlots(b, agent), p);
  }

  lemma SettledStays(l: Ledger, slots: set<Slot>, p: PromiseId)
    requires Sound(l) && p in l.outcomes
    ensures p in RejectAll(l, slots).outcomes && RejectAll(l, slots).outcomes[p] == l.outcomes[p]
  {
    assert p in l.promises && Holds(l, p) ==> EntryBacked(l, l.promises[p]);
  }

  /** The slot of the promise a move makes. */
  function Made(m: Move): Option<Slot> {
    match m
    case Supersede(agent, _, _) => Some(ForList(agent))
    case Begin(slot, _, _) => Some(slot)
    case _ => None
  }

  lemma MovePromises(l: Ledger, m: Move)
    ensures Moved(l, m).promises == if Made(m).Some? then l.promises[l.nextPromise := Made(m).value] else l.promises
  {}

  // ---------- every step keeps the gateway well-formed ----------

  lemma NewSlotFree(g: State, slot: Slot)
    requires Sound(g.ledger) && RequestsIssued(g)
    requires !slot.ForList? && slot.request !in g.issued
    ensures slot !in g.ledger.entries
  {
    assert slot in g.ledger.entries ==> EntryBacked(g.ledger, slot);
  }

  lemma StepIsFair(g: State, e: Event)
    requires Sound(g.ledger) && RequestsIssued(g) && Enabled(g, e)
    ensures Fair(g.ledger, MoveOf(g, e))
  {
    match e {
      case SendsCommand(_, _, _, _, _, request) => NewSlotFree(g, ForCommand(request));
      case AsksInspect(_, _, _, request) => NewSlotFree(g, ForInspect(request));
      case _ =>
    }
  }

  /** Messages and disconnects generate no request ids and create no subscribers. */
  lemma ReceiveFrame(g: State, s: SocketId, m: AgentMessage)
    ensures Receive(g, s, m).issued == g.issued && Receive(g, s, m).subscribers == g.subscribers
  {}

  lemma DisconnectFrame(g: State, s: SocketId)
    ensures Disconnect(g, s).issued == g.issued
    ensures Disconnect(g, s).subscribers
      == if s in g.clients && g.clients[s].agentUuid != "" then SubscribersExcept(g.subscribers, g.clients[s].agentUuid)
         else g.subscribers
  {}

  lemma StepKeepsIssued(g: State, e: Event, r: string)
    requires Enabled(g, e) && r in g.issued
    ensures r in Next(g, e).issued && Next(g, e).issued[r] == g.issued[r]
  {
    match e {
      case Disconnects(s) => DisconnectFrame(g, s);
      case Receives(s, m) => ReceiveFrame(g, s, m);
      case _ =>
    }
  }

  lemma MadeIsIssued(g: State, e: Event)
    requires Enabled(g, e) && Made(MoveOf(g, e)).Some?
    ensures SlotIssued(Next(g, e).issued, Made(MoveOf(g, e)).value)
  {}

  lemma StepKeepsRequestsIssued(g: State, e: Event)
    requires RequestsIssued(g) && Enabled(g, e)
    ensures RequestsIssued(Next(g, e))
  {
    StepMoves(g, e);
    MovePromises(g.ledger, MoveOf(g, e));
    if Made(MoveOf(g, e)).Some? {
      MadeIsIssued(g, e);
    }
    forall r | r in g.issued ensures r in Next(g, e).issued && Next(g, e).issued[r] == g.issued[r] {
      StepKeepsIssued(g, e, r);
    }
  }

  /** A subscriber is kept, or was created under a request id just generated. */
  lemma SubscriberOrigin(g: State, e: Event, r: string)
    requires Enabled(g, e) && r in Next(g, e).subscribers
    ensures (r in g.subscribers && Next(g, e).subscribers[r] == g.subscribers[r])
      || (e.StartsLogs? && e.request == r && r !in g.issued && r in Next(g, e).issued && Next(g, e).issued[r].order.LogOrder?)
  {
    match e {
      case Disconnects(s) => DisconnectFrame(g, s);
      case Receives(s, m) => ReceiveFrame(g, s, m);
      case _ =>
    }
  }

  lemma StepKeepsSubscribersIssued(g: State, e: Event)
    requires SubscribersIssued(g) && Enabled(g, e)
    ensures SubscribersIssued(Next(g, e))
  {
    var h := Next(g, e);
    forall r | r in h.subscribers ensures r in h.issued && h.issued[r].order.LogOrder? {
      SubscriberOrigin(g, e, r);
      if r in g.subscribers {
        StepKeepsIssued(g, e, r);
      }
    }
  }

  lemma StepKeepsWellFormed(g: State, e: Event)
    requires WellFormed(g) && Enabled(g, e)
    ensures WellFormed(Next(g, e))
  {
    StepIsFair(g, e);
    StepMoves(g, e);
    MoveKeepsSound(g.ledger, MoveOf(g, e));
    StepKeepsRequestsIssued(g, e);
    StepKeepsSubscribersIssued(g, e);
  }

  lemma {:induction false} RunKeepsWellFormed(g: State, events: seq<Event>, h: State)
    requires WellFormed(g) && Run(g, events, h)
    ensures WellFormed(h)
    decreases |events|
  {
    if events != [] {
      StepKeepsWellFormed(g, events[0]);
      RunKeepsWellFormed(Next(g, events[0]), events[1..], h);
    }
  }

  // ---------- settlement ----------

  /** In every run: the pending entries are exactly the unsettled promises and exactly the armed timers; no
      promise has been settled twice; list promises are only ever resolved, commands and inspections only
      with a result for their own request id; and once no timer is armed nothing is pending. */
  lemma SettlementExact(events: seq<Event>, g: State)
    requires Run(INITIAL, events, g)
    ensures PromisesOf(g.ledger, g.ledger.entries.Keys) == Unsettled(g.ledger)
    ensures TimersOf(g.ledger, g.ledger.entries.Keys) == g.ledger.timers.Keys
    ensures |g.ledger.entries| == |g.ledger.timers| == |Unsettled(g.ledger)|
    ensures g.ledger.resettled == 0
    ensures forall p :: p in g.ledger.outcomes ==> p in g.ledger.promises && Fits(g.ledger.promises[p], g.ledger.outcomes[p])
    ensures g.ledger.timers == map[] ==> Unsettled(g.ledger) == {}
  {
    RunKeepsWellFormed(INITIAL, events, g);
    var l := g.ledger;
    PromisesMatch(l);
    TimersMatch(l);
    TablesMatch(l);
    forall p | p in l.outcomes ensures p in l.promises && Fits(l.promises[p], l.outcomes[p]) {
      assert PromiseBacked(l, p);
    }
  }

  /** Along every run a settled promise keeps its outcome. */
  lemma {:induction false} OutcomesLast(g: State, events: seq<Event>, h: State, p: PromiseId)
    requires WellFormed(g) && Run(g, events, h) && p in g.ledger.outcomes
    ensures p in h.ledger.outcomes && h.ledger.outcomes[p] == g.ledger.outcomes[p]
    decreases |events|
  {
    if events != [] {
      StepMoves(g, events[0]);
      MoveKeepsOutcome(g.ledger, MoveOf(g, events[0]), p);
      StepKeepsWellFormed(g, events[0]);
      OutcomesLast(Next(g, events[0]), events[1..], h, p);
    }
  }

  // ---------- disconnects ----------

  /** What an agent's entry is settled with when it goes. */
  function Farewell(slot: Slot, cached: seq<ContainerSummary>): Outcome {
    if slot.ForList? then Listing(cached) else Rejected(Disconnected)
  }

  /** Where one of the three passes leaves an entry. */
  ghost predicate Stands(l: Ledger, slot: Slot, e: Pending) { slot in l.entries && l.entries[slot] == e }

  ghost predicate Gone(l: Ledger, slot: Slot, e: Pending, o: Outcome) {
    slot !in l.entries && e.timer !in l.timers && e.promise in l.outcomes && l.outcomes[e.promise] == o
  }

  lemma ClosedEntry(l: Ledger, agent: string, cached: seq<ContainerSummary>, slot: Slot, e: Pending)
    requires Sound(l) && Stands(l, slot, e)
    ensures var q := Close(l, ForList(agent), Listing(cached));
      if slot == ForList(agent) then Gone(q, slot, e, Listing(cached)) else Stands(q, slot, e)
  {
    assert EntryBacked(l, slot);
  }

  lemma RejectedEntry(l: Ledger, slots: set<Slot>, slot: Slot, e: Pending)
    requires Sound(l) && Stands(l, slot, e)
    ensures var q := RejectAll(l, slots);
      if slot in slots then Gone(q, slot, e, Rejected(Disconnected)) else Stands(q, slot, e)
  {
    assert EntryBacked(l, slot);
    assert slot in slots ==> l.entries[slot].timer in TimersOf(l, slots);
  }

  lemma GoneStays(l: Ledger, slots: set<Slot>, slot: Slot, e: Pending, o: Outcome)
    requires Sound(l) && Gone(l, slot, e, o)
    ensures Gone(RejectAll(l, slots), slot, e, o)
  {
    SettledStays(l, slots, e.promise);
  }

  /** The agent's entry is settled, and its timer cleared; any other stays as it is. */
  lemma GoneEntry(l: Ledger, agent: string, cached: seq<ContainerSummary>, slot: Slot)
    requires Sound(l) && slot in l.entries
    ensures if l.entries[slot].agent == agent
      then Gone(AgentGone(l, agent, cached), slot, l.entries[slot], Farewell(slot, cached))
      else Stands(AgentGone(l, agent, cached), slot, l.entries[slot])
  {
    var e := l.entries[slot];
    var a := Close(l, ForList(agent), Listing(cached));
    var b := RejectAll(a, CommandSlots(a, agent));
    assert EntryBacked(l, slot);
    CloseSound(l, ForList(agent), Listing(cached));
    RejectAllSound(a, CommandSlots(a, agent));
    ClosedEntry(l, agent, cached, slot, e);
    if Stands(a, slot, e) {
      StandingEntry(a, b, agent, slot, e);
    } else {
      GoneStays(a, CommandSlots(a, agent), slot, e, Listing(cached));
      GoneStays(b, InspectSlots(b, agent), slot, e, Listing(cached));
    }
  }

  lemma StandingEntry(a: Ledger, b: Ledger, agent: string, slot: Slot, e: Pending)
    requires Sound(a) && Sound(b) && b == RejectAll(a, CommandSlots(a, agent)) && Stands(a, slot, e)
    ensures var q := RejectAll(b, InspectSlots(b, agent));
      if e.agent == agent && !slot.ForList? then Gone(q, slot, e, Rejected(Disconnected)) else Stands(q, slot, e)
  {
    RejectedEntry(a, CommandSlots(a, agent), slot, e);
    if Stands(b, slot, e) {
      RejectedEntry(b, InspectSlots(b, agent), slot, e);
    } else {
      GoneStays(b, InspectSlots(b, agent), slot, e, Rejected(Disconnected));
    }
  }

  /** Only the agent's own promises are settled by its going. */
  lemma GoneSettlesOwn(l: Ledger, agent: string, cached: seq<ContainerSummary>, p: PromiseId)
    requires Sound(l) && p in AgentGone(l, agent, cached).outcomes && p !in l.outcomes
    ensures Holds(l, p) && l.entries[l.promises[p]].agent == agent
  {
    var a := Close(l, ForList(agent), Listing(cached));
    var b := RejectAll(a, CommandSlots(a, agent));
    CloseSound(l, ForList(agent), Listing(cached));
    if ForList(agent) in l.entries {
      assert EntryBacked(l, ForList(agent));
    }
    assert p in a.outcomes || Holds(a, p);
  }

  /** The agent's entries, in all three tables. */
  function OwnSlots(l: Ledger, agent: string): set<Slot> {
    set slot | slot in l.entries && l.entries[slot].agent == agent
  }

  lemma TimersOnlyCleared(l: Ledger, agent: string, cached: seq<ContainerSummary>)
    ensures forall t :: t in AgentGone(l, agent, cached).timers ==>
      t in l.timers && AgentGone(l, agent, cached).timers[t] == l.timers[t]
  {
    hide TimersOf, Rejections;
  }

  lemma OwnTimer(l: Ledger, agent: string, t: TimerId)
    requires Sound(l) && t in l.timers
    ensures l.timers[t].slot in l.entries && l.entries[l.timers[t].slot].timer == t
    ensures t in TimersOf(l, OwnSlots(l, agent)) <==> l.entries[l.timers[t].slot].agent == agent
  {
    var slot := l.timers[t].slot;
    assert TimerBacked(l, t);
    if l.entries[slot].agent == agent {
      assert slot in OwnSlots(l, agent);
    } else {
      SurvivorKeepsTimer(l, OwnSlots(l, agent), slot);
    }
  }

  lemma GoneTimer(l: Ledger, agent: string, cached: seq<ContainerSummary>, t: TimerId)
    requires Sound(l) && t in l.timers
    ensures t in AgentGone(l, agent, cached).timers <==> t !in TimersOf(l, OwnSlots(l, agent))
  {
    hide AgentGone, TimersOf, OwnSlots;
    AgentGoneSound(l, agent, cached);
    OwnTimer(l, agent, t);
    GoneEntry(l, agent, cached, l.timers[t].slot);
    if l.entries[l.timers[t].slot].agent != agent {
      assert EntryBacked(AgentGone(l, agent, cached), l.timers[t].slot);
    }
  }

  /** The timers cleared by an agent's going are exactly those of its entries. */
  lemma GoneTimers(l: Ledger, agent: string, cached: seq<ContainerSummary>)
    requires Sound(l)
    ensures AgentGone(l, agent, cached).timers == l.timers - TimersOf(l, OwnSlots(l, agent))
  {
    hide AgentGone, TimersOf, OwnSlots, Sound;
    var q := AgentGone(l, agent, cached);
    TimersOnlyCleared(l, agent, cached);
    forall t | t in l.timers ensures t in q.timers <==> t !in TimersOf(l, OwnSlots(l, agent)) {
      GoneTimer(l, agent, cached, t);
    }
  }

  /** A disconnect settles every pending promise of the socket's agent and clears its timer: its list is
      answered from the cache, its commands and inspections are rejected. No other entry, timer or promise
      is touched. Its log subscribers are dropped, and no others. */
  lemma DisconnectExact(g: State, s: SocketId, agent: string)
    requires WellFormed(g) && s in g.clients && agent == g.clients[s].agentUuid && agent != ""
    ensures var h := Disconnect(g, s);
      && (forall slot :: slot in g.ledger.entries ==>
            if g.ledger.entries[slot].agent == agent
            then Gone(h.ledger, slot, g.ledger.entries[slot], Farewell(slot, CachedByUuid(g, agent)))
            else Stands(h.ledger, slot, g.ledger.entries[slot]))
      && (forall p :: p in h.ledger.outcomes && p !in g.ledger.outcomes ==>
            Holds(g.ledger, p) && g.ledger.entries[g.ledger.promises[p]].agent == agent)
      && (forall p :: p in g.ledger.outcomes ==> p in h.ledger.outcomes && h.ledger.outcomes[p] == g.ledger.outcomes[p])
      && h.ledger.entries.Keys <= g.ledger.entries.Keys
      && h.ledger.timers == g.ledger.timers - TimersOf(g.ledger, OwnSlots(g.ledger, agent))
      && (forall r :: r in h.subscribers <==> r in g.subscribers && g.subscribers[r].agent != agent)
      && (forall r :: r in h.subscribers ==> h.subscribers[r] == g.subscribers[r])
      && h.sockets == g.sockets - {agent} && s in h.clients && !h.clients[s].open
  {
    var l, cached := g.ledger, CachedByUuid(g, agent);
    DisconnectMoves(g, s);
    DisconnectFrame(g, s);
    forall slot | slot in l.entries
      ensures if l.entries[slot].agent == agent
        then Gone(AgentGone(l, agent, cached), slot, l.entries[slot], Farewell(slot, cached))
        else Stands(AgentGone(l, agent, cached), slot, l.entries[slot])
    {
      GoneEntry(l, agent, cached, slot);
    }
    forall p | p in AgentGone(l, agent, cached).outcomes && p !in l.outcomes
      ensures Holds(l, p) && l.entries[l.promises[p]].agent == agent
    {
      GoneSettlesOwn(l, agent, cached, p);
    }
    GoneTimers(l, agent, cached);
    forall p | p in l.outcomes
      ensures p in AgentGone(l, agent, cached).outcomes && AgentGone(l, agent, cached).outcomes[p] == l.outcomes[p]
    {
      AgentGoneKeepsOutcome(l, agent, cached, p);
    }
  }

  // ---------- timers and supersession ----------

  /** A timer that fires deletes the entry it was armed for and settles that entry's promise: a list with
      the host's cache, anything else with a timeout. */
  lemma TimerFiresOwn(g: State, t: TimerId)
    requires WellFormed(g) && t in g.ledger.timers
    ensures var own, l, h := g.ledger.timers[t], g.ledger, Fire(g, t).ledger;
      && own.slot in l.entries && l.entries[own.slot].timer == t && l.entries[own.slot].promise == own.promise
      && own.promise !in l.outcomes
      && h.entries == l.entries - {own.slot} && h.timers == l.timers - {t}
      && h.outcomes == l.outcomes[own.promise := if own.slot.ForList? then Listing(CachedByHost(g, own.host)) else Rejected(TimedOut)]
  {
    ExpireCloses(g.ledger, t, ExpiredOutcome(g, g.ledger.timers[t]));
    assert EntryBacked(g.ledger, g.ledger.timers[t].slot);
  }

  /** Asking a connected agent for its list while one is pending answers the pending one from the cache and
      clears its timer first, so the agent's entry is the new promise's, with the new timer. */
  lemma ListSuperseded(g: State, agent: string, host: string)
    requires WellFormed(g) && Connected(g, agent).Some?
    ensures var l, h := g.ledger, AskList(g, agent, host).ledger;
      && Stands(h, ForList(agent), Pending(agent, l.nextPromise, l.nextTimer))
      && l.nextPromise !in h.outcomes && l.nextTimer !in l.timers
      && (ForList(agent) in l.entries ==>
            var previous := l.entries[ForList(agent)];
            && previous.promise in h.outcomes && previous.timer !in h.timers
            && h.outcomes[previous.promise] == Listing(CachedByUuid(Remembering(g, host, agent), agent)))
  {
    var l, cached := g.ledger, CachedByUuid(Remembering(g, host, agent), agent);
    AskListMoves(g, agent, host);
    CloseSound(l, ForList(agent), Listing(cached));
    assert l.nextTimer in l.timers ==> TimerBacked(l, l.nextTimer);
    assert l.nextPromise in l.promises ==> PromiseBacked(l, l.nextPromise);
    if ForList(agent) in l.entries {
      assert EntryBacked(l, ForList(agent));
      assert TimerBacked(l, l.entries[ForList(agent)].timer);
    }
  }

  // ---------- progress ----------

  lemma Remaining<T>(all: set<T>, before: set<T>, after: set<T>)
    requires before <= after <= all
    ensures |all - after| == |all - before| - |after - before|
  {
    assert all - before == (all - after) + (after - before);
  }

  /** Without a new promise the unsettled ones only become fewer, by one for each newly settled. */
  lemma MoveShrinks(l: Ledger, m: Move)
    requires Sound(l) && Fair(l, m) && Made(m).None?
    ensures var h := Moved(l, m);
      Unsettled(h) <= Unsettled(l) && |Unsettled(h)| == |Unsettled(l)| - |h.outcomes.Keys - l.outcomes.Keys|
  {
    var h := Moved(l, m);
    MovePromises(l, m);
    MoveKeepsSound(l, m);
    forall p | p in l.outcomes ensures p in h.outcomes {
      MoveKeepsOutcome(l, m, p);
    }
    Remaining(l.promises.Keys, l.outcomes.Keys, h.outcomes.Keys);
  }

  lemma SettlingShrinks(g: State, e: Event)
    requires WellFormed(g) && Enabled(g, e) && Made(MoveOf(g, e)).None?
    ensures var l, h := g.ledger, Next(g, e).ledger;
      Unsettled(h) <= Unsettled(l) && |Unsettled(h)| == |Unsettled(l)| - |h.outcomes.Keys - l.outcomes.Keys|
  {
    StepMoves(g, e);
    StepIsFair(g, e);
    MoveShrinks(g.ledger, MoveOf(g, e));
  }

  /** A timer that fires leaves one entry, one timer and one unsettled promise fewer. */
  lemma FiringSettlesOne(g: State, t: TimerId)
    requires WellFormed(g) && t in g.ledger.timers
    ensures WellFormed(Fire(g, t)) && |Fire(g, t).ledger.timers| == |g.ledger.timers| - 1
  {
    TimerFiresOwn(g, t);
    StepKeepsWellFormed(g, TimerFires(t));
    assert (g.ledger.timers - {t}).Keys == g.ledger.timers.Keys - {t};
    assert |g.ledger.timers| == |g.ledger.timers.Keys|;
    assert |g.ledger.timers - {t}| == |(g.ledger.timers - {t}).Keys|;
  }

  /** A run in which armed timers fire one after another, with nothing else in between. */
  ghost predicate TimersFire(g: State, timers: seq<TimerId>, h: State)
    decreases |timers|
  {
    if timers == [] then g == h
    else Enabled(g, TimerFires(timers[0])) && TimersFire(Next(g, TimerFires(timers[0])), timers[1..], h)
  }

  lemma {:induction false} TimersRunOut(g: State, timers: seq<TimerId>, h: State)
    requires WellFormed(g) && TimersFire(g, timers, h)
    ensures WellFormed(h) && |h.ledger.timers| == |g.ledger.timers| - |timers|
    decreases |timers|
  {
    if timers != [] {
      FiringSettlesOne(g, timers[0]);
      TimersRunOut(Fire(g, timers[0]), timers[1..], h);
    }
  }

  /** Each settles one promise: when all that were armed have fired nothing is pending. */
  lemma TimersDrain(g: State, timers: seq<TimerId>, h: State)
    requires WellFormed(g) && TimersFire(g, timers, h)
    ensures |Unsettled(h.ledger)| == |Unsettled(g.ledger)| - |timers|
    ensures |timers| == |g.ledger.timers| ==> Unsettled(h.ledger) == {}
  {
    TimersRunOut(g, timers, h);
    TablesMatch(g.ledger);
    TablesMatch(h.ledger);
  }

  // ---------- log subscribers ----------

  /** What an event adds to what a request's subscriber has seen. */
  function Delivery(g: State, e: Event, r: string): seq<Seen> {
    if e.Receives? && e.message.Chunk? && e.message.chunk.requestId == r && r != "" && r in g.subscribers
    then [Seen(e.message.chunk.containerId, if e.message.chunk.entries.Some? then e.message.chunk.entries.value else [])]
    else []
  }

  lemma ReceiveObserves(g: State, s: SocketId, m: AgentMessage, r: string)
    ensures Observed(Receive(g, s, m), r) == Observed(g, r) + Delivery(g, Receives(s, m), r)
  {
    hide SetContainers, Close, RegisteredEnvelope, Kept, Normalised, NormalisedInspection;
    assert Observed(g, r) + [] == Observed(g, r);
  }

  lemma OthersObserveNothing(g: State, e: Event)
    requires !e.Receives?
    ensures Next(g, e).observed == g.observed
  {
    hide RememberHost, AgentGone, Close, Open, Expire, CommandEnvelope, InspectEnvelope, SubscribeEnvelope,
         UnsubscribeEnvelope, RegisteredEnvelope, ListEnvelope, SubscribersExcept;
  }

  /** A subscriber sees the chunks that arrive for its own request while it is subscribed, and no others. */
  lemma StepObserves(g: State, e: Event, r: string)
    ensures Observed(Next(g, e), r) == Observed(g, r) + Delivery(g, e, r)
  {
    if e.Receives? {
      hide Receive, Delivery, Observed;
      ReceiveObserves(g, e.socket, e.message, r);
    } else {
      hide Next;
      OthersObserveNothing(g, e);
      assert Observed(g, r) + [] == Observed(g, r);
    }
  }

  lemma {:induction false} SilentForEver(g: State, events: seq<Event>, h: State, r: string)
    requires Run(g, events, h) && r in g.issued && r !in g.subscribers
    ensures r !in h.subscribers && Observed(h, r) == Observed(g, r)
    decreases |events|
  {
    if events != [] {
      StepObserves(g, events[0], r);
      StepKeepsIssued(g, events[0], r);
      if r in Next(g, events[0]).subscribers {
        SubscriberOrigin(g, events[0], r);
      }
      SilentForEver(Next(g, events[0]), events[1..], h, r);
    }
  }

  /** Nothing reaches a subscriber after stopLogStream... */
  lemma NothingAfterStop(g: State, r: string, later: seq<Event>, h: State)
    requires r in g.issued && Run(StopLogs(g, r), later, h)
    ensures Observed(h, r) == Observed(g, r)
  {
    hide Run, UnsubscribeEnvelope;
    SilentForEver(StopLogs(g, r), later, h, r);
  }

  lemma ObservedKept(g: State, s: SocketId)
    ensures Disconnect(g, s).observed == g.observed
  {
    hide AgentGone, SubscribersExcept;
  }

  /** ...nor after the disconnect of its agent. */
  lemma NothingAfterDisconnect(g: State, s: SocketId, r: string, later: seq<Event>, h: State)
    requires WellFormed(g) && r in g.subscribers && s in g.clients
    requires g.clients[s].agentUuid == g.subscribers[r].agent != ""
    requires Run(Disconnect(g, s), later, h)
    ensures Observed(h, r) == Observed(g, r)
  {
    ObservedKept(g, s);
    hide Run, Disconnect;
    DisconnectFrame(g, s);
    SilentForEver(Disconnect(g, s), later, h, r);
  }
}
