/** The gateway object itself: its maps, updated in place by its methods, each method tied to a step of the
    state machine in Gateway.dfy. */
module AgentsGateway {
  import opened Prelude
  import opened ContainerListed
  import opened Inventory
  import opened Protocol
  import opened Outstanding
  import opened Gateway

  datatype PendingList = PendingList(promise: PromiseId, timer: TimerId)

  datatype PendingRequest = PendingRequest(agentUuid: string, promise: PromiseId, timer: TimerId)

  /** An async method's answer: already settled, or a promise. */
  datatype Reply = Settled(outcome: Outcome) | Later(promise: PromiseId)

  function EntryOf(p: PendingRequest): Pending { Pending(p.agentUuid, p.promise, p.timer) }

  /** One table holds what three do. */
  ghost predicate SameEntries(entries: map<Slot, Pending>, lists: map<string, PendingList>,
                          commands: map<string, PendingRequest>, inspects: map<string, PendingRequest>)
  {
    && (forall a :: ForList(a) in entries <==> a in lists)
    && (forall a :: a in lists ==> entries[ForList(a)] == Pending(a, lists[a].promise, lists[a].timer))
    && (forall r :: ForCommand(r) in entries <==> r in commands)
    && (forall r :: r in commands ==> entries[ForCommand(r)] == EntryOf(commands[r]))
    && (forall r :: ForInspect(r) in entries <==> r in inspects)
    && (forall r :: r in inspects ==> entries[ForInspect(r)] == EntryOf(inspects[r]))
  }

  lemma SlotKinds(l: Ledger, agent: string)
    ensures forall slot :: slot in CommandSlots(l, agent) || slot in InspectSlots(l, agent) ==> !slot.ForList?
  {}

  /** An agent's entries for commands and for inspections, as the maps have them. */
  lemma OwnRequests(l: Ledger, lists: map<string, PendingList>, commands: map<string, PendingRequest>,
                    inspects: map<string, PendingRequest>, agent: string)
    requires SameEntries(l.entries, lists, commands, inspects)
    ensures forall r :: r in commands ==> (commands[r].agentUuid == agent <==> ForCommand(r) in CommandSlots(l, agent))
    ensures forall slot :: slot in CommandSlots(l, agent) ==> slot.ForCommand? && slot.request in commands
    ensures forall r :: r in inspects ==> (inspects[r].agentUuid == agent <==> ForInspect(r) in InspectSlots(l, agent))
    ensures forall slot :: slot in InspectSlots(l, agent) ==> slot.ForInspect? && slot.request in inspects
  {}

  class AgentsGateway {
    var socketsByUuid: map<string, SocketId>
    var pendingLists: map<string, PendingList>
    var pendingCommands: map<string, PendingRequest>
    var pendingInspects: map<string, PendingRequest>
    var logSubscribers: map<string, Subscriber>
    const inventory: ContainerInventoryService

    // What the sockets, the timers and the promises are doing.
    var clients: map<SocketId, Client>
    var timers: map<TimerId, Timeout>
    var nextTimer: TimerId
    var promises: map<PromiseId, Slot>
    var nextPromise: PromiseId
    var outcomes: map<PromiseId, Outcome>
    var resettled: nat
    var observed: map<string, seq<Seen>>
    var issued: map<string, Issue>

    /** The three pending tables as one. */
    ghost var entries: map<Slot, Pending>

    ghost predicate Valid()
      reads this`entries, this`pendingLists, this`pendingCommands, this`pendingInspects
    {
      SameEntries(entries, pendingLists, pendingCommands, pendingInspects)
    }

    ghost function LedgerView(): Ledger reads this {
      Ledger(entries, timers, nextTimer, promises, nextPromise, outcomes, resettled)
    }

    ghost function View(): State reads this, inventory {
      State(socketsByUuid, clients, LedgerView(), logSubscribers, observed, inventory.State(), issued)
    }

    constructor ()
      ensures Valid() && View() == INITIAL && fresh(inventory)
    {
      socketsByUuid, pendingLists, pendingCommands, pendingInspects, logSubscribers := map[], map[], map[], map[], map[];
      clients, timers, nextTimer, promises, nextPromise, outcomes, resettled := map[], map[], 0, map[], 0, map[], 0;
      observed, issued, entries := map[], map[], map[];
      inventory := new ContainerInventoryService();
    }

    // ---------- promises, timers and sockets ----------

    method SettlePromise(p: PromiseId, o: Outcome)
      modifies this`outcomes, this`resettled
      ensures LedgerView() == Settle(old(LedgerView()), p, o)
    {
      if p in outcomes {
        resettled := resettled + 1;
      } else {
        outcomes := outcomes[p := o];
      }
    }

    method NewPromise(slot: Slot) returns (p: PromiseId)
      modifies this`promises, this`nextPromise
      ensures p == old(nextPromise) && nextPromise == p + 1 && promises == old(promises)[p := slot]
    {
      p := nextPromise;
      promises := promises[p := slot];
      nextPromise := nextPromise + 1;
    }

    method SetTimeout(slot: Slot, p: PromiseId, host: string) returns (t: TimerId)
      modifies this`timers, this`nextTimer
      ensures t == old(nextTimer) && nextTimer == t + 1 && timers == old(timers)[t := Timeout(slot, p, host)]
    {
      t := nextTimer;
      timers := timers[t := Timeout(slot, p, host)];
      nextTimer := nextTimer + 1;
    }

    method ClearTimeout(t: TimerId)
      modifies this`timers
      ensures timers == old(timers) - {t}
    {
      timers := timers - {t};
    }

    method Send(s: SocketId, e: Envelope)
      modifies this`clients
      ensures View() == Post(old(View()), s, e)
    {
      if s in clients && clients[s].open {
        clients := clients[s := clients[s].(sent := clients[s].sent + [e])];
      }
    }

    /** Generate a request id's envelope and send it. */
    method SendOrder(s: SocketId, request: string, order: Order, e: Envelope)
      modifies this`clients, this`issued
      ensures View() == Issuing(old(View()), s, request, order, e)
    {
      if s in clients {
        issued := issued[request := Issue(s, |clients[s].sent|, order)];
        Send(s, e);
      }
    }

    method FindClient(agentUuid: string) returns (client: Option<SocketId>)
      ensures client == Connected(View(), agentUuid)
    {
      if agentUuid !in socketsByUuid || socketsByUuid[agentUuid] !in clients || !clients[socketsByUuid[agentUuid]].open {
        return None;
      }
      client := Some(socketsByUuid[agentUuid]);
    }

    // ---------- requests ----------

    method DropList(agentUuid: string)
      requires Valid()
      modifies this`pendingLists, this`entries
      ensures Valid() && pendingLists == old(pendingLists) - {agentUuid} && entries == old(entries) - {ForList(agentUuid)}
    {
      pendingLists := pendingLists - {agentUuid};
      entries := entries - {ForList(agentUuid)};
    }

    method DropCommand(requestId: string)
      requires Valid()
      modifies this`pendingCommands, this`entries
      ensures Valid() && pendingCommands == old(pendingCommands) - {requestId} && entries == old(entries) - {ForCommand(requestId)}
    {
      pendingCommands := pendingCommands - {requestId};
      entries := entries - {ForCommand(requestId)};
    }

    method DropInspect(requestId: string)
      requires Valid()
      modifies this`pendingInspects, this`entries
      ensures Valid() && pendingInspects == old(pendingInspects) - {requestId} && entries == old(entries) - {ForInspect(requestId)}
    {
      pendingInspects := pendingInspects - {requestId};
      entries := entries - {ForInspect(requestId)};
    }

    method PutList(agentUuid: string, pending: PendingList)
      requires Valid()
      modifies this`pendingLists, this`entries
      ensures Valid() && pendingLists == old(pendingLists)[agentUuid := pending]
      ensures entries == old(entries)[ForList(agentUuid) := Pending(agentUuid, pending.promise, pending.timer)]
    {
      pendingLists := pendingLists[agentUuid := pending];
      entries := entries[ForList(agentUuid) := Pending(agentUuid, pending.promise, pending.timer)];
    }

    method PutCommand(requestId: string, pending: PendingRequest)
      requires Valid()
      modifies this`pendingCommands, this`entries
      ensures Valid() && pendingCommands == old(pendingCommands)[requestId := pending]
      ensures entries == old(entries)[ForCommand(requestId) := EntryOf(pending)]
    {
      pendingCommands := pendingCommands[requestId := pending];
      entries := entries[ForCommand(requestId) := EntryOf(pending)];
    }

    method PutInspect(requestId: string, pending: PendingRequest)
      requires Valid()
      modifies this`pendingInspects, this`entries
      ensures Valid() && pendingInspects == old(pendingInspects)[requestId := pending]
      ensures entries == old(entries)[ForInspect(requestId) := EntryOf(pending)]
    {
      pendingInspects := pendingInspects[requestId := pending];
      entries := entries[ForInspect(requestId) := EntryOf(pending)];
    }

    method AnswerPendingList(agentUuid: string, containers: seq<ContainerSummary>)
      requires Valid()
      modifies this`pendingLists, this`entries, this`timers, this`outcomes, this`resettled
      ensures Valid() && LedgerView() == Close(old(LedgerView()), ForList(agentUuid), Listing(containers))
    {
      if agentUuid in pendingLists {
        var pending := pendingLists[agentUuid];
        ClearTimeout(pending.timer);
        DropList(agentUuid);
        SettlePromise(pending.promise, Listing(containers));
      }
    }

    method OpenList(agentUuid: string, hostId: string) returns (promise: PromiseId)
      requires Valid()
      modifies this`pendingLists, this`entries, this`timers, this`nextTimer, this`promises, this`nextPromise
      ensures Valid() && LedgerView() == Open(old(LedgerView()), ForList(agentUuid), agentUuid, hostId)
      ensures promise == old(nextPromise)
    {
      hide SameEntries;
      promise := NewPromise(ForList(agentUuid));
      var timer := SetTimeout(ForList(agentUuid), promise, hostId);
      PutList(agentUuid, PendingList(promise, timer));
    }

    method OpenCommand(agentUuid: string, hostId: string, requestId: string) returns (promise: PromiseId)
      requires Valid()
      modifies this`pendingCommands, this`entries, this`timers, this`nextTimer, this`promises, this`nextPromise
      ensures Valid() && LedgerView() == Open(old(LedgerView()), ForCommand(requestId), agentUuid, hostId)
      ensures promise == old(nextPromise)
    {
      hide SameEntries;
      promise := NewPromise(ForCommand(requestId));
      var timer := SetTimeout(ForCommand(requestId), promise, hostId);
      PutCommand(requestId, PendingRequest(agentUuid, promise, timer));
    }

    method SettleCommand(requestId: string, outcome: Outcome)
      requires Valid() && requestId in pendingCommands
      modifies this`pendingCommands, this`entries, this`timers, this`outcomes, this`resettled
      ensures Valid() && LedgerView() == Close(old(LedgerView()), ForCommand(requestId), outcome)
      ensures pendingCommands == old(pendingCommands) - {requestId}
    {
      var pending := pendingCommands[requestId];
      ClearTimeout(pending.timer);
      DropCommand(requestId);
      SettlePromise(pending.promise, outcome);
    }

    method OpenInspect(agentUuid: string, hostId: string, requestId: string) returns (promise: PromiseId)
      requires Valid()
      modifies this`pendingInspects, this`entries, this`timers, this`nextTimer, this`promises, this`nextPromise
      ensures Valid() && LedgerView() == Open(old(LedgerView()), ForInspect(requestId), agentUuid, hostId)
      ensures promise == old(nextPromise)
    {
      hide SameEntries;
      promise := NewPromise(ForInspect(requestId));
      var timer := SetTimeout(ForInspect(requestId), promise, hostId);
      PutInspect(requestId, PendingRequest(agentUuid, promise, timer));
    }

    method SettleInspect(requestId: string, outcome: Outcome)
      requires Valid() && requestId in pendingInspects
      modifies this`pendingInspects, this`entries, this`timers, this`outcomes, this`resettled
      ensures Valid() && LedgerView() == Close(old(LedgerView()), ForInspect(requestId), outcome)
      ensures pendingInspects == old(pendingInspects) - {requestId}
    {
      var pending := pendingInspects[requestId];
      ClearTimeout(pending.timer);
      DropInspect(requestId);
      SettlePromise(pending.promise, outcome);
    }

    /** Answer the pending list from the cache and open a new one. */
    method SupersedeList(agentUuid: string, hostId: string) returns (promise: PromiseId)
      requires Valid()
      modifies this`pendingLists, this`entries, this`timers, this`nextTimer, this`promises, this`nextPromise, this`outcomes,
        this`resettled
      ensures Valid() && promise == old(nextPromise)
      ensures LedgerView() == Open(Close(old(LedgerView()), ForList(agentUuid), Listing(CachedByUuid(old(View()), agentUuid))),
                                   ForList(agentUuid), agentUuid, hostId)
    {
      hide SameEntries, Close, Open;
      var cached := inventory.GetByUuid(agentUuid);
      AnswerPendingList(agentUuid, Containers(cached));
      promise := OpenList(agentUuid, hostId);
    }

    method RequestContainerList(agentUuid: string, hostId: string) returns (reply: Reply)
      requires Valid()
      modifies this, inventory
      ensures Valid() && View() == AskList(old(View()), agentUuid, hostId)
      ensures reply == if Connected(old(View()), agentUuid).Some? then Later(old(nextPromise))
                       else Settled(Listing(CachedByHost(View(), hostId)))
    {
      hide SameEntries, Close, Open, RememberHost, ListEnvelope, ByUuid, Post;
      inventory.Remember(hostId, agentUuid);
      var client := FindClient(agentUuid);
      if client.None? {
        var cached := inventory.GetByHostId(hostId);
        return Settled(Listing(Containers(cached)));
      }
      var promise := SupersedeList(agentUuid, hostId);
      Send(client.value, ListEnvelope());
      return Later(promise);
    }

    /** `requestId`: what randomUUID returns. */
    method SendContainerCommand(agentUuid: string, hostId: string, action: Action, containerId: string, force: bool,
                                requestId: string)
      returns (reply: Reply)
      requires Valid()
      modifies this, inventory
      ensures Valid() && View() == SendCommand(old(View()), agentUuid, hostId, action, containerId, force, requestId)
      ensures reply == if Connected(old(View()), agentUuid).Some? then Later(old(nextPromise)) else Settled(Rejected(NotConnected))
    {
      hide SameEntries, Close, Open, RememberHost;
      inventory.Remember(hostId, agentUuid);
      var client := FindClient(agentUuid);
      if client.None? {
        return Settled(Rejected(NotConnected));
      }
      var promise := OpenCommand(agentUuid, hostId, requestId);
      SendOrder(client.value, requestId, CommandOrder(action, containerId, force),
                CommandEnvelope(action, requestId, containerId, force));
      return Later(promise);
    }

    method InspectContainer(agentUuid: string, hostId: string, containerId: string, requestId: string) returns (reply: Reply)
      requires Valid()
      modifies this, inventory
      ensures Valid() && View() == AskInspect(old(View()), agentUuid, hostId, containerId, requestId)
      ensures reply == if Connected(old(View()), agentUuid).Some? then Later(old(nextPromise)) else Settled(Rejected(NotConnected))
    {
      hide SameEntries, Close, Open, RememberHost;
      inventory.Remember(hostId, agentUuid);
      var client := FindClient(agentUuid);
      if client.None? {
        return Settled(Rejected(NotConnected));
      }
      var promise := OpenInspect(agentUuid, hostId, requestId);
      SendOrder(client.value, requestId, InspectOrder(containerId), InspectEnvelope(requestId, containerId));
      return Later(promise);
    }

    /** None: the agent is not connected, and the call throws. */
    method StartLogStream(agentUuid: string, hostId: string, containerId: string, tail: int, follow: bool, requestId: string)
      returns (started: Option<string>)
      requires Valid()
      modifies this, inventory
      ensures Valid() && View() == StartLogs(old(View()), agentUuid, hostId, containerId, tail, follow, requestId)
      ensures started == if Connected(old(View()), agentUuid).Some? then Some(requestId) else None
    {
      hide SameEntries, Close, Open, RememberHost;
      inventory.Remember(hostId, agentUuid);
      var client := FindClient(agentUuid);
      if client.None? {
        return None;
      }
      logSubscribers := logSubscribers[requestId := Subscriber(agentUuid, containerId)];
      SendOrder(client.value, requestId, LogOrder(containerId, tail, follow),
                SubscribeEnvelope(requestId, containerId, tail, follow));
      return Some(requestId);
    }

    method StopLogStream(requestId: string)
      requires Valid()
      modifies this`logSubscribers, this`clients
      ensures Valid() && View() == StopLogs(old(View()), requestId)
    {
      if requestId !in logSubscribers {
        return;
      }
      var subscriber := logSubscribers[requestId];
      logSubscribers := logSubscribers - {requestId};
      var client := FindClient(subscriber.agent);
      if client.Some? {
        Send(client.value, UnsubscribeEnvelope(requestId));
      }
    }

    // ---------- timers ----------

    /** Delete whatever is pending under the key. */
    method DropSlot(slot: Slot)
      requires Valid()
      modifies this`pendingLists, this`pendingCommands, this`pendingInspects, this`entries
      ensures Valid() && entries == old(entries) - {slot}
    {
      hide SameEntries;
      match slot {
        case ForList(agentUuid) => DropList(agentUuid);
        case ForCommand(requestId) => DropCommand(requestId);
        case ForInspect(requestId) => DropInspect(requestId);
      }
    }

    method ExpireTimer(t: TimerId, outcome: Outcome)
      requires Valid() && t in timers
      modifies this`pendingLists, this`pendingCommands, this`pendingInspects, this`entries, this`timers, this`outcomes, this`resettled
      ensures Valid() && LedgerView() == Expire(old(LedgerView()), t, outcome)
    {
      hide SameEntries, Settle;
      var own := timers[t];
      timers := timers - {t};
      DropSlot(own.slot);
      SettlePromise(own.promise, outcome);
    }

    /** The callback of an armed timer. */
    method OnTimeout(t: TimerId)
      requires Valid() && t in timers
      modifies this`pendingLists, this`pendingCommands, this`pendingInspects, this`entries, this`timers, this`outcomes, this`resettled
      ensures Valid() && View() == Fire(old(View()), t)
    {
      hide SameEntries, Expire;
      if timers[t].slot.ForList? {
        var cached := inventory.GetByHostId(timers[t].host);
        ExpireTimer(t, Listing(Containers(cached)));
      } else {
        ExpireTimer(t, Rejected(TimedOut));
      }
    }

    // ---------- sockets come and go ----------

    method HandleConnection(client: SocketId)
      requires Valid()
      modifies this`clients
      ensures Valid() && View() == Next(old(View()), Connects(client))
    {
      clients := clients[client := Client(true, "", None, [])];
    }

    /** One turn of the loop below. */
    method RejectCommand(requestId: string, ghost before: Ledger, ghost rejected: set<Slot>)
      requires Valid() && requestId in pendingCommands && Sound(before) && LedgerView() == RejectAll(before, rejected)
      modifies this`pendingCommands, this`entries, this`timers, this`outcomes, this`resettled
      ensures Valid() && LedgerView() == RejectAll(before, rejected + {ForCommand(requestId)})
      ensures pendingCommands == old(pendingCommands) - {requestId}
    {
      RejectOneMore(before, rejected, ForCommand(requestId));
      SettleCommand(requestId, Rejected(Disconnected));
    }

    method RejectPendingCommandsForAgent(agentUuid: string)
      requires Valid() && Sound(LedgerView())
      modifies this`pendingCommands, this`entries, this`timers, this`outcomes, this`resettled
      ensures Valid() && LedgerView() == RejectAll(old(LedgerView()), CommandSlots(old(LedgerView()), agentUuid))
    {
      hide Sound, SameEntries, RejectAll, CommandSlots;
      ghost var before := LedgerView();
      ghost var all := CommandSlots(before, agentUuid);
      ghost var rejected: set<Slot> := {};
      var left := pendingCommands.Keys;
      RejectNone(before);
      OwnRequests(before, pendingLists, pendingCommands, pendingInspects, agentUuid);
      while left != {}
        invariant Valid() && LedgerView() == RejectAll(before, rejected)
        invariant left <= pendingCommands.Keys
        invariant forall r :: r in left ==> (pendingCommands[r].agentUuid == agentUuid <==> ForCommand(r) in all)
        invariant rejected <= all && forall slot :: slot in all ==> slot.ForCommand? && (slot in rejected || slot.request in left)
        decreases |left|
      {
        var requestId :| requestId in left;
        left := left - {requestId};
        if pendingCommands[requestId].agentUuid == agentUuid {
          RejectCommand(requestId, before, rejected);
          rejected := rejected + {ForCommand(requestId)};
        }
      }
      assert rejected == all;
    }

    /** One turn of the loop below. */
    method RejectInspect(requestId: string, ghost before: Ledger, ghost rejected: set<Slot>)
      requires Valid() && requestId in pendingInspects && Sound(before) && LedgerView() == RejectAll(before, rejected)
      modifies this`pendingInspects, this`entries, this`timers, this`outcomes, this`resettled
      ensures Valid() && LedgerView() == RejectAll(before, rejected + {ForInspect(requestId)})
      ensures pendingInspects == old(pendingInspects) - {requestId}
    {
      RejectOneMore(before, rejected, ForInspect(requestId));
      SettleInspect(requestId, Rejected(Disconnected));
    }

    method RejectPendingInspectsForAgent(agentUuid: string)
      requires Valid() && Sound(LedgerView())
      modifies this`pendingInspects, this`entries, this`timers, this`outcomes, this`resettled
      ensures Valid() && LedgerView() == RejectAll(old(LedgerView()), InspectSlots(old(LedgerView()), agentUuid))
    {
      hide Sound, SameEntries, RejectAll, InspectSlots;
      ghost var before := LedgerView();
      ghost var all := InspectSlots(before, agentUuid);
      ghost var rejected: set<Slot> := {};
      var left := pendingInspects.Keys;
      RejectNone(before);
      OwnRequests(before, pendingLists, pendingCommands, pendingInspects, agentUuid);
      while left != {}
        invariant Valid() && LedgerView() == RejectAll(before, rejected)
        invariant left <= pendingInspects.Keys
        invariant forall r :: r in left ==> (pendingInspects[r].agentUuid == agentUuid <==> ForInspect(r) in all)
        invariant rejected <= all && forall slot :: slot in all ==> slot.ForInspect? && (slot in rejected || slot.request in left)
        decreases |left|
      {
        var requestId :| requestId in left;
        left := left - {requestId};
        if pendingInspects[requestId].agentUuid == agentUuid {
          RejectInspect(requestId, before, rejected);
          rejected := rejected + {ForInspect(requestId)};
        }
      }
      assert rejected == all;
    }

    method UnsubscribeLogsForAgent(agentUuid: string)
      modifies this`logSubscribers
      ensures logSubscribers == SubscribersExcept(old(logSubscribers), agentUuid)
    {
      var left := logSubscribers.Keys;
      while left != {}
        invariant left <= logSubscribers.Keys <= old(logSubscribers).Keys
        invariant forall r :: r in logSubscribers ==> logSubscribers[r] == old(logSubscribers)[r]
        invariant forall r :: r in old(logSubscribers) && r !in left ==>
          (r in logSubscribers <==> old(logSubscribers)[r].agent != agentUuid)
        decreases |left|
      {
        var requestId :| requestId in left;
        left := left - {requestId};
        if logSubscribers[requestId].agent == agentUuid {
          logSubscribers := logSubscribers - {requestId};
        }
      }
    }

    /** Answer or reject everything the agent has pending. */
    method SettleForAgent(uuid: string)
      requires Valid() && Sound(LedgerView())
      modifies this`pendingLists, this`pendingCommands, this`pendingInspects, this`entries, this`timers, this`outcomes, this`resettled
      ensures Valid() && LedgerView() == AgentGone(old(LedgerView()), uuid, CachedByUuid(old(View()), uuid))
    {
      hide Sound, SameEntries, RejectAll, Close, CommandSlots, InspectSlots;
      var cached := inventory.GetByUuid(uuid);
      CloseSound(LedgerView(), ForList(uuid), Listing(Containers(cached)));
      AnswerPendingList(uuid, Containers(cached));
      SlotKinds(LedgerView(), uuid);
      RejectAllSound(LedgerView(), CommandSlots(LedgerView(), uuid));
      RejectPendingCommandsForAgent(uuid);
      RejectPendingInspectsForAgent(uuid);
    }

    /** Forget the agent's socket, settle what it has pending and drop its subscribers. */
    method ForgetAgent(uuid: string)
      requires Valid() && Sound(LedgerView())
      modifies this`socketsByUuid, this`pendingLists, this`pendingCommands, this`pendingInspects, this`entries, this`timers,
        this`outcomes, this`resettled, this`logSubscribers
      ensures Valid()
      ensures var g := old(View());
        View() == g.(sockets := g.sockets - {uuid}, ledger := AgentGone(g.ledger, uuid, CachedByUuid(g, uuid)),
                     subscribers := SubscribersExcept(g.subscribers, uuid))
    {
      hide Sound, SameEntries, AgentGone, SubscribersExcept, ByUuid, Containers;
      socketsByUuid := socketsByUuid - {uuid};
      SettleForAgent(uuid);
      UnsubscribeLogsForAgent(uuid);
    }

    method HandleDisconnect(client: SocketId)
      requires Valid() && Sound(LedgerView())
      modifies this
      ensures Valid() && View() == Disconnect(old(View()), client)
    {
      hide Sound, SameEntries, AgentGone, SubscribersExcept, ByUuid, Containers;
      if client !in clients { return; }
      var uuid := clients[client].agentUuid;
      clients := clients[client := clients[client].(open := false)];
      if uuid != "" {
        ForgetAgent(uuid);
      }
    }

    // ---------- messages ----------

    /** handleRegister, once the database has answered. */
    method FinishRegister(client: SocketId, uuid: string, id: string)
      requires Valid() && client in clients
      modifies this, inventory
      ensures Valid() && View() == Gateway.Register(old(View()), client, uuid, id)
    {
      clients := clients[client := clients[client].(agentUuid := uuid, agentId := Some(id))];
      socketsByUuid := socketsByUuid[uuid := client];
      inventory.Remember(id, uuid);
      Send(client, RegisteredEnvelope(id, uuid, ""));
      Send(client, ListEnvelope());
    }

    method HandleContainerListed(client: SocketId, payload: Json)
      requires Valid() && client in clients
      modifies this, inventory
      ensures Valid() && View() == ReceiveList(old(View()), client, payload)
    {
      var containers, dropped := ParseContainerListedPayload(payload);
      var uuid := clients[client].agentUuid;
      if uuid != "" {
        var stored := inventory.Set(uuid, containers, clients[client].agentId);
        AnswerPendingList(uuid, containers);
      }
    }

    method HandleContainerResult(p: ResultPayload)
      requires Valid()
      modifies this`pendingCommands, this`entries, this`timers, this`outcomes, this`resettled
      ensures Valid() && View() == ReceiveResult(old(View()), p)
    {
      if p.requestId == "" || p.requestId !in pendingCommands { return; }
      SettleCommand(p.requestId, Commanded(Normalised(p)));
    }

    method HandleContainerInspected(p: InspectedPayload)
      requires Valid()
      modifies this`pendingInspects, this`entries, this`timers, this`outcomes, this`resettled
      ensures Valid() && View() == ReceiveInspected(old(View()), p)
    {
      if p.requestId == "" || p.requestId !in pendingInspects { return; }
      SettleInspect(p.requestId, Inspection(NormalisedInspection(p)));
    }

    method HandleLogsChunk(p: ChunkPayload)
      requires Valid()
      modifies this`observed
      ensures Valid() && View() == ReceiveChunk(old(View()), p)
    {
      if p.requestId == "" || p.requestId !in logSubscribers { return; }
      var seen := Seen(p.containerId, if p.entries.Some? then p.entries.value else []);
      var before := if p.requestId in observed then observed[p.requestId] else [];
      observed := observed[p.requestId := before + [seen]];
    }

    method HandleMessage(client: SocketId, message: AgentMessage)
      requires Valid() && client in clients
      modifies this, inventory
      ensures Valid() && View() == Receive(old(View()), client, message)
    {
      hide SameEntries, Close, Kept, SetContainers;
      match message {
        case Garbled => Send(client, RegisteredEnvelope("", "", "Invalid JSON message"));
        case Register(uuid, hostname, os) =>
          if uuid == "" || hostname == "" || os == "" {
            Send(client, RegisteredEnvelope("", uuid, "Invalid registration payload"));
          }
        case Heartbeat(uuid) =>
          if uuid != "" {
            clients := clients[client := clients[client].(agentUuid := uuid)];
            socketsByUuid := socketsByUuid[uuid := client];
          }
        case Listed(listing) => HandleContainerListed(client, listing);
        case Result(p) => HandleContainerResult(p);
        case Inspected(p) => HandleContainerInspected(p);
        case Chunk(p) => HandleLogsChunk(p);
        case Ignored =>
      }
    }
  }
}
