/** The gateway's outstanding promises: the three pending tables of apps/server/src/agents/agents.gateway.ts,
    seen as one table from slots to entries, with the timers armed for them and the promises they settle. */
module Outstanding {
  import opened Prelude
  import opened ContainerListed

  type PromiseId = nat
  type TimerId = nat

  /** A key of pendingLists (one per agent), of pendingCommands or of pendingInspects (one per request). */
  datatype Slot = ForList(agent: string) | ForCommand(request: string) | ForInspect(request: string)

  datatype Pending = Pending(agent: string, promise: PromiseId, timer: TimerId)

  /** The closure given to setTimeout: the key it deletes and the promise it settles. */
  datatype Timeout = Timeout(slot: Slot, promise: PromiseId, host: string)

  datatype CommandResult = CommandResult(requestId: string, action: string, containerId: string, ok: bool,
                                         message: string, error: Option<string>)

  datatype InspectResult = InspectResult(requestId: string, container: Option<Json>, ok: bool, error: Option<string>)

  datatype Failure = NotConnected | Disconnected | TimedOut

  datatype Outcome =
    | Listing(containers: seq<ContainerSummary>)
    | Commanded(result: CommandResult)
    | Inspection(details: InspectResult)
    | Rejected(failure: Failure)

  datatype Ledger = Ledger(
    entries: map<Slot, Pending>,
    timers: map<TimerId, Timeout>,        // armed
    nextTimer: TimerId,
    promises: map<PromiseId, Slot>,       // every promise made, and what it was made for
    nextPromise: PromiseId,
    outcomes: map<PromiseId, Outcome>,    // the settled ones
    resettled: nat)                       // attempts to settle a settled promise, which have no effect

  const NOTHING: Ledger := Ledger(map[], map[], 0, map[], 0, map[], 0)

  function Settle(l: Ledger, p: PromiseId, o: Outcome): Ledger {
    if p in l.outcomes then l.(resettled := l.resettled + 1) else l.(outcomes := l.outcomes[p := o])
  }

  /** A promise keeps what it was settled with first; trying again is counted. */
  lemma SettledOnce(l: Ledger, p: PromiseId, first: Outcome, second: Outcome)
    ensures var once := Settle(l, p, first); var twice := Settle(once, p, second);
      && p in once.outcomes && once.outcomes[p] == (if p in l.outcomes then l.outcomes[p] else first)
      && twice.outcomes == once.outcomes && twice.resettled == once.resettled + 1
      && (once.resettled == l.resettled <==> p !in l.outcomes)
  {}

  /** A new promise with its timer and its entry. */
  function Open(l: Ledger, slot: Slot, agent: string, host: string): Ledger {
    l.(entries := l.entries[slot := Pending(agent, l.nextPromise, l.nextTimer)],
       timers := l.timers[l.nextTimer := Timeout(slot, l.nextPromise, host)], nextTimer := l.nextTimer + 1,
       promises := l.promises[l.nextPromise := slot], nextPromise := l.nextPromise + 1)
  }

  /** Clear the entry's timer, delete the entry and settle its promise. */
  function Close(l: Ledger, slot: Slot, o: Outcome): Ledger {
    if slot !in l.entries then l
    else
      var e := l.entries[slot];
      Settle(l.(timers := l.timers - {e.timer}, entries := l.entries - {slot}), e.promise, o)
  }

  /** The callback of an armed timer: it deletes whatever is under its key. */
  function Expire(l: Ledger, t: TimerId, o: Outcome): Ledger {
    if t !in l.timers then l
    else Settle(l.(timers := l.timers - {t}, entries := l.entries - {l.timers[t].slot}), l.timers[t].promise, o)
  }

  predicate Holds(l: Ledger, p: PromiseId) {
    p in l.promises && l.promises[p] in l.entries && l.entries[l.promises[p]].promise == p
  }

  function TimersOf(l: Ledger, slots: set<Slot>): set<TimerId> {
    set slot | slot in slots && slot in l.entries :: l.entries[slot].timer
  }

  function Rejections(l: Ledger, slots: set<Slot>): map<PromiseId, Outcome> {
    map p | p in l.promises && Holds(l, p) && l.promises[p] in slots :: Rejected(Disconnected)
  }

  /** Close several entries at once, each with a rejection. */
  function RejectAll(l: Ledger, slots: set<Slot>): Ledger {
    l.(entries := l.entries - slots,
       timers := l.timers - TimersOf(l, slots),
       outcomes := l.outcomes + Rejections(l, slots))
  }

  // ---------- what every operation keeps ----------

  /** The outcome is of the kind its promise was made for; lists are never rejected. */
  ghost predicate Fits(slot: Slot, o: Outcome) {
    match slot
    case ForList(_) => o.Listing?
    case ForCommand(request) => o.Rejected? || (o.Commanded? && o.result.requestId == request)
    case ForInspect(request) => o.Rejected? || (o.Inspection? && o.details.requestId == request)
  }

  ghost predicate EntryBacked(l: Ledger, slot: Slot)
    requires slot in l.entries
  {
    var e := l.entries[slot];
    && e.promise in l.promises && l.promises[e.promise] == slot && e.promise !in l.outcomes
    && e.timer in l.timers && l.timers[e.timer].slot == slot && l.timers[e.timer].promise == e.promise
    && (slot.ForList? ==> e.agent == slot.agent)
  }

  ghost predicate TimerBacked(l: Ledger, t: TimerId)
    requires t in l.timers
  {
    l.timers[t].slot in l.entries && l.entries[l.timers[t].slot].timer == t && t < l.nextTimer
  }

  ghost predicate PromiseBacked(l: Ledger, p: PromiseId)
    requires p in l.promises
  {
    && p < l.nextPromise
    && (p in l.outcomes || Holds(l, p))
    && (p in l.outcomes ==> Fits(l.promises[p], l.outcomes[p]))
  }

  /** Entries, armed timers and unsettled promises correspond one to one, and nothing has been settled twice. */
  ghost predicate Sound(l: Ledger) {
    && (forall slot :: slot in l.entries ==> EntryBacked(l, slot))
    && (forall t :: t in l.timers ==> TimerBacked(l, t))
    && (forall p :: p in l.promises ==> PromiseBacked(l, p))
    && l.outcomes.Keys <= l.promises.Keys
    && l.resettled == 0
  }

  lemma OpenEntries(l: Ledger, slot: Slot, agent: string, host: string)
    requires Sound(l) && (slot.ForList? ==> agent == slot.agent)
    requires l.nextPromise !in l.promises && l.nextTimer !in l.timers
    ensures forall s :: s in Open(l, slot, agent, host).entries ==> EntryBacked(Open(l, slot, agent, host), s)
  {
    var q := Open(l, slot, agent, host);
    forall s | s in q.entries ensures EntryBacked(q, s) {
      assert s in l.entries ==> EntryBacked(l, s);
    }
  }

  lemma OpenTimers(l: Ledger, slot: Slot, agent: string, host: string)
    requires Sound(l) && slot !in l.entries
    ensures forall t :: t in Open(l, slot, agent, host).timers ==> TimerBacked(Open(l, slot, agent, host), t)
  {
    var q := Open(l, slot, agent, host);
    forall t | t in q.timers ensures TimerBacked(q, t) {
      assert t in l.timers ==> TimerBacked(l, t);
    }
  }

  lemma OpenPromises(l: Ledger, slot: Slot, agent: string, host: string)
    requires Sound(l) && slot !in l.entries && l.nextPromise !in l.promises
    ensures forall p :: p in Open(l, slot, agent, host).promises ==> PromiseBacked(Open(l, slot, agent, host), p)
  {
    var q := Open(l, slot, agent, host);
    forall p | p in q.promises ensures PromiseBacked(q, p) {
      assert p in l.promises ==> PromiseBacked(l, p);
    }
  }

  lemma OpenSound(l: Ledger, slot: Slot, agent: string, host: string)
    requires Sound(l) && slot !in l.entries && (slot.ForList? ==> agent == slot.agent)
    ensures Sound(Open(l, slot, agent, host))
  {
    FreshKeys(l);
    hide Sound, EntryBacked, TimerBacked, PromiseBacked;
    OpenEntries(l, slot, agent, host);
    OpenTimers(l, slot, agent, host);
    OpenPromises(l, slot, agent, host);
    SoundParts(l, Open(l, slot, agent, host));
  }

  lemma FreshKeys(l: Ledger)
    requires Sound(l)
    ensures l.nextPromise !in l.promises && l.nextTimer !in l.timers
  {
    assert l.nextPromise in l.promises ==> PromiseBacked(l, l.nextPromise);
    assert l.nextTimer in l.timers ==> TimerBacked(l, l.nextTimer);
  }

  lemma SoundParts(l: Ledger, q: Ledger)
    requires Sound(l) && q.outcomes == l.outcomes && q.resettled == l.resettled && l.promises.Keys <= q.promises.Keys
    requires forall s :: s in q.entries ==> EntryBacked(q, s)
    requires forall t :: t in q.timers ==> TimerBacked(q, t)
    requires forall p :: p in q.promises ==> PromiseBacked(q, p)
    ensures Sound(q)
  {
    hide EntryBacked, TimerBacked, PromiseBacked;
  }

  /** Closing an entry settles its promise and no other. */
  lemma CloseSound(l: Ledger, slot: Slot, o: Outcome)
    requires Sound(l) && Fits(slot, o)
    ensures Sound(Close(l, slot, o)) && slot !in Close(l, slot, o).entries
    ensures Close(l, slot, o).outcomes == if slot in l.entries then l.outcomes[l.entries[slot].promise := o] else l.outcomes
  {
    if slot in l.entries {
      var q := Close(l, slot, o);
      assert EntryBacked(l, slot);
      forall s | s in q.entries ensures EntryBacked(q, s) {
        assert EntryBacked(l, s);
      }
      forall t | t in q.timers ensures TimerBacked(q, t) {
        assert TimerBacked(l, t);
      }
      forall p | p in q.promises ensures PromiseBacked(q, p) {
        assert PromiseBacked(l, p);
      }
    }
  }

  /** A timer that fires deletes its own entry, never a newer one: expiring is closing. */
  lemma ExpireCloses(l: Ledger, t: TimerId, o: Outcome)
    requires Sound(l) && t in l.timers
    ensures l.timers[t].slot in l.entries && l.entries[l.timers[t].slot].timer == t
    ensures l.entries[l.timers[t].slot].promise == l.timers[t].promise
    ensures Expire(l, t, o) == Close(l, l.timers[t].slot, o)
  {
    assert TimerBacked(l, t);
    assert EntryBacked(l, l.timers[t].slot);
  }

  lemma RejectAllSound(l: Ledger, slots: set<Slot>)
    requires Sound(l) && forall slot :: slot in slots ==> !slot.ForList?
    ensures Sound(RejectAll(l, slots))
  {
    var q := RejectAll(l, slots);
    forall s | s in q.entries ensures EntryBacked(q, s) {
      assert EntryBacked(l, s);
      SurvivorKeepsTimer(l, slots, s);
    }
    forall t | t in q.timers ensures TimerBacked(q, t) {
      assert TimerBacked(l, t);
      assert l.timers[t].slot in slots ==> t in TimersOf(l, slots);
    }
    forall p | p in q.promises ensures PromiseBacked(q, p) {
      assert PromiseBacked(l, p);
    }
  }

  lemma SurvivorKeepsTimer(l: Ledger, slots: set<Slot>, s: Slot)
    requires Sound(l) && s in l.entries && s !in slots
    ensures l.entries[s].timer !in TimersOf(l, slots)
  {
    assert EntryBacked(l, s);
    forall slot | slot in slots && slot in l.entries ensures l.entries[slot].timer != l.entries[s].timer {
      assert EntryBacked(l, slot);
    }
  }

  lemma SurvivorsUnaffected(l: Ledger, slots: set<Slot>, slot: Slot)
    requires Sound(l) && slot in l.entries && slot !in slots
    ensures var q := RejectAll(l, slots);
      && slot in q.entries && q.entries[slot] == l.entries[slot]
      && q.entries[slot].promise !in q.outcomes && q.promises == l.promises
  {
    assert EntryBacked(l, slot);
  }

  lemma TimersOfOneMore(l: Ledger, slots: set<Slot>, slot: Slot)
    requires slot in l.entries
    ensures TimersOf(l, slots + {slot}) == TimersOf(l, slots) + {l.entries[slot].timer}
  {}

  lemma RejectionsOneMore(l: Ledger, slots: set<Slot>, slot: Slot)
    requires Sound(l) && slot in l.entries && slot !in slots
    ensures Rejections(l, slots + {slot}) == Rejections(l, slots)[l.entries[slot].promise := Rejected(Disconnected)]
  {
    assert EntryBacked(l, slot);
  }

  lemma MergeOneMore<K, V>(a: map<K, V>, b: map<K, V>, k: K, v: V)
    ensures a + b[k := v] == (a + b)[k := v]
  {}

  /** One more turn of a rejecting loop. */
  lemma RejectOneMore(l: Ledger, slots: set<Slot>, slot: Slot)
    requires Sound(l) && slot in l.entries && slot !in slots
    ensures Close(RejectAll(l, slots), slot, Rejected(Disconnected)) == RejectAll(l, slots + {slot})
  {
    SurvivorsUnaffected(l, slots, slot);
    TimersOfOneMore(l, slots, slot);
    RejectionsOneMore(l, slots, slot);
    var e := l.entries[slot];
    MergeOneMore(l.outcomes, Rejections(l, slots), e.promise, Rejected(Disconnected));
    assert l.entries - slots - {slot} == l.entries - (slots + {slot});
    assert l.timers - TimersOf(l, slots) - {e.timer} == l.timers - (TimersOf(l, slots) + {e.timer});
  }

  lemma RejectNone(l: Ledger)
    ensures RejectAll(l, {}) == l
  {
    assert l.entries - {} == l.entries;
    assert l.timers - TimersOf(l, {}) == l.timers;
  }

  // ---------- what soundness says ----------

  function Unsettled(l: Ledger): set<PromiseId> { l.promises.Keys - l.outcomes.Keys }

  function PromisesOf(l: Ledger, slots: set<Slot>): set<PromiseId> {
    set slot | slot in slots && slot in l.entries :: l.entries[slot].promise
  }

  lemma OnePromiseEach(l: Ledger, a: Slot, b: Slot)
    requires Sound(l) && a in l.entries && b in l.entries && a != b
    ensures l.entries[a].promise != l.entries[b].promise && l.entries[a].timer != l.entries[b].timer
  {
    assert EntryBacked(l, a) && EntryBacked(l, b);
  }

  lemma {:induction false} PromiseEach(l: Ledger, slots: set<Slot>)
    requires Sound(l) && slots <= l.entries.Keys
    ensures |PromisesOf(l, slots)| == |slots|
    decreases |slots|
  {
    if slots == {} {
      assert PromisesOf(l, slots) == {};
    } else {
      var slot :| slot in slots;
      var rest := slots - {slot};
      PromiseEach(l, rest);
      assert PromisesOf(l, slots) == PromisesOf(l, rest) + {l.entries[slot].promise};
      forall s | s in rest ensures l.entries[s].promise != l.entries[slot].promise {
        OnePromiseEach(l, s, slot);
      }
    }
  }

  lemma {:induction false} TimerEach(l: Ledger, slots: set<Slot>)
    requires Sound(l) && slots <= l.entries.Keys
    ensures |TimersOf(l, slots)| == |slots|
    decreases |slots|
  {
    if slots == {} {
      assert TimersOf(l, slots) == {};
    } else {
      var slot :| slot in slots;
      var rest := slots - {slot};
      TimerEach(l, rest);
      assert TimersOf(l, slots) == TimersOf(l, rest) + {l.entries[slot].timer};
      forall s | s in rest ensures l.entries[s].timer != l.entries[slot].timer {
        OnePromiseEach(l, s, slot);
      }
    }
  }

  /** The entries are exactly the unsettled promises... */
  lemma PromisesMatch(l: Ledger)
    requires Sound(l)
    ensures PromisesOf(l, l.entries.Keys) == Unsettled(l)
  {
    forall slot | slot in l.entries ensures l.entries[slot].promise in Unsettled(l) {
      assert EntryBacked(l, slot);
    }
    forall p | p in Unsettled(l) ensures p in PromisesOf(l, l.entries.Keys) {
      assert PromiseBacked(l, p);
    }
  }

  /** ...and exactly the armed timers. */
  lemma TimersMatch(l: Ledger)
    requires Sound(l)
    ensures TimersOf(l, l.entries.Keys) == l.timers.Keys
  {
    forall slot | slot in l.entries ensures l.entries[slot].timer in l.timers {
      assert EntryBacked(l, slot);
    }
    forall t | t in l.timers ensures t in TimersOf(l, l.entries.Keys) {
      assert TimerBacked(l, t);
    }
  }

  /** How many entries there are, timers armed and promises unsettled. */
  lemma TablesMatch(l: Ledger)
    requires Sound(l)
    ensures |l.entries| == |l.timers| == |Unsettled(l)|
    ensures l.timers == map[] ==> Unsettled(l) == {}
  {
    PromisesMatch(l);
    TimersMatch(l);
    PromiseEach(l, l.entries.Keys);
    TimerEach(l, l.entries.Keys);
    assert |l.entries| == |l.entries.Keys| && |l.timers| == |l.timers.Keys|;
    assert l.timers == map[] ==> l.timers.Keys == {};
  }
}
