/** The agent's registry of log streams, at lock granularity: apps/agent/internal/logs/service.go and the
    close of apps/agent/internal/logs/stream.go. Every mutex region is one step; streams are closed
    outside the registry's lock, as in the code. */
module LogService {
  import opened Protocol

  type StreamId = nat
  type Thread = nat

  /** `done`: the stream's context is cancelled. */
  datatype StreamInfo = StreamInfo(request: string, closed: bool, done: bool, readerCloses: nat)

  /** Where a Subscribe call stands between its mutex regions. */
  datatype Caller =
    | ClosingExisting(request: string, existing: StreamId)
    | Opening(request: string)
    | Opened(request: string, stream: StreamId)
    | ClosingPrevious(request: string, stream: StreamId, previous: StreamId)
    | Storing(request: string, stream: StreamId)

  datatype Registry = Registry(
    streams: map<string, StreamId>,
    info: map<StreamId, StreamInfo>,
    callers: map<Thread, Caller>,          // Subscribe calls under way
    removers: map<Thread, set<StreamId>>,  // Unsubscribe, UnsubscribeAll and Close: what they took and must close
    closing: set<Thread>,                  // the removers that are Close
    rootDone: bool)

  const EMPTY: Registry := Registry(map[], map[], map[], map[], {}, false)

  datatype Step =
    | SubscribeStarts(thread: Thread, request: string)
    | ExistingCloses(thread: Thread)
    | OpenFails(thread: Thread)
    | OpenSucceeds(thread: Thread, stream: StreamId)
    | Inserts(thread: Thread)
    | PreviousCloses(thread: Thread)
    | Stores(thread: Thread)
    | Unsubscribes(thread: Thread, request: string)
    | UnsubscribesAll(thread: Thread, close: bool)
    | RemoverCloses(thread: Thread, stream: StreamId)
    | RemoverReturns(thread: Thread)
    | StreamEnds(stream: StreamId)

  /** The steps a Subscribe call takes. */
  predicate ByCaller(step: Step) {
    match step
    case SubscribeStarts(_, _) | ExistingCloses(_) | OpenFails(_) | OpenSucceeds(_, _) | Inserts(_)
      | PreviousCloses(_) | Stores(_) => true
    case _ => false
  }

  /** Stream.close: idempotent under the stream's own mutex. */
  function Closed(i: StreamInfo): StreamInfo {
    if i.closed then i else i.(closed := true, done := true, readerCloses := i.readerCloses + 1)
  }

  function CloseIn(r: Registry, s: StreamId): Registry {
    if s in r.info then r.(info := r.info[s := Closed(r.info[s])]) else r
  }

  ghost predicate Enabled(r: Registry, step: Step) {
    match step
    case SubscribeStarts(t, _) => t !in r.callers
    case ExistingCloses(t) => t in r.callers && r.callers[t].ClosingExisting?
    case OpenFails(t) => t in r.callers && r.callers[t].Opening?
    case OpenSucceeds(t, s) => t in r.callers && r.callers[t].Opening? && s !in r.info
    case Inserts(t) => t in r.callers && r.callers[t].Opened?
    case PreviousCloses(t) => t in r.callers && r.callers[t].ClosingPrevious?
    case Stores(t) => t in r.callers && r.callers[t].Storing?
    case Unsubscribes(t, _) => t !in r.removers
    case UnsubscribesAll(t, _) => t !in r.removers
    case RemoverCloses(t, s) => t in r.removers && s in r.removers[t]
    case RemoverReturns(t) => t in r.removers && r.removers[t] == {}
    case StreamEnds(s) => s in r.info
  }

  function Next(r: Registry, step: Step): Registry
    requires Enabled(r, step)
  {
    match step
    case SubscribeStarts(t, request) =>
      if request in r.streams
      then r.(streams := r.streams - {request}, callers := r.callers[t := ClosingExisting(request, r.streams[request])])
      else r.(callers := r.callers[t := Opening(request)])
    case ExistingCloses(t) =>
      CloseIn(r, r.callers[t].existing).(callers := r.callers[t := Opening(r.callers[t].request)])
    case OpenFails(t) => r.(callers := r.callers - {t})
    case OpenSucceeds(t, s) =>
      var request := r.callers[t].request;
      // The stream's context is a child of the root context.
      r.(info := r.info[s := StreamInfo(request, false, r.rootDone, 0)], callers := r.callers[t := Opened(request, s)])
    case Inserts(t) =>
      var c := r.callers[t];
      if c.request in r.streams
      then r.(streams := r.streams - {c.request},
              callers := r.callers[t := ClosingPrevious(c.request, c.stream, r.streams[c.request])])
      else r.(streams := r.streams[c.request := c.stream], callers := r.callers - {t})
    case PreviousCloses(t) =>
      var c := r.callers[t];
      CloseIn(r, c.previous).(callers := r.callers[t := Storing(c.request, c.stream)])
    case Stores(t) =>
      var c := r.callers[t];
      r.(streams := r.streams[c.request := c.stream], callers := r.callers - {t})
    case Unsubscribes(t, request) =>
      if request in r.streams
      then r.(streams := r.streams - {request}, removers := r.removers[t := {r.streams[request]}])
      else r
    case UnsubscribesAll(t, close) =>
      r.(streams := map[], removers := r.removers[t := r.streams.Values],
         closing := if close then r.closing + {t} else r.closing)
    case RemoverCloses(t, s) => CloseIn(r, s).(removers := r.removers[t := r.removers[t] - {s}])
    case RemoverReturns(t) =>
      var left := r.(removers := r.removers - {t}, closing := r.closing - {t});
      if t in r.closing
      then left.(rootDone := true, info := map s | s in r.info :: r.info[s].(done := true))
      else left
    case StreamEnds(s) => CloseIn(r, s)
  }

  /** No two Subscribe calls for one request id are under way at once. */
  ghost predicate Disciplined(r: Registry, step: Step) {
    step.SubscribeStarts? ==> forall t :: t in r.callers ==> r.callers[t].request != step.request
  }

  ghost predicate Run(r: Registry, steps: seq<Step>, q: Registry)
    decreases |steps|
  {
    if steps == [] then r == q
    else Enabled(r, steps[0]) && Disciplined(r, steps[0]) && Run(Next(r, steps[0]), steps[1..], q)
  }

  // ---------- no orphans ----------

  ghost predicate InMap(r: Registry, s: StreamId) {
    s in r.info && r.info[s].request in r.streams && r.streams[r.info[s].request] == s
  }

  /** A Subscribe call is about to insert the stream or to close it. */
  ghost predicate CallerHolds(c: Caller, s: StreamId) {
    match c
    case ClosingExisting(_, existing) => s == existing
    case Opening(_) => false
    case Opened(_, stream) => s == stream
    case ClosingPrevious(_, stream, previous) => s == stream || s == previous
    case Storing(_, stream) => s == stream
  }

  ghost predicate Held(r: Registry, s: StreamId) {
    || InMap(r, s)
    || (exists t :: t in r.callers && CallerHolds(r.callers[t], s))
    || (exists t :: t in r.removers && s in r.removers[t])
  }

  ghost predicate CallerWellFormed(r: Registry, c: Caller) {
    match c
    case ClosingExisting(_, existing) => existing in r.info
    case Opening(_) => true
    case Opened(request, stream) => stream in r.info && r.info[stream].request == request
    case ClosingPrevious(request, stream, previous) =>
      stream in r.info && r.info[stream].request == request && previous in r.info && request !in r.streams
    case Storing(request, stream) => stream in r.info && r.info[stream].request == request && request !in r.streams
  }

  ghost predicate MapSound(r: Registry) {
    forall request :: request in r.streams ==>
      r.streams[request] in r.info && r.info[r.streams[request]].request == request
  }

  ghost predicate CallersSound(r: Registry) {
    forall t :: t in r.callers ==> CallerWellFormed(r, r.callers[t])
  }

  ghost predicate CallersDistinct(r: Registry) {
    forall t, u :: t in r.callers && u in r.callers && r.callers[t].request == r.callers[u].request ==> t == u
  }

  ghost predicate InfoSound(rootDone: bool, i: StreamInfo) {
    i.readerCloses == (if i.closed then 1 else 0) && (rootDone || i.closed ==> i.done)
  }

  ghost predicate StreamsSound(r: Registry) {
    forall s :: s in r.info ==> InfoSound(r.rootDone, r.info[s])
  }

  /** The map and the calls refer to known streams, each under its own request; a reader is closed at
      most once; and closing a stream or the service cancels contexts. */
  ghost predicate WellFormed(r: Registry) {
    MapSound(r) && CallersSound(r) && CallersDistinct(r) && StreamsSound(r)
  }

  ghost predicate NoOrphans(r: Registry) {
    forall s :: s in r.info && !r.info[s].closed ==> Held(r, s)
  }

  /** No step forgets a stream, re-labels it or re-opens it. */
  lemma InfoGrows(r: Registry, step: Step, s: StreamId)
    requires Enabled(r, step) && s in r.info
    ensures s in Next(r, step).info && Next(r, step).info[s].request == r.info[s].request
    ensures r.info[s].closed ==> Next(r, step).info[s].closed
  {}

  lemma StepKeepsMapSound(r: Registry, step: Step)
    requires MapSound(r) && CallersSound(r) && Enabled(r, step)
    ensures MapSound(Next(r, step))
  {
    var q := Next(r, step);
    forall request | request in q.streams
      ensures q.streams[request] in q.info && q.info[q.streams[request]].request == request
    {
      assert step.Inserts? || step.Stores? ==> CallerWellFormed(r, r.callers[step.thread]);
      InfoGrows(r, step, q.streams[request]);
    }
  }

  lemma CallerStays(r: Registry, step: Step, t: Thread)
    requires CallersSound(r) && CallersDistinct(r) && MapSound(r) && Enabled(r, step) && Disciplined(r, step)
    requires t in r.callers && !(ByCaller(step) && step.thread == t)
    ensures t in Next(r, step).callers && Next(r, step).callers[t] == r.callers[t]
    ensures CallerWellFormed(Next(r, step), r.callers[t])
  {
    assert CallerWellFormed(r, r.callers[t]);
    forall s | s in r.info ensures s in Next(r, step).info && Next(r, step).info[s].request == r.info[s].request {
      InfoGrows(r, step, s);
    }
  }

  lemma CallerAdvances(r: Registry, step: Step)
    requires CallersSound(r) && MapSound(r) && Enabled(r, step) && ByCaller(step)
    requires step.thread in Next(r, step).callers
    ensures CallerWellFormed(Next(r, step), Next(r, step).callers[step.thread])
  {
    assert step.thread in r.callers ==> CallerWellFormed(r, r.callers[step.thread]);
  }

  lemma StepKeepsCallersSound(r: Registry, step: Step)
    requires WellFormed(r) && Enabled(r, step) && Disciplined(r, step)
    ensures CallersSound(Next(r, step))
  {
    var q := Next(r, step);
    forall t | t in q.callers ensures CallerWellFormed(q, q.callers[t]) {
      if ByCaller(step) && step.thread == t {
        CallerAdvances(r, step);
      } else {
        CallerStays(r, step, t);
      }
    }
  }

  /** A Subscribe call works for one request id from start to end. */
  lemma CallerKeepsRequest(r: Registry, step: Step, t: Thread)
    requires Enabled(r, step) && t in Next(r, step).callers
    ensures t in r.callers ==> Next(r, step).callers[t].request == r.callers[t].request
    ensures t !in r.callers ==> step.SubscribeStarts? && step.thread == t && Next(r, step).callers[t].request == step.request
  {}

  lemma StepKeepsCallersDistinct(r: Registry, step: Step)
    requires CallersDistinct(r) && Enabled(r, step) && Disciplined(r, step)
    ensures CallersDistinct(Next(r, step))
  {
    var q := Next(r, step);
    forall t, u | t in q.callers && u in q.callers && q.callers[t].request == q.callers[u].request ensures t == u {
      CallerKeepsRequest(r, step, t);
      CallerKeepsRequest(r, step, u);
    }
  }

  lemma StepKeepsStreamsSound(r: Registry, step: Step)
    requires StreamsSound(r) && Enabled(r, step)
    ensures StreamsSound(Next(r, step))
  {
    var q := Next(r, step);
    forall s | s in q.info ensures InfoSound(q.rootDone, q.info[s]) {
      assert s in r.info ==> InfoSound(r.rootDone, r.info[s]);
    }
  }

  lemma StepKeepsWellFormed(r: Registry, step: Step)
    requires WellFormed(r) && Enabled(r, step) && Disciplined(r, step)
    ensures WellFormed(Next(r, step))
  {
    StepKeepsMapSound(r, step);
    StepKeepsCallersSound(r, step);
    StepKeepsCallersDistinct(r, step);
    StepKeepsStreamsSound(r, step);
  }

  /** A stream that stays open is passed on, from the map to whoever takes it out... */
  lemma MapStreamHeld(r: Registry, step: Step, s: StreamId)
    requires MapSound(r) && CallersSound(r) && Enabled(r, step) && InMap(r, s)
    ensures var q := Next(r, step);
      || InMap(q, s)
      || (ByCaller(step) && step.thread in q.callers && CallerHolds(q.callers[step.thread], s))
      || (step.Unsubscribes? && step.thread in q.removers && s in q.removers[step.thread])
      || (step.UnsubscribesAll? && step.thread in q.removers && s in q.removers[step.thread])
  {
    InfoGrows(r, step, s);
    assert step.Stores? ==> CallerWellFormed(r, r.callers[step.thread]);
  }

  /** ...from a Subscribe call into the map, or it is closed... */
  lemma CallerStreamHeld(r: Registry, step: Step, s: StreamId, t: Thread)
    requires CallersSound(r) && Enabled(r, step) && s in r.info
    requires t in r.callers && CallerHolds(r.callers[t], s)
    ensures var q := Next(r, step);
      q.info[s].closed || InMap(q, s) || (t in q.callers && CallerHolds(q.callers[t], s))
  {
    assert CallerWellFormed(r, r.callers[t]);
    InfoGrows(r, step, s);
  }

  /** ...and by a remover only to be closed. */
  lemma RemovedStreamHeld(r: Registry, step: Step, s: StreamId, t: Thread)
    requires Enabled(r, step) && s in r.info && t in r.removers && s in r.removers[t]
    ensures var q := Next(r, step);
      q.info[s].closed || (t in q.removers && s in q.removers[t])
  {}

  lemma StepKeepsHeld(r: Registry, step: Step, s: StreamId)
    requires WellFormed(r) && Enabled(r, step) && s in r.info && Held(r, s)
    requires !Next(r, step).info[s].closed
    ensures Held(Next(r, step), s)
  {
    if InMap(r, s) {
      MapStreamHeld(r, step, s);
    } else if t :| t in r.callers && CallerHolds(r.callers[t], s) {
      CallerStreamHeld(r, step, s, t);
    } else {
      var t :| t in r.removers && s in r.removers[t];
      RemovedStreamHeld(r, step, s, t);
    }
  }

  lemma NewStreamHeld(r: Registry, step: Step, s: StreamId)
    requires Enabled(r, step) && s !in r.info && s in Next(r, step).info
    ensures ByCaller(step) && step.thread in Next(r, step).callers
    ensures CallerHolds(Next(r, step).callers[step.thread], s)
  {}

  lemma StepKeepsNoOrphans(r: Registry, step: Step)
    requires WellFormed(r) && NoOrphans(r) && Enabled(r, step) && Disciplined(r, step)
    ensures NoOrphans(Next(r, step))
  {
    var q := Next(r, step);
    forall s | s in q.info && !q.info[s].closed ensures Held(q, s) {
      if s in r.info {
        InfoGrows(r, step, s);
        StepKeepsHeld(r, step, s);
      } else {
        NewStreamHeld(r, step, s);
      }
    }
  }

  lemma {:induction false} RunKeeps(r: Registry, steps: seq<Step>, q: Registry)
    requires WellFormed(r) && NoOrphans(r) && Run(r, steps, q)
    ensures WellFormed(q) && NoOrphans(q)
    decreases |steps|
  {
    if steps != [] {
      StepKeepsWellFormed(r, steps[0]);
      StepKeepsNoOrphans(r, steps[0]);
      RunKeeps(Next(r, steps[0]), steps[1..], q);
    }
  }

  /** In every run, however Subscribe calls for distinct requests, Unsubscribe, UnsubscribeAll and Close
      interleave: an open stream is in the map under its own request id, or held by the Subscribe about
      to insert it, or by someone about to close it; each reader is closed at most once; and once Close
      has returned every stream's context is cancelled. */
  lemma NoOrphanStreams(steps: seq<Step>, q: Registry)
    requires Run(EMPTY, steps, q)
    ensures forall s :: s in q.info && !q.info[s].closed ==> Held(q, s)
    ensures forall s :: s in q.info ==> q.info[s].readerCloses <= 1
    ensures q.rootDone ==> forall s :: s in q.info ==> q.info[s].done
    ensures forall request :: request in q.streams ==>
      q.streams[request] in q.info && q.info[q.streams[request]].request == request
  {
    RunKeeps(EMPTY, steps, q);
  }

  /** With nothing under way, the open streams are exactly streams in the map: unsubscribing them all
      releases every reader. */
  lemma QuietRegistry(steps: seq<Step>, q: Registry)
    requires Run(EMPTY, steps, q) && q.callers == map[] && q.removers == map[]
    ensures forall s :: s in q.info && !q.info[s].closed ==> s in q.streams.Values
    ensures q.streams == map[] ==> forall s :: s in q.info ==> q.info[s].readerCloses == 1
  {
    RunKeeps(EMPTY, steps, q);
  }

  // ---------- the discipline is needed ----------

  /** A run in which Subscribe calls may overlap on one request id. */
  ghost predicate FreeRun(r: Registry, steps: seq<Step>, q: Registry)
    decreases |steps|
  {
    if steps == [] then r == q
    else Enabled(r, steps[0]) && FreeRun(Next(r, steps[0]), steps[1..], q)
  }

  lemma {:induction false} FreeRunAppend(r: Registry, first: seq<Step>, m: Registry, second: seq<Step>, q: Registry)
    requires FreeRun(r, first, m) && FreeRun(m, second, q)
    ensures FreeRun(r, first + second, q)
    decreases |first|
  {
    if first == [] {
      assert first + second == second;
    } else {
      assert (first + second)[1..] == first[1..] + second;
      FreeRunAppend(Next(r, first[0]), first[1..], m, second, q);
    }
  }

  lemma OneStep(r: Registry, step: Step)
    requires Enabled(r, step)
    ensures FreeRun(r, [step], Next(r, step))
  {}

  lemma TwoSteps(r: Registry, a: Step, b: Step)
    requires Enabled(r, a) && Enabled(Next(r, a), b)
    ensures FreeRun(r, [a, b], Next(Next(r, a), b))
  {
    OneStep(r, a);
    OneStep(Next(r, a), b);
    FreeRunAppend(r, [a], Next(r, a), [b], Next(Next(r, a), b));
    assert [a] + [b] == [a, b];
  }

  /** A Subscribe that finds nothing to replace and opens its stream. */
  lemma SubscribeOpens(r: Registry, t: Thread, request: string, s: StreamId)
    requires t !in r.callers && request !in r.streams && s !in r.info
    ensures FreeRun(r, [SubscribeStarts(t, request), OpenSucceeds(t, s)],
                    r.(info := r.info[s := StreamInfo(request, false, r.rootDone, 0)],
                       callers := r.callers[t := Opened(request, s)]))
  {
    TwoSteps(r, SubscribeStarts(t, request), OpenSucceeds(t, s));
    assert r.callers[t := Opening(request)][t := Opened(request, s)] == r.callers[t := Opened(request, s)];
  }

  /** Calls 0 to n - 1 for one id, each holding the open stream of its own number. */
  ghost predicate Overlapping(r: Registry, request: string, n: nat) {
    && r.streams == map[] && r.removers == map[] && !r.rootDone
    && (forall t: Thread :: t in r.callers <==> t < n) && (forall s: StreamId :: s in r.info <==> s < n)
    && (forall k :: 0 <= k < n ==> r.callers[k] == Opened(request, k))
    && (forall k :: 0 <= k < n ==> r.info[k] == StreamInfo(request, false, false, 0))
  }

  /** One more call that gets as far as holding its open stream. */
  lemma OpenAnother(steps: seq<Step>, r: Registry, n: nat, request: string) returns (more: seq<Step>, q: Registry)
    requires FreeRun(EMPTY, steps, r) && Overlapping(r, request, n)
    ensures FreeRun(EMPTY, more, q) && Overlapping(q, request, n + 1)
  {
    q := r.(info := r.info[n := StreamInfo(request, false, r.rootDone, 0)], callers := r.callers[n := Opened(request, n)]);
    var two := [SubscribeStarts(n, request), OpenSucceeds(n, n)];
    SubscribeOpens(r, n, request, n);
    hide FreeRun;
    FreeRunAppend(EMPTY, steps, r, two, q);
    more := steps + two;
  }

  /** The second has taken the first's stream out; the third has still to store its own. */
  lemma OrphanLeft(b: Registry, request: string) returns (steps: seq<Step>, q: Registry)
    requires request !in b.streams && b.removers == map[] && b.callers.Keys == {1, 2}
    requires b.callers[1] == ClosingPrevious(request, 1, 0) && b.callers[2] == Opened(request, 2)
    requires 0 in b.info && 2 in b.info && b.info[2] == StreamInfo(request, false, false, 0)
    ensures FreeRun(b, steps, q) && 2 in q.info && !q.info[2].closed && !Held(q, 2)
  {
    var c := Next(b, Inserts(2));
    var d := Next(c, PreviousCloses(1));
    q := Next(d, Stores(1));
    assert q.callers == map[];
    TwoSteps(b, Inserts(2), PreviousCloses(1));
    OneStep(d, Stores(1));
    hide Next, Held, FreeRun;
    steps := [Inserts(2), PreviousCloses(1)] + [Stores(1)];
    FreeRunAppend(b, [Inserts(2), PreviousCloses(1)], d, [Stores(1)], q);
  }

  lemma OrphanFrom(r: Registry, request: string) returns (steps: seq<Step>, q: Registry)
    requires Overlapping(r, request, 3)
    ensures FreeRun(r, steps, q) && 2 in q.info && !q.info[2].closed && !Held(q, 2)
  {
    var b := Next(Next(r, Inserts(0)), Inserts(1));
    TwoSteps(r, Inserts(0), Inserts(1));
    var more, last := OrphanLeft(b, request);
    q := last;
    hide Next, Held, FreeRun;
    steps := [Inserts(0), Inserts(1)] + more;
    FreeRunAppend(r, [Inserts(0), Inserts(1)], b, more, q);
  }

  /** Three calls for one id that overlap: the second takes the first's stream out to close it, the third
      stores its own meanwhile, and the second's store then overwrites that one. It is open, and nobody
      will ever close it. */
  lemma OverlappingSubscribesOrphan(request: string)
    ensures exists steps, q :: FreeRun(EMPTY, steps, q) && 2 in q.info && !q.info[2].closed && !Held(q, 2)
  {
    assert FreeRun(EMPTY, [], EMPTY) && Overlapping(EMPTY, request, 0);
    hide Held, FreeRun, Overlapping;
    var one, a := OpenAnother([], EMPTY, 0, request);
    var two, b := OpenAnother(one, a, 1, request);
    var three, c := OpenAnother(two, b, 2, request);
    var rest, q := OrphanFrom(c, request);
    FreeRunAppend(EMPTY, three, c, rest, q);
  }

  // ---------- what a call does ----------

  lemma ThreeSteps(r: Registry, a: Step, b: Step, c: Step)
    requires Enabled(r, a) && Enabled(Next(r, a), b) && Enabled(Next(Next(r, a), b), c)
    ensures FreeRun(r, [a, b, c], Next(Next(Next(r, a), b), c))
  {
    hide Enabled, Next, FreeRun;
    TwoSteps(r, a, b);
    OneStep(Next(Next(r, a), b), c);
    FreeRunAppend(r, [a, b], Next(Next(r, a), b), [c], Next(Next(Next(r, a), b), c));
    assert [a, b] + [c] == [a, b, c];
  }

  /** A Subscribe that nothing interrupts closes the stream that had the id and puts the new one, open, in its place... */
  lemma SubscribeReplaces(r: Registry, t: Thread, request: string, s: StreamId)
    requires t !in r.callers && request in r.streams && r.streams[request] in r.info && s !in r.info
    ensures var e := r.streams[request]; var i := r.info[e];
      FreeRun(r, [SubscribeStarts(t, request), ExistingCloses(t)] + [OpenSucceeds(t, s), Inserts(t)],
              r.(streams := r.streams[request := s],
                 info := r.info[e := if i.closed then i else i.(closed := true, done := true, readerCloses := i.readerCloses + 1)]
                               [s := StreamInfo(request, false, r.rootDone, 0)]))
  {
    var a := Next(r, SubscribeStarts(t, request));
    var b := Next(a, ExistingCloses(t));
    var c := Next(b, OpenSucceeds(t, s));
    var d := Next(c, Inserts(t));
    TwoSteps(r, SubscribeStarts(t, request), ExistingCloses(t));
    TwoSteps(b, OpenSucceeds(t, s), Inserts(t));
    assert d.streams == r.streams[request := s];
    assert d.callers == r.callers;
    hide FreeRun, Next;
    FreeRunAppend(r, [SubscribeStarts(t, request), ExistingCloses(t)], b, [OpenSucceeds(t, s), Inserts(t)], d);
  }

  /** ...also when there was none... */
  lemma SubscribeInserts(r: Registry, t: Thread, request: string, s: StreamId)
    requires t !in r.callers && request !in r.streams && s !in r.info
    ensures FreeRun(r, [SubscribeStarts(t, request), OpenSucceeds(t, s), Inserts(t)],
                    r.(streams := r.streams[request := s], info := r.info[s := StreamInfo(request, false, r.rootDone, 0)]))
  {
    ThreeSteps(r, SubscribeStarts(t, request), OpenSucceeds(t, s), Inserts(t));
    var d := Next(Next(Next(r, SubscribeStarts(t, request)), OpenSucceeds(t, s)), Inserts(t));
    assert d.callers == r.callers;
    hide FreeRun;
  }

  /** ...and one that Docker refuses leaves no stream under the id. */
  lemma SubscribeFails(r: Registry, t: Thread, request: string)
    requires t !in r.callers && request in r.streams && r.streams[request] in r.info
    ensures var e := r.streams[request]; var i := r.info[e];
      FreeRun(r, [SubscribeStarts(t, request), ExistingCloses(t), OpenFails(t)],
              r.(streams := r.streams - {request},
                 info := r.info[e := if i.closed then i else i.(closed := true, done := true, readerCloses := i.readerCloses + 1)]))
  {
    ThreeSteps(r, SubscribeStarts(t, request), ExistingCloses(t), OpenFails(t));
    var d := Next(Next(Next(r, SubscribeStarts(t, request)), ExistingCloses(t)), OpenFails(t));
    assert d.callers == r.callers;
    hide FreeRun;
  }

  /** A stream that another call put there in between is closed before the id is taken over. */
  lemma PreviousReplaced(r: Registry, t: Thread, request: string, s: StreamId)
    requires t in r.callers && r.callers[t] == Opened(request, s) && request in r.streams && r.streams[request] in r.info
    ensures var e := r.streams[request]; var i := r.info[e];
      FreeRun(r, [Inserts(t), PreviousCloses(t), Stores(t)],
              r.(streams := r.streams[request := s], callers := r.callers - {t},
                 info := r.info[e := if i.closed then i else i.(closed := true, done := true, readerCloses := i.readerCloses + 1)]))
  {
    ThreeSteps(r, Inserts(t), PreviousCloses(t), Stores(t));
    var d := Next(Next(Next(r, Inserts(t)), PreviousCloses(t)), Stores(t));
    assert d.callers == r.callers - {t} && d.streams == r.streams[request := s];
    hide FreeRun;
  }

  ghost predicate NoReturn(steps: seq<Step>, t: Thread) {
    forall i :: 0 <= i < |steps| ==> steps[i] != RemoverReturns(t)
  }

  /** The remover still has these streams to close, or they are closed. */
  ghost predicate ToClose(r: Registry, t: Thread, taken: set<StreamId>) {
    t in r.removers && forall s :: s in taken ==> s in r.info && (s in r.removers[t] || r.info[s].closed)
  }

  lemma StepKeepsToClose(r: Registry, step: Step, t: Thread, taken: set<StreamId>)
    requires Enabled(r, step) && ToClose(r, t, taken) && step != RemoverReturns(t)
    ensures ToClose(Next(r, step), t, taken)
    ensures t in r.closing <==> t in Next(r, step).closing
  {}

  lemma {:induction false} RunKeepsToClose(r: Registry, steps: seq<Step>, q: Registry, t: Thread, taken: set<StreamId>)
    requires FreeRun(r, steps, q) && ToClose(r, t, taken) && NoReturn(steps, t)
    ensures ToClose(q, t, taken) && (t in r.closing <==> t in q.closing)
    decreases |steps|
  {
    hide Enabled, Next, ToClose;
    if steps != [] {
      assert steps[0] != RemoverReturns(t) && NoReturn(steps[1..], t);
      StepKeepsToClose(r, steps[0], t, taken);
      RunKeepsToClose(Next(r, steps[0]), steps[1..], q, t, taken);
    }
  }

  /** However calls interleave: when UnsubscribeAll returns, every stream that it found in the map is closed; when
      Close does, every context is cancelled as well. */
  lemma UnsubscribeAllCloses(r: Registry, t: Thread, close: bool, steps: seq<Step>, q: Registry)
    requires MapSound(r) && t !in r.removers && t !in r.closing
    requires FreeRun(Next(r, UnsubscribesAll(t, close)), steps, q) && NoReturn(steps, t) && Enabled(q, RemoverReturns(t))
    ensures Next(r, UnsubscribesAll(t, close)).streams == map[]
    ensures var v := Next(q, RemoverReturns(t));
      && (forall request :: request in r.streams ==> r.streams[request] in v.info && v.info[r.streams[request]].closed)
      && t !in v.removers && t !in v.closing
      && v.rootDone == (close || q.rootDone) && (close ==> forall s :: s in v.info ==> v.info[s].done)
  {
    RunKeepsToClose(Next(r, UnsubscribesAll(t, close)), steps, q, t, r.streams.Values);
    hide FreeRun;
    forall request | request in r.streams ensures r.streams[request] in r.streams.Values {}
  }

  /** When Unsubscribe returns, the stream that it found under the id is closed; no other has left the map for it. */
  lemma UnsubscribeCloses(r: Registry, t: Thread, request: string, steps: seq<Step>, q: Registry)
    requires MapSound(r) && t !in r.removers && request in r.streams
    requires FreeRun(Next(r, Step.Unsubscribes(t, request)), steps, q) && NoReturn(steps, t) && Enabled(q, RemoverReturns(t))
    ensures Next(r, Step.Unsubscribes(t, request)).streams == r.streams - {request}
    ensures var v := Next(q, RemoverReturns(t)); r.streams[request] in v.info && v.info[r.streams[request]].closed
  {
    RunKeepsToClose(Next(r, Step.Unsubscribes(t, request)), steps, q, t, {r.streams[request]});
    hide FreeRun;
  }

  /** A remover gets done by closing its streams one after the other, whatever else is under way. */
  lemma {:induction false} RemoverFinishes(r: Registry, t: Thread) returns (steps: seq<Step>, q: Registry)
    requires t in r.removers
    ensures FreeRun(r, steps, q) && |steps| == |r.removers[t]| && Enabled(q, RemoverReturns(t))
    ensures q.streams == r.streams && q.callers == r.callers
    ensures forall i :: 0 <= i < |steps| ==> steps[i].RemoverCloses? && steps[i].thread == t
    decreases |r.removers[t]|
  {
    if r.removers[t] == {} {
      steps, q := [], r;
    } else {
      var s :| s in r.removers[t];
      var m := Next(r, RemoverCloses(t, s));
      assert m.removers[t] == r.removers[t] - {s} && m.streams == r.streams && m.callers == r.callers;
      hide Next;
      var rest, last := RemoverFinishes(m, t);
      steps, q := [RemoverCloses(t, s)] + rest, last;
      assert steps[1..] == rest;
    }
  }

  /** Only the streams taken are closed by a remover, and nothing but the return of Close cancels the service. */
  lemma RemoversCloseTheirOwn(r: Registry, step: Step, s: StreamId)
    requires Enabled(r, step) && s in r.info && !r.info[s].closed && Next(r, step).info[s].closed
    ensures match step
      case RemoverCloses(t, u) => s == u && s in r.removers[t]
      case ExistingCloses(t) => r.callers[t].existing == s
      case PreviousCloses(t) => r.callers[t].previous == s
      case StreamEnds(u) => s == u
      case _ => false
  {}

  /** A stream that ends by itself is closed, and stays in the map until someone takes it out. */
  lemma EndedStreamCloses(r: Registry, s: StreamId)
    requires s in r.info
    ensures var q := Next(r, StreamEnds(s)); q.info[s].closed && q == r.(info := r.info[s := q.info[s]])
  {}

  lemma OnlyCloseCancels(r: Registry, step: Step)
    requires Enabled(r, step)
    ensures Next(r, step).rootDone ==> r.rootDone || (step.RemoverReturns? && step.thread in r.closing)
    ensures forall t :: t in Next(r, step).closing ==> t in r.closing || step == UnsubscribesAll(t, true)
    ensures forall t, request :: step == Step.Unsubscribes(t, request) && request !in r.streams ==> Next(r, step) == r
  {}

  // ---------- the calls themselves ----------

  class Stream {
    const requestId: string
    const containerId: string
    const tail: nat         // what Docker was asked for
    const follow: bool
    var closed: bool
    var done: bool          // its context is cancelled
    var readerCloses: nat

    ghost predicate Valid() reads this {
      readerCloses == (if closed then 1 else 0) && (closed ==> done)
    }

    constructor (requestId: string, containerId: string, tail: nat, follow: bool, rootDone: bool)
      ensures Valid() && !closed && done == rootDone
      ensures this.requestId == requestId && this.containerId == containerId && this.tail == tail && this.follow == follow
    {
      this.requestId, this.containerId, this.tail, this.follow := requestId, containerId, tail, follow;
      closed, done, readerCloses := false, rootDone, 0;
    }

    /** However often it is called, the reader is closed once. */
    method Close()
      requires Valid()
      modifies this
      ensures Valid() && closed && readerCloses == 1
    {
      if closed { return; }
      closed := true;
      done := true;
      readerCloses := readerCloses + 1;
    }
  }

  /** The calls one after the other. `engine` and `emitter` say whether the service has been given them. */
  class Service {
    var engine: bool
    var emitter: bool
    var streams: map<string, Stream>
    var rootDone: bool

    ghost predicate Valid() reads this, streams.Values {
      forall id :: id in streams ==>
        streams[id].Valid() && streams[id].requestId == id && (rootDone ==> streams[id].done)
    }

    constructor (engine: bool)
      ensures Valid() && streams == map[] && !rootDone && !emitter && this.engine == engine
    {
      this.engine, emitter, streams, rootDone := engine, false, map[], false;
    }

    method SetEmitter()
      requires Valid()
      modifies this`emitter
      ensures Valid() && emitter
    {
      emitter := true;
    }

    /** `opens`: Docker's answer. The stream that had the id is closed even when the call then fails, and
        after a success exactly one open stream has it. */
    method Subscribe(requestId: string, containerId: string, tail: int, follow: bool, opens: bool) returns (ok: bool)
      requires Valid()
      modifies this`streams, if requestId in streams then {streams[requestId]} else {}
      ensures Valid()
      ensures ok <==> engine && emitter && requestId != "" && containerId != "" && opens
      ensures requestId in old(streams) ==> old(streams)[requestId].closed
      ensures streams.Keys - {requestId} == old(streams.Keys) - {requestId}
      ensures forall id :: id in old(streams) && id != requestId ==> id in streams && streams[id] == old(streams)[id]
      ensures requestId in streams <==> ok
      ensures ok ==> fresh(streams[requestId]) && !streams[requestId].closed
      ensures ok ==> streams[requestId].containerId == containerId && streams[requestId].follow == follow
      ensures ok ==> streams[requestId].tail == EffectiveTail(tail)
    {
      if requestId in streams {
        var existing := streams[requestId];
        streams := streams - {requestId};
        existing.Close();
      }
      if !engine { return false; }
      if !emitter { return false; }
      if requestId == "" || containerId == "" || !opens { return false; }
      var stream := new Stream(requestId, containerId, EffectiveTail(tail), follow, rootDone);
      // Nothing can have taken the id meanwhile: only the steps above let calls overlap.
      streams := streams[requestId := stream];
      ok := true;
    }

    method Unsubscribe(requestId: string) returns (ok: bool)
      requires Valid()
      modifies this`streams, if requestId in streams then {streams[requestId]} else {}
      ensures Valid()
      ensures ok <==> requestId != "" && requestId in old(streams)
      ensures streams == if ok then old(streams) - {requestId} else old(streams)
      ensures ok ==> old(streams)[requestId].closed
    {
      if requestId == "" || requestId !in streams { return false; }
      var stream := streams[requestId];
      streams := streams - {requestId};
      stream.Close();
      ok := true;
    }

    /** Every stream that was in the map is closed, its reader once. */
    method UnsubscribeAll()
      requires Valid()
      modifies this`streams, streams.Values
      ensures Valid() && streams == map[]
      ensures forall id :: id in old(streams) ==>
        old(streams)[id].Valid() && old(streams)[id].closed && old(streams)[id].readerCloses == 1
    {
      var taken := streams;
      var left := streams.Keys;
      streams := map[];
      while left != {}
        modifies taken.Values
        invariant left <= taken.Keys
        invariant forall id :: id in taken ==> taken[id].Valid() && (id !in left ==> taken[id].closed)
        decreases |left|
      {
        var id :| id in left;
        left := left - {id};
        taken[id].Close();
      }
    }

    method Close()
      requires Valid()
      modifies this`streams, this`rootDone, streams.Values
      ensures Valid() && rootDone && streams == map[]
      ensures forall id :: id in old(streams) ==>
        old(streams)[id].closed && old(streams)[id].done && old(streams)[id].readerCloses == 1
    {
      UnsubscribeAll();
      rootDone := true;
    }
  }
}
