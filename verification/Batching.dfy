/** One container log stream: a decoder goroutine, a bounded channel and the batching loop of
    apps/agent/internal/logs/stream.go. `select` is nondeterministic choice, so a run is any
    interleaving of the steps below. */
module Batching {
  import opened Prelude
  import opened Decode

  const DEFAULT_BATCH_SIZE: nat := 50

  function EffectiveBatchSize(batchSize: int): (size: nat)
    ensures size > 0 && (batchSize > 0 ==> size == batchSize)
  {
    if batchSize <= 0 then DEFAULT_BATCH_SIZE else batchSize
  }

  /** The loop's own data: the chunks given to the emitter, oldest first, and the batch being filled. */
  datatype Work = Work(handed: seq<seq<Entry>>, batch: seq<Entry>)

  function FlushWork(w: Work): Work {
    if w.batch == [] then w else Work(w.handed + [w.batch], [])
  }

  function TakeWork(w: Work, entry: Entry, size: nat): (t: Work)
    ensures if |w.batch| + 1 < size then t.handed == w.handed else t.batch == []
  {
    var taken := w.(batch := w.batch + [entry]);
    if |taken.batch| >= size then FlushWork(taken) else taken
  }

  /** The decoder goroutine: sending entries, past its last one, or gone with the channel closed. */
  datatype Decoder = Decoding | Closing | Finished

  datatype Exit = Drained | Failed | Cancelled

  datatype Stream = Stream(
    size: nat,                 // batchSize, after the default
    source: seq<Entry>,        // every entry the reader decodes to before it ends
    ending: Ending,
    pending: seq<Entry>,       // the part of source not yet sent to the channel
    decoder: Decoder,
    entries: seq<Entry>,       // the channel, of capacity 2 * size
    entriesClosed: bool,
    failure: bool,             // errCh holds an error
    cancelled: bool,           // ctx.Done() is closed
    work: Work,
    returned: Option<Exit>)

  function Open(size: nat, source: seq<Entry>, ending: Ending): Stream {
    Stream(size, source, ending, source, Decoding, [], false, false, false, Work([], []), None)
  }

  datatype Step =
    | DecoderSends | DecoderStops | DecoderEnds | DecoderCloses
    | LoopTakes | LoopDrained | LoopFails | LoopCancelled | LoopTicks
    | DeferredClose | Cancel

  ghost predicate Enabled(s: Stream, step: Step) {
    match step
    case DecoderSends => s.decoder.Decoding? && s.pending != [] && |s.entries| < 2 * s.size
    case DecoderStops => s.decoder.Decoding? && s.cancelled
    case DecoderEnds => s.decoder.Decoding? && s.pending == []
    case DecoderCloses => s.decoder.Closing?
    case LoopTakes => s.returned.None? && s.entries != []
    case LoopDrained => s.returned.None? && s.entries == [] && s.entriesClosed
    case LoopFails => s.returned.None? && s.failure
    case LoopCancelled => s.returned.None? && s.cancelled
    case LoopTicks => s.returned.None?
    case DeferredClose => s.returned.Some?
    case Cancel => true
  }

  function Flush(s: Stream): Stream {
    s.(work := FlushWork(s.work))
  }

  function Return(s: Stream, exit: Exit): Stream {
    Flush(s).(returned := Some(exit))
  }

  function Next(s: Stream, step: Step): Stream {
    match step
    case DecoderSends => if s.pending == [] then s else s.(entries := s.entries + [s.pending[0]], pending := s.pending[1..])
    case DecoderStops => s.(decoder := Closing)
    case DecoderEnds => s.(decoder := Closing, failure := s.failure || (s.ending.Broken? && !s.cancelled))
    case DecoderCloses => s.(decoder := Finished, entriesClosed := true)
    case LoopTakes =>
      if s.entries == [] then s
      else s.(work := TakeWork(s.work, s.entries[0], s.size), entries := s.entries[1..])
    case LoopDrained => Return(s, Drained)
    case LoopFails => Return(s, Failed)
    case LoopCancelled => Return(s, Cancelled)
    case LoopTicks => Flush(s)
    case DeferredClose => s.(cancelled := true)
    case Cancel => s.(cancelled := true)
  }

  ghost predicate Run(s: Stream, steps: seq<Step>, t: Stream)
    decreases |steps|
  {
    if steps == [] then s == t
    else Enabled(s, steps[0]) && Run(Next(s, steps[0]), steps[1..], t)
  }

  ghost predicate ChunksSized(chunks: seq<seq<Entry>>, size: nat) {
    forall i :: 0 <= i < |chunks| ==> 0 < |chunks[i]| <= size
  }

  /** Chunks are nonempty and no longer than a batch, and the batch has room. */
  ghost predicate WellSized(w: Work, size: nat) {
    ChunksSized(w.handed, size) && |w.batch| < size
  }

  /** Nothing decoded is lost, duplicated or reordered, and the buffers keep their bounds. */
  ghost predicate Conserved(s: Stream) {
    && s.source == Concat(s.work.handed) + (s.work.batch + (s.entries + s.pending))
    && WellSized(s.work, s.size) && |s.entries| <= 2 * s.size
    && (s.returned.Some? ==> s.work.batch == [])
    && (s.entriesClosed <==> s.decoder.Finished?)
    && (!s.decoder.Decoding? && s.pending != [] ==> s.cancelled)
    && (s.returned == Some(Drained) ==> s.entries == [] && s.entriesClosed)
    && (s.failure ==> !s.decoder.Decoding?)
  }

  lemma FlushConserves(w: Work, size: nat, rest: seq<Entry>)
    requires ChunksSized(w.handed, size) && |w.batch| <= size && size > 0
    ensures WellSized(FlushWork(w), size) && w.handed <= FlushWork(w).handed
    ensures Concat(FlushWork(w).handed) + (FlushWork(w).batch + rest) == Concat(w.handed) + (w.batch + rest)
  {
    ConcatSnoc(w.handed, w.batch);
    assert [] + rest == rest;
  }

  lemma TakeConserves(w: Work, size: nat, entries: seq<Entry>, pending: seq<Entry>)
    requires WellSized(w, size) && entries != []
    ensures var t := TakeWork(w, entries[0], size);
      && WellSized(t, size) && w.handed <= t.handed
      && Concat(t.handed) + (t.batch + (entries[1..] + pending)) == Concat(w.handed) + (w.batch + (entries + pending))
  {
    MoveHead(w.batch, entries, pending);
    if |w.batch| + 1 >= size {
      FlushConserves(w.(batch := w.batch + [entries[0]]), size, entries[1..] + pending);
    }
  }

  lemma MoveHead<T>(b: seq<T>, c: seq<T>, d: seq<T>)
    requires c != []
    ensures (b + [c[0]]) + (c[1..] + d) == b + (c + d)
  {
    assert [c[0]] + c[1..] == c;
  }

  lemma SendConserves(s: Stream)
    requires Conserved(s) && Enabled(s, DecoderSends)
    ensures Conserved(Next(s, DecoderSends))
  {
    MoveHead(s.entries, s.pending, []);
    assert s.pending[1..] + [] == s.pending[1..] && s.pending + [] == s.pending;
  }

  lemma StepConserves(s: Stream, step: Step)
    requires Conserved(s) && Enabled(s, step)
    ensures Conserved(Next(s, step)) && s.work.handed <= Next(s, step).work.handed
    ensures Next(s, step).source == s.source && Next(s, step).size == s.size
  {
    match step {
      case LoopTakes => TakeConserves(s.work, s.size, s.entries, s.pending);
      case DecoderSends => SendConserves(s);
      case LoopDrained => FlushConserves(s.work, s.size, s.entries + s.pending);
      case LoopFails => FlushConserves(s.work, s.size, s.entries + s.pending);
      case LoopCancelled => FlushConserves(s.work, s.size, s.entries + s.pending);
      case LoopTicks => FlushConserves(s.work, s.size, s.entries + s.pending);
      case _ =>
    }
  }

  /** Batching conserves entries in every interleaving, and a chunk once handed over never changes. */
  lemma {:induction false} BatchingConserves(s: Stream, steps: seq<Step>, t: Stream)
    requires Conserved(s) && Run(s, steps, t)
    ensures Conserved(t) && t.source == s.source && s.work.handed <= t.work.handed
    decreases |steps|
  {
    if steps != [] {
      StepConserves(s, steps[0]);
      BatchingConserves(Next(s, steps[0]), steps[1..], t);
    }
  }

  lemma OpenConserved(size: nat, source: seq<Entry>, ending: Ending)
    requires size > 0
    ensures Conserved(Open(size, source, ending))
  {
    assert Concat<Entry>([]) == [];
  }

  /** What the emitter has been given is always a prefix of what the reader decodes to; a loop that has
      returned gave it everything exactly when nothing is left in the channel or behind it; and a loop
      that drained the channel of an uncancelled stream left nothing. */
  lemma HandedOver(size: nat, source: seq<Entry>, ending: Ending, steps: seq<Step>, t: Stream)
    requires size > 0 && Run(Open(size, source, ending), steps, t)
    ensures Concat(t.work.handed) <= source
    ensures t.returned.Some? ==> (Concat(t.work.handed) == source <==> t.entries == [] && t.pending == [])
    ensures t.returned == Some(Drained) && !t.cancelled ==> Concat(t.work.handed) == source
  {
    OpenConserved(size, source, ending);
    BatchingConserves(Open(size, source, ending), steps, t);
  }

  /** The decoder had sent all there was, and the loop saw the channel closed and empty. */
  ghost predicate CleanlyDrained(s: Stream) { s.returned == Some(Drained) && s.pending == [] }

  lemma ConservedPrefix(s: Stream)
    requires Conserved(s)
    ensures Concat(s.work.handed) <= s.source
    ensures CleanlyDrained(s) ==> Concat(s.work.handed) == s.source
  {
    assert s.work.batch == [] && s.entries == [] && s.pending == [] ==>
      Concat(s.work.handed) + (s.work.batch + (s.entries + s.pending)) == Concat(s.work.handed);
  }

  lemma {:induction false} ReturnedForGood(s: Stream, steps: seq<Step>, t: Stream)
    requires s.returned.Some? && Run(s, steps, t)
    ensures t.work.handed == s.work.handed
    decreases |steps|
  {
    if steps != [] {
      ReturnedForGood(Next(s, steps[0]), steps[1..], t);
    }
  }

  /** What the channel still holds when a read error of an uncancelled stream is selected is all that is missing. */
  lemma FailingLeaves(s: Stream)
    requires Conserved(s) && Enabled(s, LoopFails) && !s.cancelled
    ensures s.source == Concat(Next(s, LoopFails).work.handed) + s.entries
  {
    StepConserves(s, LoopFails);
    hide WellSized, FlushWork;
    assert [] + (s.entries + []) == s.entries;
  }

  /** A read error that the loop selects loses entries exactly when it overtakes some in the channel: if
      nothing has cancelled the stream, everything decoded is handed over, then and for good, if and only if
      the channel was empty. */
  lemma FailingLosesIff(size: nat, source: seq<Entry>, ending: Ending, steps: seq<Step>, s: Stream, later: seq<Step>, t: Stream)
    requires size > 0 && Run(Open(size, source, ending), steps, s) && Enabled(s, LoopFails) && !s.cancelled
    requires Run(Next(s, LoopFails), later, t)
    ensures Concat(t.work.handed) == source <==> s.entries == []
  {
    OpenConserved(size, source, ending);
    hide Run, Conserved, Concat;
    BatchingConserves(Open(size, source, ending), steps, s);
    ReturnedForGood(Next(s, LoopFails), later, t);
    FailingLeaves(s);
  }

  /** A read error can overtake entries that are already in the channel: they are then never sent. */
  lemma ReadErrorDropsBufferedEntries(size: nat, e: Entry) returns (steps: seq<Step>, t: Stream)
    requires size > 0
    ensures Run(Open(size, [e], Broken), steps, t)
    ensures t.returned == Some(Failed) && !t.cancelled && t.work.handed == [] && t.entries == [e]
  {
    var s0 := Open(size, [e], Broken);
    var s1 := Next(s0, DecoderSends);
    var s2 := Next(s1, DecoderEnds);
    t := Next(s2, LoopFails);
    steps := [DecoderSends, DecoderEnds, LoopFails];
    assert Run(s2, [LoopFails], t) by { assert Run(t, [], t); assert [LoopFails][1..] == []; }
    assert steps[1..] == [DecoderEnds, LoopFails] && steps[1..][1..] == [LoopFails];
    assert Run(s1, steps[1..], t);
  }

  /** A tick hands over whatever has been taken: behind the chunks there is only what the loop has not received. */
  lemma TickHandsOver(size: nat, source: seq<Entry>, ending: Ending, steps: seq<Step>, s: Stream)
    requires size > 0 && Run(Open(size, source, ending), steps, s) && Enabled(s, LoopTicks)
    ensures var t := Next(s, LoopTicks);
      source == Concat(t.work.handed) + t.entries + t.pending && t.entries == s.entries && t.pending == s.pending
  {
    OpenConserved(size, source, ending);
    BatchingConserves(Open(size, source, ending), steps, s);
    StepConserves(s, LoopTicks);
    hide Run;
    var t := Next(s, LoopTicks);
    assert [] + (t.entries + t.pending) == t.entries + t.pending;
    Associate(Concat(t.work.handed), t.entries, t.pending);
  }

  // ---------- a stream that is left alone is handed over whole ----------

  /** The steps by which decoder and loop get on, apart from ticks. */
  ghost predicate Progress(step: Step) {
    step.DecoderSends? || step.DecoderEnds? || step.DecoderCloses? || step.LoopTakes? || step.LoopDrained?
  }

  /** How much is left to do. */
  ghost function LeftToDo(s: Stream): nat {
    3 * |s.pending| + 2 * |s.entries| + (match s.decoder case Decoding => 2 case Closing => 1 case Finished => 0)
    + (if s.returned.None? then 1 else 0)
  }

  /** A clean stream that nobody has cancelled. */
  ghost predicate LeftAlone(s: Stream) {
    Conserved(s) && s.ending.Eof? && !s.cancelled && !s.failure && s.returned in {None, Some(Drained)}
  }

  /** The progress steps of a run. */
  ghost function ProgressIn(steps: seq<Step>): nat {
    if steps == [] then 0 else (if Progress(steps[0]) then 1 else 0) + ProgressIn(steps[1..])
  }

  lemma ProgressMade(s: Stream, step: Step)
    requires LeftAlone(s) && Enabled(s, step) && (Progress(step) || step.LoopTicks?)
    ensures LeftAlone(Next(s, step))
    ensures LeftToDo(Next(s, step)) + (if Progress(step) then 1 else 0) <= LeftToDo(s)
  {
    StepConserves(s, step);
    hide Conserved, FlushWork, TakeWork;
  }

  lemma NothingToDo(s: Stream)
    requires LeftAlone(s) && forall step :: Progress(step) ==> !Enabled(s, step)
    ensures s.returned == Some(Drained) && Concat(s.work.handed) == s.source
  {
    assert s.size > 0;
    hide WellSized, Concat;
    assert !Enabled(s, DecoderSends) && !Enabled(s, DecoderEnds) && !Enabled(s, DecoderCloses);
    assert !Enabled(s, LoopTakes) && !Enabled(s, LoopDrained);
    assert s.returned == Some(Drained);
    assert s.work.batch + (s.entries + s.pending) == [];
  }

  /** Whichever of them comes first, and however many ticks come in between: a clean stream that is left alone
      gets done in a bounded number of steps, and when nothing is left to do its loop has returned and
      everything decoded has been handed over. */
  lemma {:induction false} LeftAloneDrains(s: Stream, steps: seq<Step>, t: Stream)
    requires LeftAlone(s) && Run(s, steps, t)
    requires forall i :: 0 <= i < |steps| ==> Progress(steps[i]) || steps[i].LoopTicks?
    ensures LeftAlone(t) && ProgressIn(steps) + LeftToDo(t) <= LeftToDo(s)
    ensures (forall step :: Progress(step) ==> !Enabled(t, step)) ==>
      t.returned == Some(Drained) && Concat(t.work.handed) == t.source
    decreases |steps|
  {
    if steps == [] {
      if forall step :: Progress(step) ==> !Enabled(t, step) {
        NothingToDo(t);
      }
    } else {
      var rest := steps[1..];
      assert forall i :: 0 <= i < |rest| ==> rest[i] == steps[i + 1];
      ProgressMade(s, steps[0]);
      LeftAloneDrains(Next(s, steps[0]), rest, t);
    }
  }

  /** From its opening on. */
  lemma OpenedStreamDrains(size: nat, source: seq<Entry>, steps: seq<Step>, t: Stream)
    requires size > 0 && Run(Open(size, source, Eof), steps, t)
    requires forall i :: 0 <= i < |steps| ==> Progress(steps[i]) || steps[i].LoopTicks?
    ensures ProgressIn(steps) <= 3 * |source| + 3
    ensures (forall step :: Progress(step) ==> !Enabled(t, step)) ==>
      t.returned == Some(Drained) && Concat(t.work.handed) == source
  {
    OpenConserved(size, source, Eof);
    hide Conserved, Run, Enabled, Concat, Progress, ProgressIn;
    LeftAloneDrains(Open(size, source, Eof), steps, t);
    BatchingConserves(Open(size, source, Eof), steps, t);
  }

  /** How far the stream's own goroutines are from having ended. */
  ghost function Remaining(s: Stream): nat {
    (if s.cancelled then 0 else 1) + (match s.decoder case Decoding => 4 case Closing => 2 case Finished => 0)
  }

  /** No goroutine leaks: no step moves the decoder away from its end, and once the loop has returned or
      the context is done, a step that brings it closer is enabled until it has ended, however full
      the channel is. */
  lemma NoDecoderLeak(s: Stream, step: Step)
    ensures Remaining(Next(s, step)) <= Remaining(s) || !Enabled(s, step)
    ensures (s.returned.Some? || s.cancelled) && !s.decoder.Finished? ==>
      exists own :: own in [DeferredClose, DecoderStops, DecoderCloses]
        && Enabled(s, own) && Remaining(Next(s, own)) < Remaining(s)
  {
    if (s.returned.Some? || s.cancelled) && !s.decoder.Finished? {
      var own := if !s.cancelled then DeferredClose else if s.decoder.Decoding? then DecoderStops else DecoderCloses;
      assert own in [DeferredClose, DecoderStops, DecoderCloses];
      assert Enabled(s, own) && Remaining(Next(s, own)) < Remaining(s);
    }
  }

  lemma {:induction false} StaysCancelled(s: Stream, steps: seq<Step>, t: Stream)
    requires s.cancelled && Run(s, steps, t)
    ensures t.cancelled
    decreases |steps|
  {
    if steps != [] {
      StaysCancelled(Next(s, steps[0]), steps[1..], t);
    }
  }

  /** Once its context is cancelled a stream can only come to a stop with its loop returned and its decoder gone,
      however much there is left to decode; and the same goes for closing it when its loop returns. */
  lemma CancelledEnds(s: Stream, step: Step, steps: seq<Step>, t: Stream)
    requires step.Cancel? || step.DeferredClose?
    requires Run(Next(s, step), steps, t)
    requires !Enabled(t, LoopCancelled) && !Enabled(t, DecoderStops) && !Enabled(t, DecoderCloses)
    ensures t.returned.Some? && t.decoder.Finished?
  {
    StaysCancelled(Next(s, step), steps, t);
  }

  // ---------- the loop over a reused batch array ----------

  datatype LoopEvent = Got(entry: Entry) | Tick | ChannelClosed | ReadError | ContextDone

  /** The entries among the events the loop has seen. */
  ghost function Received(events: seq<LoopEvent>): seq<Entry> {
    if events == [] then []
    else
      var last := events[|events| - 1];
      Received(events[..|events| - 1]) + (if last.Got? then [last.entry] else [])
  }

  /** None of the events ends the loop. */
  ghost predicate NoExit(events: seq<LoopEvent>) {
    events == [] || ((events[|events| - 1].Got? || events[|events| - 1].Tick?) && NoExit(events[..|events| - 1]))
  }

  lemma ReceivedOneMore(events: seq<LoopEvent>, n: nat)
    requires n < |events|
    ensures Received(events[..n + 1]) == Received(events[..n]) + (if events[n].Got? then [events[n].entry] else [])
    ensures NoExit(events[..n + 1]) <==> NoExit(events[..n]) && (events[n].Got? || events[n].Tick?)
    ensures events[..n + 1][..n] == events[..n]
  {
    assert events[..n + 1][..n] == events[..n];
  }

  ghost function Contents(chunks: seq<array<Entry>>): (r: seq<seq<Entry>>)
    reads chunks
    ensures |r| == |chunks|
  {
    if chunks == [] then [] else Contents(chunks[..|chunks| - 1]) + [chunks[|chunks| - 1][..]]
  }

  lemma FlushTaken(w: Work, size: nat)
    requires ChunksSized(w.handed, size) && |w.batch| <= size && size > 0
    ensures WellSized(FlushWork(w), size)
    ensures Concat(FlushWork(w).handed) + FlushWork(w).batch == Concat(w.handed) + w.batch
  {
    FlushConserves(w, size, []);
    assert FlushWork(w).batch + [] == FlushWork(w).batch && w.batch + [] == w.batch;
  }

  /** At every tick that the loop has seen, all that it had received by then was handed over. */
  ghost predicate HandedAtTicks(events: seq<LoopEvent>, seen: nat, before: seq<Entry>, handed: seq<Entry>)
    requires seen <= |events|
  {
    forall k :: 0 <= k < seen && events[k].Tick? ==> before + Received(events[..k]) <= handed
  }

  lemma OneMoreTick(events: seq<LoopEvent>, n: nat, before: seq<Entry>, was: seq<Entry>, now: seq<Entry>, batch: seq<Entry>)
    requires n < |events| && HandedAtTicks(events, n, before, was) && was <= now
    requires events[n].Tick? ==> batch == [] && now + batch == before + Received(events[..n])
    ensures HandedAtTicks(events, n + 1, before, now)
  {
    hide Received;
    assert now + [] == now;
  }

  lemma ConcatPrefix(a: seq<seq<Entry>>, b: seq<seq<Entry>>)
    requires a <= b
    ensures Concat(a) <= Concat(b)
  {
    assert b == a + b[|a|..];
    ConcatAppend(a, b[|a|..]);
  }

  class BatchLoop {
    const batch: array<Entry>
    var used: nat
    var handed: seq<array<Entry>>

    ghost predicate Valid()
      reads this, handed, batch
    {
      used < batch.Length && batch !in handed && WellSized(Done(), batch.Length)
    }

    ghost function Done(): Work
      requires used <= batch.Length
      reads this, handed, batch
    {
      Work(Contents(handed), batch[..used])
    }

    /** Everything taken so far: the chunks handed over, then the batch. */
    ghost function Taken(): seq<Entry>
      requires used <= batch.Length
      reads this, handed, batch
    {
      Concat(Done().handed) + Done().batch
    }

    constructor (batchSize: int)
      ensures Valid() && Done() == Work([], []) && fresh(batch)
      ensures batch.Length == if batchSize > 0 then batchSize else 50
    {
      batch := new Entry[EffectiveBatchSize(batchSize)];
      used, handed := 0, [];
    }

    method CopyBatch() returns (chunk: array<Entry>)
      requires used <= batch.Length
      ensures fresh(chunk) && chunk[..] == batch[..used]
    {
      chunk := new Entry[used](i requires 0 <= i < used <= batch.Length reads this, batch => batch[i]);
    }

    method Flush()
      requires 0 < batch.Length && used <= batch.Length && batch !in handed
      requires ChunksSized(Done().handed, batch.Length)
      modifies `used, `handed
      ensures Valid() && used == 0 && old(handed) <= handed
      ensures Done() == FlushWork(old(Done())) && Taken() == old(Taken())
    {
      if used == 0 {
        return;
      }
      hide ChunksSized, Concat;
      ghost var was := Done();
      var chunk := CopyBatch();
      assert Contents(handed) == was.handed;
      ghost var previous := handed;
      handed := handed + [chunk];
      used := 0;
      assert handed[..|handed| - 1] == previous && handed[|handed| - 1] == chunk;
      assert Contents(handed) == was.handed + [was.batch];
      assert batch[..used] == [];
      FlushTaken(was, batch.Length);
    }

    method Take(entry: Entry)
      requires Valid()
      modifies `used, `handed, batch
      ensures Valid() && old(handed) <= handed
      ensures Done() == TakeWork(old(Done()), entry, batch.Length) && Taken() == old(Taken()) + [entry]
    {
      ghost var before := Contents(handed);
      batch[used] := entry;
      used := used + 1;
      assert Contents(handed) == before;
      assert batch[..used] == old(batch[..used]) + [entry];
      if used >= batch.Length {
        Flush();
      }
    }

    /** One round of the select, for the case that happened to be chosen. */
    method Handle(event: LoopEvent) returns (exit: Option<Exit>)
      requires Valid()
      modifies `used, `handed, batch
      ensures Valid() && old(handed) <= handed
      ensures Taken() == old(Taken()) + (if event.Got? then [event.entry] else [])
      ensures exit == (match event case ChannelClosed => Some(Drained) case ReadError => Some(Failed)
                                   case ContextDone => Some(Cancelled) case _ => None)
      ensures exit.Some? || event.Tick? ==> used == 0
      ensures old(Done().handed) <= Done().handed
    {
      exit := None;
      match event {
        case Got(entry) => Take(entry);
        case Tick => Flush();
        case ChannelClosed => Flush(); exit := Some(Drained);
        case ReadError => Flush(); exit := Some(Failed);
        case ContextDone => Flush(); exit := Some(Cancelled);
      }
    }

    /** The select loop, driven by the events it happens to receive, in order. The array is reused for
        every batch; the frame leaves out every chunk already handed over, so none of them changes. */
    method Run(events: seq<LoopEvent>) returns (exit: Option<Exit>, seen: nat)
      requires Valid()
      modifies `used, `handed, batch
      ensures Valid() && old(handed) <= handed
      ensures seen <= |events| && Taken() == old(Taken()) + Received(events[..seen])
      ensures exit.None? ==> seen == |events| && NoExit(events)
      ensures exit.Some? ==> used == 0 && seen > 0 && NoExit(events[..seen - 1])
      ensures HandedAtTicks(events, seen, old(Taken()), Concat(Done().handed))
      ensures exit.Some? ==>
        events[seen - 1] == (match exit.value case Drained => ChannelClosed case Failed => ReadError
                                              case Cancelled => ContextDone)
    {
      ghost var before := Taken();
      seen, exit := 0, None;
      assert events[..0] == [] && before + Received([]) == before && NoExit([]);
      hide Received, NoExit, Concat, ChunksSized, HandedAtTicks;
      while seen < |events|
        invariant Valid() && old(handed) <= handed && seen <= |events| && exit.None?
        invariant Taken() == before + Received(events[..seen])
        invariant NoExit(events[..seen])
        invariant HandedAtTicks(events, seen, before, Concat(Done().handed))
      {
        ReceivedOneMore(events, seen);
        ghost var was := Done().handed;
        Associate(before, Received(events[..seen]), if events[seen].Got? then [events[seen].entry] else []);
        exit := Handle(events[seen]);
        ConcatPrefix(was, Done().handed);
        assert events[seen].Tick? ==> Done().batch == [];
        OneMoreTick(events, seen, before, Concat(was), Concat(Done().handed), Done().batch);
        seen := seen + 1;
        if exit.Some? {
          return;
        }
      }
      assert events[..seen] == events;
    }
  }
}
