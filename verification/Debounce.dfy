/** The debounced Docker-event pipeline of one agent session: apps/agent/internal/communication/client.go,
    the event goroutine, the timer callbacks and the select loop of `serve`. Time is abstract: an armed
    timer may fire at any moment. */
module Debounce {

  /** The event goroutine: waiting for a message, or holding one before and after stopping the old timer. */
  datatype Reader = Waiting | Received | TimerStopped

  datatype Pipeline = Pipeline(
    reader: Reader,
    armed: bool,      // the current debounceTimer has not fired
    firing: nat,      // callbacks that have started and not yet reached their select
    full: bool,       // eventsCh, of capacity one, holds its token
    taken: bool)      // the loop has received the token and not yet listed

  const START: Pipeline := Pipeline(Waiting, false, 0, false, false)

  datatype Step =
    | EventArrives | OldTimerStops | TimerArms | TimerFires | CallbackRuns | LoopTakes | LoopLists
    | ServerAsksForList

  ghost predicate Enabled(p: Pipeline, step: Step) {
    match step
    case EventArrives => p.reader.Waiting?
    case OldTimerStops => p.reader.Received?
    case TimerArms => p.reader.TimerStopped?
    case TimerFires => p.armed
    case CallbackRuns => p.firing > 0
    case LoopTakes => p.full && !p.taken
    case LoopLists => p.taken
    case ServerAsksForList => !p.taken
  }

  function Next(p: Pipeline, step: Step): Pipeline
    requires Enabled(p, step)
  {
    match step
    case EventArrives => p.(reader := Received)
    // Stop() comes too late for a timer that has fired: its callback still runs.
    case OldTimerStops => p.(reader := TimerStopped, armed := false)
    case TimerArms => p.(reader := Waiting, armed := true)
    case TimerFires => p.(armed := false, firing := p.firing + 1)
    // A full channel takes the default branch: the token already there stands for this event too.
    case CallbackRuns => p.(firing := p.firing - 1, full := true)
    case LoopTakes => p.(full := false, taken := true)
    case LoopLists => p.(taken := false)
    case ServerAsksForList => p
  }

  /** The steps can be taken, one after another, from the start of a session. */
  ghost predicate Happens(steps: seq<Step>)
    decreases |steps|, 0
  {
    steps == [] || (Happens(Front(steps)) && Enabled(After(Front(steps)), Last(steps)))
  }

  /** What the pipeline is like then. */
  ghost function After(steps: seq<Step>): Pipeline
    requires Happens(steps)
    decreases |steps|, 1
  {
    if steps == [] then START else Next(After(Front(steps)), Last(steps))
  }

  ghost function Front(steps: seq<Step>): (front: seq<Step>)
    requires steps != []
    ensures |front| == |steps| - 1
  {
    steps[..|steps| - 1]
  }

  ghost function Last(steps: seq<Step>): Step
    requires steps != []
  {
    steps[|steps| - 1]
  }

  ghost function Count(steps: seq<Step>, step: Step): nat
    decreases |steps|
  {
    if steps == [] then 0 else Count(Front(steps), step) + if Last(steps) == step then 1 else 0
  }

  // ---------- no wakeup is lost ----------

  ghost predicate Lists(step: Step) { step.LoopLists? || step.ServerAsksForList? }

  /** Step `i` is an event that no container listing has followed. */
  ghost predicate UnlistedAt(steps: seq<Step>, i: nat) {
    i < |steps| && steps[i].EventArrives? && forall j :: i < j < |steps| ==> !Lists(steps[j])
  }

  ghost predicate WakeupPending(p: Pipeline) {
    !p.reader.Waiting? || p.armed || p.firing > 0 || p.full || p.taken
  }

  /** In every run, an event that no listing has followed yet has a wakeup under way. */
  lemma {:induction false} NoLostWakeup(steps: seq<Step>, i: nat)
    requires Happens(steps) && UnlistedAt(steps, i)
    ensures WakeupPending(After(steps))
    decreases |steps|
  {
    assert !Lists(Last(steps)) || i == |steps| - 1;
    if i < |steps| - 1 {
      NoLostWakeup(Front(steps), i);
    }
  }

  ghost function One(b: bool): nat { if b then 1 else 0 }

  ghost predicate Counted(p: Pipeline, lists: nat, fires: nat, arms: nat, events: nat) {
    && lists + One(p.taken) + One(p.full) + p.firing <= fires
    && fires + One(p.armed) <= arms
    && arms + One(!p.reader.Waiting?) == events
    && (p.reader.TimerStopped? ==> !p.armed)
  }

  lemma StartCounts()
    ensures Counted(START, 0, 0, 0, 0)
  {}

  lemma StepCounts(p: Pipeline, step: Step, lists: nat, fires: nat, arms: nat, events: nat)
    requires Enabled(p, step) && Counted(p, lists, fires, arms, events)
    ensures Counted(Next(p, step), lists + One(step.LoopLists?), fires + One(step.TimerFires?), arms + One(step.TimerArms?),
                    events + One(step.EventArrives?))
  {}

  lemma {:induction false} CountsHold(steps: seq<Step>)
    requires Happens(steps)
    ensures Counted(After(steps), Count(steps, LoopLists), Count(steps, TimerFires), Count(steps, TimerArms),
                    Count(steps, EventArrives))
    decreases |steps|
  {
    hide Next, Enabled, Counted;
    StartCounts();
    if steps != [] {
      var before := Front(steps);
      CountsHold(before);
      StepCounts(After(before), Last(steps), Count(before, LoopLists), Count(before, TimerFires), Count(before, TimerArms),
                 Count(before, EventArrives));
    }
  }

  /** In every run: the loop lists at most once for each timer that fired, however many events came before it,
      and timers fire at most once for each event. */
  lemma ListingsCounted(steps: seq<Step>)
    requires Happens(steps)
    ensures Count(steps, LoopLists) <= Count(steps, TimerFires) <= Count(steps, TimerArms) <= Count(steps, EventArrives)
  {
    CountsHold(steps);
    hide Count, After, Happens;
  }

  /** In every run: once a new event has stopped the old timer, no timer fires until the new one is armed. */
  lemma {:induction false} StoppedTimerRests(steps: seq<Step>, i: nat, k: nat)
    requires Happens(steps) && i < k < |steps| && steps[i].OldTimerStops? && steps[k].TimerFires?
    ensures exists j :: i < j < k && steps[j].TimerArms?
    decreases |steps|
  {
    if k < |steps| - 1 {
      StoppedTimerRests(Front(steps), i, k);
      var j :| i < j < k && Front(steps)[j].TimerArms?;
      assert steps[j].TimerArms?;
    } else {
      ArmedSince(Front(steps), i);
    }
  }

  lemma {:induction false} ArmedSince(steps: seq<Step>, i: nat)
    requires Happens(steps) && i < |steps| && steps[i].OldTimerStops?
    ensures (After(steps).reader.TimerStopped? && !After(steps).armed) || exists j :: i < j < |steps| && steps[j].TimerArms?
    decreases |steps|
  {
    if i < |steps| - 1 {
      ArmedSince(Front(steps), i);
      if j :| i < j < |steps| - 1 && Front(steps)[j].TimerArms? {
        assert steps[j].TimerArms?;
      }
    }
  }

  // ---------- and the pipeline comes to rest ----------

  ghost predicate Own(step: Step) { !step.EventArrives? && !step.ServerAsksForList? }

  /** How much the pipeline still has to do if nothing else happens. */
  ghost function Rank(p: Pipeline): nat {
    (match p.reader case Waiting => 0 case Received => 8 case TimerStopped => 7)
    + 6 * One(p.armed) + 4 * p.firing + 3 * One(p.full) + 2 * One(p.taken)
  }

  ghost predicate AtRest(p: Pipeline) { forall step :: Own(step) ==> !Enabled(p, step) }

  lemma RestMeansIdle(p: Pipeline)
    requires AtRest(p)
    ensures !WakeupPending(p)
  {
    assert !Enabled(p, OldTimerStops) && !Enabled(p, TimerArms) && !Enabled(p, TimerFires);
    assert !Enabled(p, CallbackRuns) && !Enabled(p, LoopTakes) && !Enabled(p, LoopLists);
  }

  /** Once events stop, the pipeline works itself to rest in at most Rank steps, whichever it takes, and at rest
      every event has been followed by a listing. */
  lemma {:induction false} ComesToRest(steps: seq<Step>, more: seq<Step>)
    requires Happens(steps + more) && forall i :: 0 <= i < |more| ==> Own(more[i])
    ensures Happens(steps) && |more| + Rank(After(steps + more)) <= Rank(After(steps))
    ensures AtRest(After(steps + more)) ==> forall i :: !UnlistedAt(steps + more, i)
    decreases |more|
  {
    var all := steps + more;
    if more == [] {
      assert all == steps;
    } else {
      assert Front(all) == steps + Front(more) && Last(all) == Last(more);
      ComesToRest(steps, Front(more));
    }
    if AtRest(After(all)) {
      RestMeansIdle(After(all));
      forall i | UnlistedAt(all, i) ensures false {
        NoLostWakeup(all, i);
      }
    }
  }
}
