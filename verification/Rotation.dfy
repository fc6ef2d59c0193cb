/** The agent's size-rotated log: apps/agent/internal/logger/rotate.go.

    Generation 0 is the current file and generation i is the file with suffix `.i`. A file is the
    sequence of writes it holds, so that a write that is split or moved out of order shows; what was
    on disk when the log was opened counts as one write. */
module Rotation {
  import opened Prelude
  import opened Decode

  type File = seq<Text>
  type Disk = map<nat, File>

  function Size(file: File): nat { |Concat(file)| }

  /** What the operating system does with the calls of one Write. */
  datatype OpenOutcome = Opened | OpenFails | StatFails
  datatype Faults = Faults(closeFails: bool, removeFails: bool, stuck: set<nat>, currentStuck: bool,
                           open: OpenOutcome, accepted: nat)

  datatype Log = Log(disk: Disk, usable: bool, size: nat)

  // ---------- the specification ----------

  function Open(log: Log, outcome: OpenOutcome): Log {
    match outcome
    case OpenFails => log
    case StatFails => log.(disk := Created(log.disk))
    case Opened => Log(Created(log.disk), true, Size(Created(log.disk)[0]))
  }

  function Created(disk: Disk): Disk { if 0 in disk then disk else disk[0 := []] }

  /** Opening creates the current file if it is not there, touches no other, and leaves the descriptor alone when
      it fails, even if it fails after that. */
  lemma OpenCreates(log: Log, outcome: OpenOutcome)
    ensures var after := Open(log, outcome);
      && (outcome.OpenFails? || 0 in log.disk ==> after.disk == log.disk)
      && (!outcome.OpenFails? && 0 !in log.disk ==> after.disk == log.disk[0 := []])
      && after.usable == (outcome.Opened? || log.usable)
      && (if outcome.Opened? then 0 in after.disk && after.size == |Concat(after.disk[0])| else after.size == log.size)
  {}

  /** os.Rename of generation `index` to `index + 1`: replaces the target, fails if stuck or missing. */
  function Rename(disk: Disk, index: nat, stuck: set<nat>): Disk {
    if index in disk && index !in stuck then (disk - {index})[index + 1 := disk[index]] else disk
  }

  /** The renames of generations `from`, `from - 1`, ... 1, in that order. */
  function ShiftUp(disk: Disk, from: nat, stuck: set<nat>): Disk
    decreases from
  {
    if from == 0 then disk else ShiftUp(Rename(disk, from, stuck), from - 1, stuck)
  }

  function Remove(disk: Disk, index: nat, fails: bool): Disk {
    if fails then disk else disk - {index}
  }

  /** The rotated generations once the oldest is dropped and the rest have moved up. */
  function Shifted(disk: Disk, keep: nat, f: Faults): Disk
    requires keep > 0
  {
    ShiftUp(Remove(disk, keep, f.removeFails), keep - 1, f.stuck)
  }

  function Rotate(log: Log, keep: nat, f: Faults): (Log, bool)
    requires keep > 0
  {
    var closed := log.(usable := false);
    if !log.usable || f.closeFails then (closed, false)
    else
      var shifted := closed.(disk := Shifted(log.disk, keep, f));
      if 0 in shifted.disk && f.currentStuck then (Open(shifted, f.open), false)
      else (Open(shifted.(disk := Rename(shifted.disk, 0, {})), f.open), f.open.Opened?)
  }

  function Append(log: Log, p: Text, f: Faults): (Log, nat) {
    if !log.usable || 0 !in log.disk then (log, 0)
    else
      var n := if f.accepted < |p| then f.accepted else |p|;
      (Log(log.disk[0 := log.disk[0] + [p[..n]]], true, log.size + n), n)
  }

  predicate NeedsRotation(log: Log, p: Text, maxBytes: nat) { log.size + |p| > maxBytes }

  /** The log a line is appended to. */
  function Target(log: Log, p: Text, maxBytes: nat, keep: nat, f: Faults): Log
    requires keep > 0
  {
    if NeedsRotation(log, p, maxBytes) then Rotate(log, keep, f).0 else log
  }

  function Written(log: Log, p: Text, maxBytes: nat, keep: nat, f: Faults): (Log, nat)
    requires keep > 0
  {
    Append(Target(log, p, maxBytes, keep, f), p, f)
  }

  // ---------- the class ----------

  class RotatingFile {
    const maxBytes: nat
    const keep: nat
    var disk: Disk
    var usable: bool  // the descriptor in `file` is open
    var size: nat

    ghost function State(): Log reads this { Log(disk, usable, size) }

    constructor (maxBytes: nat, keep: nat, disk: Disk)
      ensures this.maxBytes == maxBytes && this.keep == keep
      ensures State() == Log(disk, false, 0)
    {
      this.maxBytes, this.keep, this.disk, this.usable, this.size := maxBytes, keep, disk, false, 0;
    }

    method OpenFile(outcome: OpenOutcome) returns (ok: bool)
      modifies this
      ensures State() == Open(old(State()), outcome) && ok == outcome.Opened?
    {
      if outcome.OpenFails? {
        return false;
      }
      if 0 !in disk {
        disk := disk[0 := []];
      }
      if outcome.StatFails? {
        return false;
      }
      usable, size := true, Size(disk[0]);
      return true;
    }

    method RotateFiles(f: Faults) returns (ok: bool)
      requires keep > 0
      modifies this
      ensures (State(), ok) == Rotate(old(State()), keep, f)
    {
      var wasUsable := usable;
      usable := false;
      if !wasUsable || f.closeFails {
        return false;
      }
      if !f.removeFails {
        disk := disk - {keep};
      }
      var index := keep - 1;
      while index >= 1
        invariant 0 <= index < keep
        invariant !usable && size == old(size)
        invariant ShiftUp(disk, index, f.stuck) == Shifted(old(disk), keep, f)
      {
        if index in disk && index !in f.stuck {
          disk := (disk - {index})[index + 1 := disk[index]];
        }
        index := index - 1;
      }
      if 0 in disk {
        if f.currentStuck {
          var _ := OpenFile(f.open);
          return false;
        }
        disk := (disk - {0})[1 := disk[0]];
      }
      ok := OpenFile(f.open);
    }

    /** `ok`: no error, as os.File has it: the descriptor is open and took everything. */
    method AppendToFile(p: Text, f: Faults) returns (n: nat, ok: bool)
      modifies this
      ensures (State(), n) == Append(old(State()), p, f)
      ensures ok <==> old(usable) && 0 in old(disk) && n == |p|
    {
      if !usable || 0 !in disk {
        return 0, false;
      }
      n := if f.accepted < |p| then f.accepted else |p|;
      disk := disk[0 := disk[0] + [p[..n]]];
      size := size + n;
      ok := n == |p|;
    }

    /** A rotation that fails is not an error of its own: no error is returned exactly when all of the line
        went to the descriptor that is open then. */
    method Write(p: Text, f: Faults) returns (n: nat, ok: bool)
      requires keep > 0
      modifies this
      ensures (State(), n) == Written(old(State()), p, maxBytes, keep, f)
      ensures var target := Target(old(State()), p, maxBytes, keep, f);
        ok <==> target.usable && 0 in target.disk && n == |p|
    {
      if size + |p| > maxBytes {
        var rotated := RotateFiles(f);
        if !rotated {
          n, ok := AppendToFile(p, f);
          return;
        }
      }
      n, ok := AppendToFile(p, f);
    }

    /** The files stay as they are, and nothing written afterwards is ever stored. */
    method Close()
      modifies this
      ensures State() == old(State()).(usable := false)
      ensures keep > 0 ==> forall calls: seq<Call> :: WriteAll(State(), calls, maxBytes, keep).disk == old(disk)
    {
      usable := false;
      if keep > 0 {
        forall calls: seq<Call> ensures WriteAll(State(), calls, maxBytes, keep) == State() {
          ClosedForEver(State(), calls, maxBytes, keep);
        }
      }
    }
  }

  // ---------- history ----------

  function At(disk: Disk, generation: nat): File {
    if generation in disk then disk[generation] else []
  }

  /** Generations `top`, `top - 1`, ... 0, read from the oldest write to the newest. */
  function Retained(disk: Disk, top: nat): File {
    if top == 0 then At(disk, 0) else At(disk, top) + Retained(disk, top - 1)
  }

  /** The writes the log has taken: those before, and this one if there was a descriptor to write to. */
  function HistoryAfter(history: File, log: Log, p: Text, maxBytes: nat, keep: nat, f: Faults): File
    requires keep > 0
  {
    var target := Target(log, p, maxBytes, keep, f);
    if target.usable && 0 in target.disk then history + [p[..Append(target, p, f).1]] else history
  }

  predicate Moves(disk: Disk, index: nat, f: Faults) {
    index in disk && (if index == 0 then !f.currentStuck else index !in f.stuck)
  }

  /** The generations a rotation overwrites or removes: the oldest, and any that could not be moved away
      before the next younger one was renamed onto it. */
  function Lost(log: Log, keep: nat, f: Faults): set<nat>
    requires keep > 0
  {
    if !log.usable || f.closeFails then {}
    else set i | i in log.disk && Overwritten(log.disk, i, keep, f)
  }

  predicate Overwritten(disk: Disk, i: nat, keep: nat, f: Faults) {
    1 <= i <= keep
    && (if i == keep then !f.removeFails || Moves(disk, i - 1, f) else i in f.stuck && Moves(disk, i - 1, f))
  }

  /** Nothing that is lost is newer than something that is kept. */
  ghost predicate OnlyOldestLost(disk: Disk, lost: set<nat>, top: nat) {
    forall i, j :: i in lost && i in disk && i < j <= top && j in disk && j !in lost ==> disk[i] == [] || disk[j] == []
  }

  lemma {:induction false} RetainedAlike(a: Disk, b: Disk, top: nat)
    requires forall i :: 0 <= i <= top ==> At(a, i) == At(b, i)
    ensures Retained(a, top) == Retained(b, top)
  {
    if top > 0 {
      RetainedAlike(a, b, top - 1);
    }
  }

  /** Renaming into a free slot keeps the reading order. */
  lemma {:induction false} RenameKeepsOrder(disk: Disk, index: nat, stuck: set<nat>, top: nat)
    requires index < top && (index in disk && index !in stuck ==> index + 1 !in disk)
    ensures Retained(Rename(disk, index, stuck), top) == Retained(disk, top)
  {
    var moved := Rename(disk, index, stuck);
    if top > index + 1 {
      RenameKeepsOrder(disk, index, stuck, top - 1);
    } else if index > 0 {
      RetainedAlike(moved, disk, index - 1);
      Associate(At(moved, top), At(moved, index), Retained(disk, index - 1));
      Associate(At(disk, top), At(disk, index), Retained(disk, index - 1));
    }
  }

  /** The generations that the renames of `from`, ... 1 land on. */
  function ShiftLost(disk: Disk, from: nat, stuck: set<nat>): set<nat> {
    set i | i in disk && LandedOn(disk, i, from, stuck)
  }

  predicate LandedOn(disk: Disk, i: nat, from: nat, stuck: set<nat>) {
    2 <= i <= from + 1 && (i == from + 1 || i in stuck) && i - 1 in disk && i - 1 !in stuck
  }

  /** Renaming onto a generation loses that one and keeps the reading order of the others. */
  lemma RenameLoses(disk: Disk, index: nat, stuck: set<nat>, others: set<nat>, top: nat)
    requires index < top && index in disk && index !in stuck && index !in others && index + 1 !in others
    ensures Retained(Rename(disk, index, stuck) - others, top) == Retained(disk - others - {index + 1}, top)
  {
    var free := disk - others - {index + 1};
    assert Rename(disk, index, stuck) - others == Rename(free, index, stuck);
    RenameKeepsOrder(free, index, stuck, top);
  }

  /** Highest first: each rename of the loop lands on a free generation, on the one past the last, or on one
      that is stuck. */
  lemma {:induction false} ShiftLoses(disk: Disk, from: nat, stuck: set<nat>, keep: nat)
    requires from < keep
    ensures Retained(ShiftUp(disk, from, stuck), keep) == Retained(disk - ShiftLost(disk, from, stuck), keep)
    decreases from
  {
    hide Retained;
    if from == 0 {
      assert disk - ShiftLost(disk, 0, stuck) == disk;
    } else {
      var moved := Rename(disk, from, stuck);
      var others := ShiftLost(moved, from - 1, stuck);
      ShiftLoses(moved, from - 1, stuck, keep);
      if from in disk && from !in stuck {
        RenameLoses(disk, from, stuck, others, keep);
        assert disk - others - {from + 1} == disk - ShiftLost(disk, from, stuck);
      } else {
        assert others == ShiftLost(disk, from, stuck);
      }
    }
  }

  /** A generation `.1` that stays where it is plays no part in the loop. */
  lemma {:induction false} ShiftWithoutFirst(disk: Disk, from: nat, stuck: set<nat>)
    requires from == 0 || 1 in stuck
    ensures ShiftUp(disk - {1}, from, stuck) == ShiftUp(disk, from, stuck) - {1}
    ensures ShiftLost(disk - {1}, from, stuck) == ShiftLost(disk, from, stuck)
    decreases from
  {
    if from > 0 {
      assert Rename(disk - {1}, from, stuck) == Rename(disk, from, stuck) - {1};
      ShiftWithoutFirst(Rename(disk, from, stuck), from - 1, stuck);
    }
  }

  lemma {:induction false} ShiftVacates(disk: Disk, from: nat, stuck: set<nat>)
    ensures 0 in ShiftUp(disk, from, stuck) <==> 0 in disk
    ensures 1 in ShiftUp(disk, from, stuck) <==> 1 in disk && (from == 0 || 1 in stuck)
    decreases from
  {
    if from > 0 {
      ShiftVacates(Rename(disk, from, stuck), from - 1, stuck);
    }
  }

  lemma CreatedKeepsOrder(disk: Disk, keep: nat)
    ensures Retained(Created(disk), keep) == Retained(disk, keep)
  {
    RetainedAlike(Created(disk), disk, keep);
  }

  /** The current file is moved onto `.1`, or stays. */
  lemma CurrentMoves(removed: Disk, keep: nat, f: Faults)
    requires keep > 0
    ensures var shifted := ShiftUp(removed, keep - 1, f.stuck); var lost := ShiftLost(removed, keep - 1, f.stuck);
      var last := if Moves(removed, 0, f) && (keep == 1 || 1 in f.stuck) then {1} else {};
      Retained(if Moves(removed, 0, f) then Rename(shifted, 0, {}) else shifted, keep) == Retained(removed - lost - last, keep)
  {
    hide ShiftUp, ShiftLost, Retained;
    var shifted, lost := ShiftUp(removed, keep - 1, f.stuck), ShiftLost(removed, keep - 1, f.stuck);
    ShiftVacates(removed, keep - 1, f.stuck);
    ShiftLoses(removed, keep - 1, f.stuck, keep);
    assert removed - lost - {} == removed - lost;
    if Moves(removed, 0, f) {
      RenameLoses(shifted, 0, {}, {}, keep);
      assert Rename(shifted, 0, {}) - {} == Rename(shifted, 0, {}) && shifted - {} == shifted;
      if keep == 1 || 1 in f.stuck {
        ShiftWithoutFirst(removed, keep - 1, f.stuck);
        ShiftLoses(removed - {1}, keep - 1, f.stuck, keep);
        assert removed - {1} - lost == removed - lost - {1};
      } else {
        assert shifted - {1} == shifted;
      }
    }
  }

  /** The three ways to lose a generation, put together. */
  lemma LossesTogether(log: Log, keep: nat, f: Faults)
    requires keep > 0 && log.usable && !f.closeFails
    ensures var removed := Remove(log.disk, keep, f.removeFails);
      var last := if Moves(removed, 0, f) && (keep == 1 || 1 in f.stuck) then {1} else {};
      removed - ShiftLost(removed, keep - 1, f.stuck) - last == log.disk - Lost(log, keep, f)
  {}

  lemma NothingLost(log: Log, keep: nat, f: Faults)
    requires keep > 0 && (!log.usable || f.closeFails)
    ensures log.disk - Lost(log, keep, f) == log.disk
  {}

  /** Exactly what a rotation loses, for every disk and all faults; the rest keeps its order. */
  lemma RotationLoses(log: Log, keep: nat, f: Faults)
    requires keep > 0
    ensures Retained(Rotate(log, keep, f).0.disk, keep) == Retained(log.disk - Lost(log, keep, f), keep)
  {
    hide Retained, ShiftUp, ShiftLost, Lost;
    if !log.usable || f.closeFails {
      NothingLost(log, keep, f);
    } else {
      var removed := Remove(log.disk, keep, f.removeFails);
      var shifted := ShiftUp(removed, keep - 1, f.stuck);
      ShiftVacates(removed, keep - 1, f.stuck);
      CurrentMoves(removed, keep, f);
      LossesTogether(log, keep, f);
      CreatedKeepsOrder(shifted, keep);
      CreatedKeepsOrder(Rename(shifted, 0, {}), keep);
    }
  }

  // ---------- what is lost from the middle ----------

  /** What is lost up to `top` held nothing. */
  ghost predicate LostEmpty(disk: Disk, lost: set<nat>, top: nat) {
    forall i :: i in lost && i in disk && i <= top ==> disk[i] == []
  }

  lemma LostEmptyStep(disk: Disk, lost: set<nat>, top: nat)
    requires top > 0
    ensures LostEmpty(disk, lost, top) <==> LostEmpty(disk, lost, top - 1) && At(disk - lost, top) == At(disk, top)
    ensures At(disk - lost, top) == At(disk, top) || At(disk - lost, top) == []
  {
    assert top in lost && top in disk ==> At(disk - lost, top) == [] && At(disk, top) == disk[top];
    assert !(top in lost && top in disk) ==> At(disk - lost, top) == At(disk, top);
    if LostEmpty(disk, lost, top - 1) && At(disk - lost, top) == At(disk, top) {
      forall i | i in lost && i in disk && i <= top ensures disk[i] == [] {
        if i < top {
          assert i <= top - 1;
        }
      }
    }
  }

  lemma {:induction false} RetainedShrinks(disk: Disk, lost: set<nat>, top: nat)
    ensures |Retained(disk - lost, top)| <= |Retained(disk, top)|
    ensures |Retained(disk - lost, top)| == |Retained(disk, top)| <==> LostEmpty(disk, lost, top)
    ensures LostEmpty(disk, lost, top) ==> Retained(disk - lost, top) == Retained(disk, top)
  {
    if top == 0 {
      assert At(disk - lost, 0) == (if 0 in lost then [] else At(disk, 0));
    } else {
      LostEmptyStep(disk, lost, top);
      RetainedShrinks(disk, lost, top - 1);
      hide LostEmpty, At;
    }
  }

  lemma BelowKept(disk: Disk, lost: set<nat>, top: nat)
    requires top > 0 && OnlyOldestLost(disk, lost, top)
    ensures OnlyOldestLost(disk, lost, top - 1)
    ensures At(disk - lost, top) != [] ==> At(disk, top) == At(disk - lost, top) && LostEmpty(disk, lost, top - 1)
  {}

  lemma AboveLost(disk: Disk, lost: set<nat>, top: nat)
    requires top > 0 && OnlyOldestLost(disk, lost, top - 1)
    requires At(disk - lost, top) == [] || LostEmpty(disk, lost, top - 1)
    ensures OnlyOldestLost(disk, lost, top)
  {}

  lemma NoneLost(disk: Disk, lost: set<nat>, top: nat)
    requires LostEmpty(disk, lost, top)
    ensures OnlyOldestLost(disk, lost, top)
  {}

  lemma {:induction false} OldestLostLeavesSuffix(disk: Disk, lost: set<nat>, top: nat)
    requires OnlyOldestLost(disk, lost, top)
    ensures IsSuffix(Retained(disk - lost, top), Retained(disk, top))
  {
    if top > 0 {
      BelowKept(disk, lost, top);
      hide OnlyOldestLost, LostEmpty, At;
      var older, kept, rest := At(disk - lost, top), Retained(disk - lost, top - 1), Retained(disk, top - 1);
      if older == [] {
        OldestLostLeavesSuffix(disk, lost, top - 1);
        assert [] + kept == kept;
        assert IsSuffix(rest, At(disk, top) + rest);
        SuffixOfSuffix(kept, rest, Retained(disk, top));
      } else {
        RetainedShrinks(disk, lost, top - 1);
      }
    }
  }

  lemma SuffixOfRest(a: File, first: File, rest: File)
    requires IsSuffix(a, first + rest) && |a| <= |rest|
    ensures IsSuffix(a, rest)
  {
    assert (first + rest)[|first| + |rest| - |a|..] == rest[|rest| - |a|..];
  }

  /** Of distinct writes what begins with the first is everything. */
  lemma SuffixFromFirst(a: File, whole: File)
    requires IsSuffix(a, whole) && NoDuplicates(whole) && a != [] && a[0] == whole[0]
    ensures a == whole
  {
    assert whole[|whole| - |a|..][0] == whole[|whole| - |a|];
  }

  lemma {:induction false} SuffixMeansOldestLost(disk: Disk, lost: set<nat>, top: nat)
    requires NoDuplicates(Retained(disk, top)) && IsSuffix(Retained(disk - lost, top), Retained(disk, top))
    ensures OnlyOldestLost(disk, lost, top)
  {
    if top == 0 {
      assert OnlyOldestLost(disk, lost, 0);
    } else {
      hide OnlyOldestLost, LostEmpty, At, NoDuplicates, IsSuffix;
      var first, older := At(disk, top), At(disk - lost, top);
      var kept, rest := Retained(disk - lost, top - 1), Retained(disk, top - 1);
      assert Retained(disk, top) == first + rest && Retained(disk - lost, top) == older + kept;
      hide Retained;
      LostEmptyStep(disk, lost, top);
      if older == [] {
        RetainedShrinks(disk, lost, top - 1);
        assert older + kept == kept;
        SuffixOfRest(kept, first, rest);
        DistinctRest(first, rest);
        SuffixMeansOldestLost(disk, lost, top - 1);
        AboveLost(disk, lost, top);
      } else {
        assert (older + kept)[0] == older[0] && (first + rest)[0] == first[0];
        SuffixFromFirst(older + kept, first + rest);
        RetainedShrinks(disk, lost, top);
        NoneLost(disk, lost, top);
      }
    }
  }

  lemma DistinctRest(first: File, rest: File)
    requires NoDuplicates(first + rest)
    ensures NoDuplicates(rest)
  {
    assert forall i :: 0 <= i < |rest| ==> rest[i] == (first + rest)[|first| + i];
  }

  /** Of distinct writes a rotation keeps the newest, and only those, exactly when nothing it loses is newer
      than something it keeps: when no stuck generation that is overwritten has an older one left behind it. */
  lemma RotateKeepsNewestIff(log: Log, keep: nat, f: Faults)
    requires keep > 0 && NoDuplicates(Retained(log.disk, keep))
    ensures IsSuffix(Retained(Rotate(log, keep, f).0.disk, keep), Retained(log.disk, keep))
      <==> OnlyOldestLost(log.disk, Lost(log, keep, f), keep)
  {
    RotationLoses(log, keep, f);
    if OnlyOldestLost(log.disk, Lost(log, keep, f), keep) {
      OldestLostLeavesSuffix(log.disk, Lost(log, keep, f), keep);
    }
    if IsSuffix(Retained(Rotate(log, keep, f).0.disk, keep), Retained(log.disk, keep)) {
      SuffixMeansOldestLost(log.disk, Lost(log, keep, f), keep);
    }
  }

  lemma {:induction false} AppendReadLast(disk: Disk, p: Text, keep: nat)
    requires 0 in disk
    ensures Retained(disk[0 := disk[0] + [p]], keep) == Retained(disk, keep) + [p]
  {
    if keep > 0 {
      AppendReadLast(disk, p, keep - 1);
      Associate(At(disk, keep), Retained(disk, keep - 1), [p]);
    }
  }

  lemma SuffixOfSuffix(a: File, b: File, whole: File)
    requires IsSuffix(a, b) && IsSuffix(b, whole)
    ensures IsSuffix(a, whole)
  {
    assert whole[|whole| - |b|..][|b| - |a|..] == whole[|whole| - |a|..];
  }

  /** What a rotation leaves of the files, and then the line in the file it is appended to. */
  lemma WriteReads(log: Log, history: File, p: Text, maxBytes: nat, keep: nat, f: Faults)
    requires keep > 0
    ensures var target := Target(log, p, maxBytes, keep, f); var after := Written(log, p, maxBytes, keep, f).0;
      exists lines :: Retained(after.disk, keep) == Retained(target.disk, keep) + lines
                      && HistoryAfter(history, log, p, maxBytes, keep, f) == history + lines
  {
    var target := Target(log, p, maxBytes, keep, f);
    var after := Written(log, p, maxBytes, keep, f).0;
    if target.usable && 0 in target.disk {
      var line := p[..Append(target, p, f).1];
      AppendReadLast(target.disk, line, keep);
      assert Retained(after.disk, keep) == Retained(target.disk, keep) + [line];
    } else {
      assert after == target;
      assert Retained(after.disk, keep) == Retained(target.disk, keep) + [] && history == history + [];
    }
  }

  ghost predicate LosesOnlyOldest(log: Log, p: Text, maxBytes: nat, keep: nat, f: Faults)
    requires keep > 0
  {
    NeedsRotation(log, p, maxBytes) ==> OnlyOldestLost(log.disk, Lost(log, keep, f), keep)
  }

  lemma TargetShrinks(log: Log, p: Text, maxBytes: nat, keep: nat, f: Faults)
    requires keep > 0
    ensures |Retained(Target(log, p, maxBytes, keep, f).disk, keep)| <= |Retained(log.disk, keep)|
  {
    RotationLoses(log, keep, f);
    RetainedShrinks(log.disk, Lost(log, keep, f), keep);
  }

  lemma SuffixAppended(a: File, whole: File, lines: File)
    ensures IsSuffix(a + lines, whole + lines) <==> IsSuffix(a, whole)
  {
    if |a| <= |whole| {
      var n := |whole| - |a|;
      assert (whole + lines)[n..] == whole[n..] + lines;
      assert (whole[n..] + lines)[..|a|] == whole[n..] && (a + lines)[..|a|] == a;
    }
  }

  lemma WriteKeepsNewest(log: Log, history: File, p: Text, maxBytes: nat, keep: nat, f: Faults)
    requires keep > 0 && IsSuffix(Retained(log.disk, keep), history)
    ensures LosesOnlyOldest(log, p, maxBytes, keep, f) ==>
      IsSuffix(Retained(Written(log, p, maxBytes, keep, f).0.disk, keep), HistoryAfter(history, log, p, maxBytes, keep, f))
    ensures NoDuplicates(history)
      && IsSuffix(Retained(Written(log, p, maxBytes, keep, f).0.disk, keep), HistoryAfter(history, log, p, maxBytes, keep, f))
      ==> LosesOnlyOldest(log, p, maxBytes, keep, f)
  {
    var kept, was := Retained(Target(log, p, maxBytes, keep, f).disk, keep), Retained(log.disk, keep);
    WriteReads(log, history, p, maxBytes, keep, f);
    var lines :| Retained(Written(log, p, maxBytes, keep, f).0.disk, keep) == kept + lines
                 && HistoryAfter(history, log, p, maxBytes, keep, f) == history + lines;
    SuffixAppended(kept, history, lines);
    if NeedsRotation(log, p, maxBytes) {
      var lost := Lost(log, keep, f);
      RotationLoses(log, keep, f);
      if OnlyOldestLost(log.disk, lost, keep) {
        OldestLostLeavesSuffix(log.disk, lost, keep);
        SuffixOfSuffix(kept, was, history);
      }
      if NoDuplicates(history) && IsSuffix(kept, history) {
        TargetShrinks(log, p, maxBytes, keep, f);
        SuffixesNest(kept, was, history);
        SuffixDistinct(was, history);
        SuffixMeansOldestLost(log.disk, lost, keep);
      }
    }
  }

  lemma SuffixesNest(a: File, b: File, whole: File)
    requires IsSuffix(a, whole) && IsSuffix(b, whole) && |a| <= |b|
    ensures IsSuffix(a, b)
  {
    assert b[|b| - |a|..] == whole[|whole| - |b|..][|b| - |a|..] == whole[|whole| - |a|..];
  }

  lemma SuffixDistinct(a: File, whole: File)
    requires IsSuffix(a, whole) && NoDuplicates(whole)
    ensures NoDuplicates(a)
  {
    assert forall i :: 0 <= i < |a| ==> a[i] == whole[|whole| - |a| + i];
  }

  /** `a` is `b` with some elements left out. */
  ghost predicate Subsequence(a: File, b: File)
    decreases |b|
  {
    if b == [] then a == []
    else
      var rest := b[..|b| - 1];
      Subsequence(a, rest) || (a != [] && a[|a| - 1] == b[|b| - 1] && Subsequence(a[..|a| - 1], rest))
  }

  lemma {:induction false} SubsequenceAppend(a: File, b: File, lines: File)
    requires Subsequence(a, b)
    ensures Subsequence(a + lines, b + lines)
    decreases |lines|
  {
    if lines == [] {
      assert a + lines == a && b + lines == b;
    } else {
      var n := |lines| - 1;
      SubsequenceAppend(a, b, lines[..n]);
      assert (a + lines)[..|a| + n] == a + lines[..n] && (b + lines)[..|b| + n] == b + lines[..n];
    }
  }

  lemma {:induction false} SubsequenceSkip(a: File, b: File, lines: File)
    requires Subsequence(a, b)
    ensures Subsequence(a, b + lines)
    decreases |lines|
  {
    if lines == [] {
      assert b + lines == b;
    } else {
      var n := |lines| - 1;
      SubsequenceSkip(a, b, lines[..n]);
      assert (b + lines)[..|b| + n] == b + lines[..n];
    }
  }

  lemma {:induction false} SubsequenceTransitive(a: File, b: File, c: File)
    requires Subsequence(a, b) && Subsequence(b, c)
    ensures Subsequence(a, c)
    decreases |c|
  {
    if c != [] && !Subsequence(b, c[..|c| - 1]) {
      if Subsequence(a, b[..|b| - 1]) {
        SubsequenceTransitive(a, b[..|b| - 1], c[..|c| - 1]);
      } else {
        SubsequenceTransitive(a[..|a| - 1], b[..|b| - 1], c[..|c| - 1]);
      }
    } else if c != [] {
      SubsequenceTransitive(a, b, c[..|c| - 1]);
    }
  }

  /** Losing whole generations reorders nothing. */
  lemma {:induction false} RetainedSubsequence(disk: Disk, lost: set<nat>, top: nat)
    ensures Subsequence(Retained(disk - lost, top), Retained(disk, top))
  {
    var first, kept := At(disk, top), At(disk - lost, top);
    assert Subsequence([], []);
    SubsequenceSkip([], [], first);
    SubsequenceAppend([], [], first);
    assert [] + first == first;
    if top > 0 {
      var older, rest := Retained(disk - lost, top - 1), Retained(disk, top - 1);
      RetainedSubsequence(disk, lost, top - 1);
      SubsequenceConcat(kept, first, older, rest);
    }
  }

  lemma {:induction false} SubsequenceConcat(a: File, b: File, c: File, d: File)
    requires Subsequence(a, b) && Subsequence(c, d)
    ensures Subsequence(a + c, b + d)
    decreases |d|
  {
    if d == [] {
      assert a + c == a && b + d == b;
    } else {
      var e := d[..|d| - 1];
      assert (b + d)[..|b| + |d| - 1] == b + e;
      if Subsequence(c, e) {
        SubsequenceConcat(a, b, c, e);
      } else {
        SubsequenceConcat(a, b, c[..|c| - 1], e);
        assert (a + c)[..|a| + |c| - 1] == a + c[..|c| - 1];
      }
    }
  }

  // ---------- runs ----------

  datatype Call = Call(line: Text, faults: Faults)

  function WriteAll(log: Log, calls: seq<Call>, maxBytes: nat, keep: nat): Log
    requires keep > 0
    decreases |calls|
  {
    if calls == [] then log
    else WriteAll(Written(log, calls[0].line, maxBytes, keep, calls[0].faults).0, calls[1..], maxBytes, keep)
  }

  /** Everything the log was given: what it held at first and every line that reached a descriptor. */
  function History(history: File, log: Log, calls: seq<Call>, maxBytes: nat, keep: nat): File
    requires keep > 0
    decreases |calls|
  {
    if calls == [] then history
    else
      var c := calls[0];
      History(HistoryAfter(history, log, c.line, maxBytes, keep, c.faults),
              Written(log, c.line, maxBytes, keep, c.faults).0, calls[1..], maxBytes, keep)
  }

  ghost predicate NeverLosesTheMiddle(log: Log, calls: seq<Call>, maxBytes: nat, keep: nat)
    requires keep > 0
    decreases |calls|
  {
    calls == [] ||
    (var c := calls[0];
     && LosesOnlyOldest(log, c.line, maxBytes, keep, c.faults)
     && NeverLosesTheMiddle(Written(log, c.line, maxBytes, keep, c.faults).0, calls[1..], maxBytes, keep))
  }

  /** After every call, the files hold the newest writes. */
  ghost predicate AlwaysNewest(log: Log, history: File, calls: seq<Call>, maxBytes: nat, keep: nat)
    requires keep > 0
    decreases |calls|
  {
    IsSuffix(Retained(log.disk, keep), history) &&
    (calls == [] ||
     (var c := calls[0];
      AlwaysNewest(Written(log, c.line, maxBytes, keep, c.faults).0,
                   HistoryAfter(history, log, c.line, maxBytes, keep, c.faults), calls[1..], maxBytes, keep)))
  }

  /** Over every run in which nothing is lost that is newer than something kept, the files, oldest generation
      first, hold the newest writes, whole and in order, after every call. */
  lemma {:induction false} RunConservesHistory(log: Log, history: File, calls: seq<Call>, maxBytes: nat, keep: nat)
    requires keep > 0 && IsSuffix(Retained(log.disk, keep), history)
    requires NeverLosesTheMiddle(log, calls, maxBytes, keep)
    ensures AlwaysNewest(log, history, calls, maxBytes, keep)
    ensures IsSuffix(Retained(WriteAll(log, calls, maxBytes, keep).disk, keep), History(history, log, calls, maxBytes, keep))
    decreases |calls|
  {
    if calls != [] {
      var c := calls[0];
      WriteKeepsNewest(log, history, c.line, maxBytes, keep, c.faults);
      RunConservesHistory(Written(log, c.line, maxBytes, keep, c.faults).0,
                          HistoryAfter(history, log, c.line, maxBytes, keep, c.faults), calls[1..], maxBytes, keep);
    }
  }

  lemma {:induction false} HistoryGrows(history: File, log: Log, calls: seq<Call>, maxBytes: nat, keep: nat)
    requires keep > 0
    ensures history <= History(history, log, calls, maxBytes, keep)
    decreases |calls|
  {
    if calls != [] {
      var c := calls[0];
      HistoryGrows(HistoryAfter(history, log, c.line, maxBytes, keep, c.faults),
                   Written(log, c.line, maxBytes, keep, c.faults).0, calls[1..], maxBytes, keep);
    }
  }

  lemma PrefixDistinct(a: File, whole: File)
    requires a <= whole && NoDuplicates(whole)
    ensures NoDuplicates(a)
  {
    assert forall i :: 0 <= i < |a| ==> a[i] == whole[i];
  }

  /** And of distinct writes only in those runs. */
  lemma {:induction false} RunConservesHistoryIff(log: Log, history: File, calls: seq<Call>, maxBytes: nat, keep: nat)
    requires keep > 0 && IsSuffix(Retained(log.disk, keep), history)
    requires NoDuplicates(History(history, log, calls, maxBytes, keep))
    ensures AlwaysNewest(log, history, calls, maxBytes, keep) <==> NeverLosesTheMiddle(log, calls, maxBytes, keep)
    decreases |calls|
  {
    if calls != [] {
      var c := calls[0];
      var after := Written(log, c.line, maxBytes, keep, c.faults).0;
      var taken := HistoryAfter(history, log, c.line, maxBytes, keep, c.faults);
      HistoryGrows(history, log, calls, maxBytes, keep);
      PrefixDistinct(history, History(history, log, calls, maxBytes, keep));
      WriteKeepsNewest(log, history, c.line, maxBytes, keep, c.faults);
      if IsSuffix(Retained(after.disk, keep), taken) {
        RunConservesHistoryIff(after, taken, calls[1..], maxBytes, keep);
      }
    }
  }

  lemma WriteKeepsOrder(log: Log, history: File, p: Text, maxBytes: nat, keep: nat, f: Faults)
    requires keep > 0 && Subsequence(Retained(log.disk, keep), history)
    ensures Subsequence(Retained(Written(log, p, maxBytes, keep, f).0.disk, keep),
                        HistoryAfter(history, log, p, maxBytes, keep, f))
  {
    var kept := Retained(Target(log, p, maxBytes, keep, f).disk, keep);
    WriteReads(log, history, p, maxBytes, keep, f);
    var lines :| Retained(Written(log, p, maxBytes, keep, f).0.disk, keep) == kept + lines
                 && HistoryAfter(history, log, p, maxBytes, keep, f) == history + lines;
    if NeedsRotation(log, p, maxBytes) {
      RotationLoses(log, keep, f);
      RetainedSubsequence(log.disk, Lost(log, keep, f), keep);
      SubsequenceTransitive(kept, Retained(log.disk, keep), history);
    }
    SubsequenceAppend(kept, history, lines);
  }

  /** Whatever fails: in every run the files hold writes of the history in its order, none split, none twice. */
  lemma {:induction false} RunKeepsOrder(log: Log, history: File, calls: seq<Call>, maxBytes: nat, keep: nat)
    requires keep > 0 && Subsequence(Retained(log.disk, keep), history)
    ensures Subsequence(Retained(WriteAll(log, calls, maxBytes, keep).disk, keep), History(history, log, calls, maxBytes, keep))
    decreases |calls|
  {
    if calls != [] {
      var c := calls[0];
      WriteKeepsOrder(log, history, c.line, maxBytes, keep, c.faults);
      RunKeepsOrder(Written(log, c.line, maxBytes, keep, c.faults).0,
                    HistoryAfter(history, log, c.line, maxBytes, keep, c.faults), calls[1..], maxBytes, keep);
    }
  }

  function Lines(calls: seq<Call>): File {
    if calls == [] then [] else [calls[0].line] + Lines(calls[1..])
  }

  /** The system calls succeed, except for renames and removals. */
  ghost predicate Healthy(calls: seq<Call>) {
    forall i :: 0 <= i < |calls| ==>
      !calls[i].faults.closeFails && calls[i].faults.open.Opened? && calls[i].faults.accepted >= |calls[i].line|
  }

  /** While closing, opening and writing succeed, every line offered is in the history, whole. */
  lemma {:induction false} HistoryHoldsEveryLine(history: File, log: Log, calls: seq<Call>, maxBytes: nat, keep: nat)
    requires keep > 0 && log.usable && 0 in log.disk && Healthy(calls)
    ensures History(history, log, calls, maxBytes, keep) == history + Lines(calls)
    decreases |calls|
  {
    if calls == [] {
      assert history + [] == history;
    } else {
      var c := calls[0];
      var rest := calls[1..];
      assert forall i :: 0 <= i < |rest| ==> rest[i] == calls[i + 1];
      assert c.line[..|c.line|] == c.line;
      HistoryHoldsEveryLine(HistoryAfter(history, log, c.line, maxBytes, keep, c.faults),
                            Written(log, c.line, maxBytes, keep, c.faults).0, rest, maxBytes, keep);
      Associate(history, [c.line], Lines(rest));
    }
  }

  lemma StuckRename(oldest: Text, middle: Text, newest: Text)
    ensures var disk: Disk := map[0 := [newest], 1 := [middle], 2 := [oldest]];
      var f := Faults(false, false, {1}, false, Opened, 0);
      Rotate(Log(disk, true, |newest|), 3, f).0.disk == map[0 := [], 1 := [newest], 3 := [oldest]]
  {
    var disk: Disk := map[0 := [newest], 1 := [middle], 2 := [oldest]];
    var f := Faults(false, false, {1}, false, Opened, 0);
    var a := Rename(disk - {3}, 2, {1});
    var b := Rename(a, 1, {1});
    assert b == ShiftUp(a, 1, {1}) == Shifted(disk, 3, f) by {
      assert ShiftUp(b, 0, {1}) == b;
    }
    assert Created(Rename(b, 0, {})) == map[0 := [], 1 := [newest], 3 := [oldest]];
  }

  /** The middle can be lost: with `.1` stuck, moving the current file onto it loses the middle of
      the history while the older `.2` survives as `.3`. */
  lemma StuckRenameLosesTheMiddle(oldest: Text, middle: Text, newest: Text)
    requires middle != oldest
    ensures var disk: Disk := map[0 := [newest], 1 := [middle], 2 := [oldest]];
      var f := Faults(false, false, {1}, false, Opened, 0);
      && Retained(disk, 3) == [oldest, middle, newest]
      && Retained(Rotate(Log(disk, true, |newest|), 3, f).0.disk, 3) == [oldest, newest]
      && !IsSuffix([oldest, newest], [oldest, middle, newest])
  {
    StuckRename(oldest, middle, newest);
    hide Rotate;
    var disk: Disk := map[0 := [newest], 1 := [middle], 2 := [oldest]];
    var after: Disk := map[0 := [], 1 := [newest], 3 := [oldest]];
    assert Retained(after, 1) == [newest] && Retained(after, 2) == [] + Retained(after, 1) == [newest];
    assert Retained(after, 3) == [oldest] + Retained(after, 2);
    assert Retained(disk, 1) == [middle] + Retained(disk, 0) == [middle, newest];
    assert Retained(disk, 2) == [oldest] + Retained(disk, 1) == [oldest, middle, newest];
    assert Retained(disk, 3) == [] + Retained(disk, 2);
    assert [oldest, middle, newest][1..] == [middle, newest];
  }

  // ---------- the bound ----------

  /** Generations 0..keep only; `size` is the current file's; a file over the limit holds one write. */
  ghost predicate Bounded(log: Log, maxBytes: nat, keep: nat) {
    && (log.usable ==> 0 in log.disk && log.size == Size(log.disk[0]))
    && (forall i :: i in log.disk ==> i <= keep && (Size(log.disk[i]) <= maxBytes || |log.disk[i]| == 1))
  }

  lemma {:induction false} ShiftOnlyMoves(disk: Disk, from: nat, stuck: set<nat>, keep: nat)
    requires from < keep && forall i :: i in disk ==> i <= keep
    ensures forall i :: i in ShiftUp(disk, from, stuck) ==>
      i <= keep && exists j :: j in disk && ShiftUp(disk, from, stuck)[i] == disk[j]
    decreases from
  {
    if from > 0 {
      var moved := Rename(disk, from, stuck);
      forall i | i in moved ensures i <= keep && exists j :: j in disk && moved[i] == disk[j] {
        var j := if from in disk && from !in stuck && i == from + 1 then from else i;
        assert j in disk && moved[i] == disk[j];
      }
      ShiftOnlyMoves(moved, from - 1, stuck, keep);
    }
  }

  lemma RotationBounded(log: Log, maxBytes: nat, keep: nat, f: Faults)
    requires keep > 0 && Bounded(log, maxBytes, keep) && Rotate(log, keep, f).1
    ensures Bounded(Rotate(log, keep, f).0, maxBytes, keep)
    ensures Rotate(log, keep, f).0.usable && Rotate(log, keep, f).0.disk[0] == []
  {
    var removed := Remove(log.disk, keep, f.removeFails);
    var shifted := Shifted(log.disk, keep, f);
    ShiftOnlyMoves(removed, keep - 1, f.stuck, keep);
    forall i | i in shifted ensures i <= keep && (Size(shifted[i]) <= maxBytes || |shifted[i]| == 1) {
      var j :| j in removed && shifted[i] == removed[j];
      assert j in log.disk && removed[j] == log.disk[j];
    }
    assert Size([]) == 0;
  }

  lemma WriteBounded(log: Log, p: Text, maxBytes: nat, keep: nat, f: Faults)
    requires keep > 0 && Bounded(log, maxBytes, keep)
    requires NeedsRotation(log, p, maxBytes) ==> Rotate(log, keep, f).1
    ensures Bounded(Written(log, p, maxBytes, keep, f).0, maxBytes, keep)
  {
    var target := Target(log, p, maxBytes, keep, f);
    if NeedsRotation(log, p, maxBytes) {
      RotationBounded(log, maxBytes, keep, f);
    }
    if target.usable && 0 in target.disk {
      ConcatSnoc(target.disk[0], p[..Append(target, p, f).1]);
    }
  }

  ghost predicate RotationsSucceed(log: Log, calls: seq<Call>, maxBytes: nat, keep: nat)
    requires keep > 0
    decreases |calls|
  {
    calls == [] ||
    (var c := calls[0];
     && (NeedsRotation(log, c.line, maxBytes) ==> Rotate(log, keep, c.faults).1)
     && RotationsSucceed(Written(log, c.line, maxBytes, keep, c.faults).0, calls[1..], maxBytes, keep))
  }

  lemma {:induction false} RunBounded(log: Log, calls: seq<Call>, maxBytes: nat, keep: nat)
    requires keep > 0 && Bounded(log, maxBytes, keep) && RotationsSucceed(log, calls, maxBytes, keep)
    ensures var after := WriteAll(log, calls, maxBytes, keep);
      Bounded(after, maxBytes, keep) && |after.disk| <= keep + 1
    decreases |calls|
  {
    if calls == [] {
      AtMost(log.disk, keep);
    } else {
      var c := calls[0];
      WriteBounded(log, c.line, maxBytes, keep, c.faults);
      RunBounded(Written(log, c.line, maxBytes, keep, c.faults).0, calls[1..], maxBytes, keep);
    }
  }

  lemma {:induction false} AtMost(disk: Disk, top: nat)
    requires forall i :: i in disk ==> i <= top
    ensures |disk| <= top + 1
    decreases top
  {
    var rest := disk - {top};
    assert |disk| <= |rest| + 1 by {
      assert disk.Keys == rest.Keys || disk.Keys == rest.Keys + {top};
    }
    if top == 0 {
      assert rest == map[];
    } else {
      AtMost(rest, top - 1);
    }
  }

  // ---------- when a write rotates, and what a rotation that meets no fault does ----------

  ghost function Find(disk: Disk, generation: nat): Option<File> {
    if generation in disk then Some(disk[generation]) else None
  }

  /** A line that fits goes to the end of the current file, and no generation moves. */
  lemma FittingLineStays(log: Log, p: Text, maxBytes: nat, keep: nat, f: Faults)
    requires keep > 0 && log.usable && 0 in log.disk && log.size + |p| <= maxBytes && f.accepted >= |p|
    ensures var (after, n) := Written(log, p, maxBytes, keep, f);
      && n == |p| && after.usable && after.size == log.size + |p| && after.disk == log.disk[0 := log.disk[0] + [p]]
  {
    assert p[..|p|] == p;
  }

  /** Renaming the generations `from`, ... 1 up moves each into the place of the next. */
  lemma {:induction false} ShiftMoves(disk: Disk, from: nat)
    requires from + 1 !in disk
    ensures var q := ShiftUp(disk, from, {});
      && (forall i :: 2 <= i <= from + 1 ==> Find(q, i) == Find(disk, i - 1))
      && (from > 0 ==> 1 !in q)
      && (forall i: nat :: i == 0 || i > from + 1 ==> Find(q, i) == Find(disk, i))
    decreases from
  {
    if from > 0 {
      var moved := Rename(disk, from, {});
      ShiftMoves(moved, from - 1);
      assert Find(moved, from + 1) == Find(disk, from) && Find(moved, from) == None;
      assert forall i: nat :: i != from && i != from + 1 ==> Find(moved, i) == Find(disk, i);
    }
  }

  /** A rotation that meets no fault moves every generation into the place of the next older one, drops the oldest,
      and starts an empty file. */
  lemma HealthyRotation(log: Log, keep: nat, f: Faults)
    requires keep > 0 && log.usable && 0 in log.disk
    requires !f.closeFails && !f.removeFails && f.stuck == {} && !f.currentStuck && f.open.Opened?
    ensures var (after, ok) := Rotate(log, keep, f);
      && ok && after.usable && after.size == 0 && 0 in after.disk && after.disk[0] == []
      && (forall i :: 1 <= i <= keep ==> Find(after.disk, i) == Find(log.disk, i - 1))
      && (forall i :: i > keep ==> Find(after.disk, i) == Find(log.disk, i))
  {
    var removed := Remove(log.disk, keep, f.removeFails);
    var shifted := ShiftUp(removed, keep - 1, {});
    ShiftMoves(removed, keep - 1);
    hide ShiftUp;
    assert Size([]) == 0;
    assert Find(shifted, 0) == Find(removed, 0) == Find(log.disk, 0);
    var after := Rotate(log, keep, f).0.disk;
    forall i | 1 <= i <= keep ensures Find(after, i) == Find(log.disk, i - 1) {
      if i > 1 {
        assert Find(after, i) == Find(shifted, i) == Find(removed, i - 1);
      }
    }
    forall i | i > keep ensures Find(after, i) == Find(log.disk, i) {
      assert Find(after, i) == Find(shifted, i) == Find(removed, i);
    }
  }

  /** So a line that does not fit is the first of a new file, with the full one behind it. */
  lemma FullLineRotates(log: Log, p: Text, maxBytes: nat, keep: nat, f: Faults)
    requires keep > 0 && log.usable && 0 in log.disk && log.size + |p| > maxBytes && f.accepted >= |p|
    requires !f.closeFails && !f.removeFails && f.stuck == {} && !f.currentStuck && f.open.Opened?
    ensures var (after, n) := Written(log, p, maxBytes, keep, f);
      && n == |p| && after.usable && after.size == |p| && 0 in after.disk && after.disk[0] == [p]
      && (forall i :: 1 <= i <= keep ==> Find(after.disk, i) == Find(log.disk, i - 1))
      && (forall i :: i > keep ==> Find(after.disk, i) == Find(log.disk, i))
  {
    HealthyRotation(log, keep, f);
    hide Rotate;
    assert p[..|p|] == p && [] + [p] == [p];
    var rotated, after := Rotate(log, keep, f).0.disk, Written(log, p, maxBytes, keep, f).0.disk;
    assert forall i: nat :: i > 0 ==> Find(after, i) == Find(rotated, i);
  }

  // ---------- the line that triggers a rotation ----------

  /** The line reaches a file exactly when the descriptor was usable and, if the file had to be rotated,
      both closing it and opening its successor worked; otherwise nothing at all is written. */
  lemma LineKeptIff(log: Log, p: Text, maxBytes: nat, keep: nat, f: Faults)
    requires keep > 0 && (log.usable ==> 0 in log.disk)
    ensures var target := Target(log, p, maxBytes, keep, f);
      var (after, n) := Written(log, p, maxBytes, keep, f);
      if log.usable && (NeedsRotation(log, p, maxBytes) ==> !f.closeFails && f.open.Opened?)
      then At(after.disk, 0) == At(target.disk, 0) + [p[..n]] && (f.accepted >= |p| ==> n == |p|)
      else n == 0 && after == target && !after.usable
  {}

  /** Once a descriptor is lost that way no later write ever stores a byte: every rotation now fails on
      closing the closed file, so it is never opened again. */
  lemma {:induction false} ClosedForEver(log: Log, calls: seq<Call>, maxBytes: nat, keep: nat)
    requires keep > 0 && !log.usable
    ensures WriteAll(log, calls, maxBytes, keep) == log
    decreases |calls|
  {
    if calls != [] {
      assert Written(log, calls[0].line, maxBytes, keep, calls[0].faults).0 == log;
      ClosedForEver(log, calls[1..], maxBytes, keep);
    }
  }
}
