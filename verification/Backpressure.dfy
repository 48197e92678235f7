/**
 * The commit-gap backpressure of one partition under a stable assignment: the two watermarks, the in-flight semaphore
 * and the poll batch together bound how far the consumer can run ahead of its commit position.
 */
module Backpressure {
  import opened Wrappers
  import opened CommitTracker
  import opened PartitionSlot
  import KeyLocks

  /** The gap an unpaused partition may have after an adjustment. */
  function Ceiling(cfg: Config): int {
    Max(0, Max(cfg.flow.maxGap, cfg.flow.resumeAt))
  }

  function Start(position: nat): Slot {
    FreshSlot(position).(owned := true)
  }

  /** No rebalance or restart, pause and resume succeed, and a paused partition yields no records. */
  predicate StableStep(s: Slot, step: SlotStep) {
    match step
    case Poll(_) => !s.tracker.paused
    case FinalizeTask(_, _, _, callOk) => callOk
    case BumpGeneration(_) => false
    case SetOwned(_) => false
    case Seek(_) => false
    case _ => true
  }

  predicate StableRun(s: Slot, steps: seq<SlotStep>, cfg: Config) {
    steps == [] ||
    (StableRun(s, steps[..|steps| - 1], cfg) && StableStep(Run(s, steps[..|steps| - 1], cfg), steps[|steps| - 1]))
  }

  /** Offsets are handed out consecutively and the semaphore bounds the tasks. */
  ghost predicate Consecutive(s: Slot, start: nat, cfg: Config) {
    && s.owned
    && s.spawned <= |s.backlog| <= s.spawned + cfg.maxBatch
    && s.spawned + |s.tasks| <= cfg.maxInflight
    && |s.backlog| <= s.arrivals
    && s.position == start + s.arrivals
    && (forall i :: 0 <= i < |s.backlog| ==> s.backlog[i].num == s.arrivals - |s.backlog| + i)
    && (forall i :: 0 <= i < |s.backlog| ==> s.backlog[i].offset == start + s.backlog[i].num)
    && (forall n <- s.tasks :: n < s.arrivals - |s.backlog|)
    && (forall n <- s.tasks :: s.tasks[n].generation == s.tracker.generation)
    && (forall n <- s.tasks :: s.tasks[n].delivery.offset == start + n)
  }

  ghost predicate GapBounded(s: Slot, start: nat, cfg: Config) {
    var t := s.tracker;
    if !t.initialized then
      && s.tasks == map[] && s.arrivals == |s.backlog|
      && t.completed == {} && !t.paused && t.maxSeen == -1 && t.lastCommitted == -1
    else
      && t.maxSeen == s.position - |s.backlog| - 1
      && start - 1 <= t.lastCommitted
      && (!t.paused ==> t.maxSeen - t.lastCommitted <= Ceiling(cfg) + |s.tasks|)
      && s.position - 1 - t.lastCommitted <= Ceiling(cfg) + cfg.maxInflight + cfg.maxBatch
  }

  ghost predicate FlowInv(s: Slot, start: nat, cfg: Config) {
    Consecutive(s, start, cfg) && GapBounded(s, start, cfg)
  }

  lemma AdvanceNeverRetreats(t: Tracker, owned: bool, acked: bool)
    ensures t.lastCommitted <= Advance(t, owned, acked).lastCommitted
    ensures Advance(t, owned, acked).(lastCommitted := t.lastCommitted, completed := t.completed) == t
  {
  }

  /** A finalize leaves an unpaused partition with a gap of at most the ceiling. */
  lemma FinalizeSettlesFlow(t: Tracker, offset: int, handled: bool, acked: bool, cfg: Config)
    ensures var r := Finalize(t, offset, t.generation, handled, true, acked, true, cfg.flow);
            && t.lastCommitted <= r.lastCommitted
            && r.maxSeen == t.maxSeen && r.generation == t.generation && r.initialized == t.initialized
            && (!r.paused ==> r.maxSeen - r.lastCommitted <= Ceiling(cfg))
  {
    var u := t.(inflight := t.inflight - {offset});
    AdvanceNeverRetreats(if handled then u.(completed := u.completed + {offset}) else u, true, acked);
  }

  lemma PollKeeps(s: Slot, keys: seq<Key>, start: nat, cfg: Config)
    requires FlowInv(s, start, cfg) && Enabled(s, Poll(keys), cfg) && !s.tracker.paused
    ensures FlowInv(Next(s, Poll(keys), cfg), start, cfg)
  {
  }

  lemma RegisteredKeeps(s: Slot, room: KeyLocks.Room, start: nat, cfg: Config)
    requires FlowInv(s, start, cfg) && 0 < s.spawned
    ensures var d := s.backlog[0];
            FlowInv(s.(backlog := s.backlog[1..],
                       spawned := s.spawned - 1,
                       tracker := Register(s.tracker, d.offset),
                       tasks := s.tasks[d.num := Task(d, s.tracker.generation, Handling)],
                       room := room), start, cfg)
  {
    var d := s.backlog[0];
    var tasks := s.tasks[d.num := Task(d, s.tracker.generation, Handling)];
    assert d.num !in s.tasks;
    assert tasks.Keys == s.tasks.Keys + {d.num};
    assert |tasks| == |s.tasks| + 1;
  }

  lemma RegisterKeeps(s: Slot, evicted: set<Key>, start: nat, cfg: Config)
    requires FlowInv(s, start, cfg) && Enabled(s, RegisterNext(evicted), cfg)
    ensures FlowInv(Next(s, RegisterNext(evicted), cfg), start, cfg)
  {
    RegisteredKeeps(s, Next(s, RegisterNext(evicted), cfg).room, start, cfg);
  }

  lemma FinalizeKeeps(s: Slot, num: nat, applied: bool, acked: bool, start: nat, cfg: Config)
    requires FlowInv(s, start, cfg) && Enabled(s, FinalizeTask(num, applied, acked, true), cfg)
    ensures FlowInv(Next(s, FinalizeTask(num, applied, acked, true), cfg), start, cfg)
  {
    var t := Next(s, FinalizeTask(num, applied, acked, true), cfg);
    FinalizeSettlesFlow(s.tracker, s.tasks[num].delivery.offset, s.tasks[num].phase.handled, acked, cfg);
    assert t.tasks.Keys == s.tasks.Keys - {num};
    assert |t.tasks| == |s.tasks| - 1;
    assert s.tracker.initialized;
  }

  lemma PhaseKeeps(s: Slot, num: nat, phase: Phase, room: KeyLocks.Room, start: nat, cfg: Config)
    requires FlowInv(s, start, cfg) && num in s.tasks
    ensures FlowInv(SetPhase(s, num, phase).(room := room), start, cfg)
  {
    assert SetPhase(s, num, phase).tasks.Keys == s.tasks.Keys;
    assert |SetPhase(s, num, phase).tasks| == |s.tasks|;
  }

  lemma PhaseStepKeeps(s: Slot, step: SlotStep, start: nat, cfg: Config)
    requires FlowInv(s, start, cfg) && Enabled(s, step, cfg)
    requires step.HandlerReturns? || step.HandlerRaises? || step.PublishCopy? || step.FailureDone?
    ensures FlowInv(Next(s, step, cfg), start, cfg)
  {
    var t := Next(s, step, cfg);
    PhaseKeeps(s, step.num, t.tasks[step.num].phase, t.room, start, cfg);
  }

  lemma StepKeeps(s: Slot, step: SlotStep, start: nat, cfg: Config)
    requires FlowInv(s, start, cfg) && StableStep(s, step)
    ensures FlowInv(Apply(s, step, cfg), start, cfg)
  {
    if Enabled(s, step, cfg) {
      match step
      case Poll(keys) => PollKeeps(s, keys, start, cfg);
      case RegisterNext(evicted) => RegisterKeeps(s, evicted, start, cfg);
      case FinalizeTask(num, applied, acked, _) => FinalizeKeeps(s, num, applied, acked, start, cfg);
      case HandlerReturns(_) => PhaseStepKeeps(s, step, start, cfg);
      case HandlerRaises(_, _) => PhaseStepKeeps(s, step, start, cfg);
      case PublishCopy(_, _) => PhaseStepKeeps(s, step, start, cfg);
      case FailureDone(_, _) => PhaseStepKeeps(s, step, start, cfg);
      case Drain(_, acked) => AdvanceNeverRetreats(s.tracker, s.owned, acked);
      case _ =>
    }
  }

  lemma {:induction false} RunKeeps(s: Slot, steps: seq<SlotStep>, start: nat, cfg: Config)
    requires FlowInv(s, start, cfg) && StableRun(s, steps, cfg)
    ensures FlowInv(Run(s, steps, cfg), start, cfg)
  {
    if steps != [] {
      RunKeeps(s, steps[..|steps| - 1], start, cfg);
      StepKeeps(Run(s, steps[..|steps| - 1], cfg), steps[|steps| - 1], start, cfg);
    }
  }

  /**
   * However tasks finish and whichever commits fail, the consumer never runs further ahead of its commit position than
   * the pause threshold plus the tasks plus one batch.
   */
  lemma CommitGapBounded(start: nat, steps: seq<SlotStep>, cfg: Config)
    requires StableRun(Start(start), steps, cfg)
    ensures var s := Run(Start(start), steps, cfg);
            s.tracker.initialized ==>
              && s.tracker.maxSeen - s.tracker.lastCommitted <= Ceiling(cfg) + cfg.maxInflight + cfg.maxBatch
              && s.position - 1 - s.tracker.lastCommitted <= Ceiling(cfg) + cfg.maxInflight + cfg.maxBatch
  {
    RunKeeps(Start(start), steps, start, cfg);
  }

  // ---------------------------------------------------------------- the in-flight set

  function TaskOffsets(tasks: map<nat, Task>): set<int> {
    set n | n in tasks :: tasks[n].delivery.offset as int
  }

  lemma RegisterInflight(s: Slot, start: nat, cfg: Config)
    requires FlowInv(s, start, cfg) && 0 < s.spawned && s.tracker.inflight == TaskOffsets(s.tasks)
    ensures var d := s.backlog[0];
            Register(s.tracker, d.offset).inflight ==
            TaskOffsets(s.tasks[d.num := Task(d, s.tracker.generation, Handling)])
  {
    var d := s.backlog[0];
    var tasks := s.tasks[d.num := Task(d, s.tracker.generation, Handling)];
    assert d.num !in s.tasks;
    forall o ensures o in TaskOffsets(tasks) <==> o in TaskOffsets(s.tasks) || o == d.offset {
      if o == d.offset {
        assert tasks[d.num].delivery.offset == o;
      } else if o in TaskOffsets(s.tasks) {
        var n :| n in s.tasks && s.tasks[n].delivery.offset == o;
        assert tasks[n] == s.tasks[n];
      }
    }
  }

  lemma RemoveInflight(s: Slot, num: nat, start: nat, cfg: Config)
    requires FlowInv(s, start, cfg) && num in s.tasks && s.tracker.inflight == TaskOffsets(s.tasks)
    ensures TaskOffsets(s.tasks - {num}) == s.tracker.inflight - {s.tasks[num].delivery.offset as int}
  {
    var tasks := s.tasks - {num};
    forall o ensures o in TaskOffsets(tasks) <==> o in TaskOffsets(s.tasks) && o != s.tasks[num].delivery.offset {
      if o in TaskOffsets(s.tasks) && o != s.tasks[num].delivery.offset {
        var n :| n in s.tasks && s.tasks[n].delivery.offset == o;
        assert n in tasks;
      }
    }
  }

  lemma PhaseInflight(tasks: map<nat, Task>, num: nat, phase: Phase)
    requires num in tasks
    ensures TaskOffsets(tasks[num := tasks[num].(phase := phase)]) == TaskOffsets(tasks)
  {
    var after := tasks[num := tasks[num].(phase := phase)];
    forall o ensures o in TaskOffsets(after) <==> o in TaskOffsets(tasks) {
      if o in TaskOffsets(tasks) {
        var n :| n in tasks && tasks[n].delivery.offset == o;
        assert after[n].delivery.offset == o;
      }
    }
  }

  lemma StepKeepsInflight(s: Slot, step: SlotStep, start: nat, cfg: Config)
    requires FlowInv(s, start, cfg) && StableStep(s, step) && s.tracker.inflight == TaskOffsets(s.tasks)
    ensures var t := Apply(s, step, cfg); t.tracker.inflight == TaskOffsets(t.tasks)
  {
    if Enabled(s, step, cfg) {
      match step
      case RegisterNext(_) => RegisterInflight(s, start, cfg);
      case FinalizeTask(num, _, _, _) => RemoveInflight(s, num, start, cfg);
      case HandlerReturns(num) => PhaseInflight(s.tasks, num, Finishing(true));
      case HandlerRaises(num, retryable) => PhaseInflight(s.tasks, num, Failing(retryable, 0));
      case PublishCopy(num, _) => PhaseInflight(s.tasks, num, Next(s, step, cfg).tasks[num].phase);
      case FailureDone(num, published) => PhaseInflight(s.tasks, num, Finishing(published));
      case _ =>
    }
  }

  /** The in-flight set is exactly the offsets between registration and finalize. */
  lemma {:induction false} InflightIsUnfinished(start: nat, steps: seq<SlotStep>, cfg: Config)
    requires StableRun(Start(start), steps, cfg)
    ensures var s := Run(Start(start), steps, cfg); s.tracker.inflight == TaskOffsets(s.tasks)
  {
    if steps != [] {
      var init := steps[..|steps| - 1];
      InflightIsUnfinished(start, init, cfg);
      RunKeeps(Start(start), init, start, cfg);
      StepKeepsInflight(Run(Start(start), init, cfg), steps[|steps| - 1], start, cfg);
    }
  }

  // ---------------------------------------------------------------- a pause always ends

  /** Everything registered above the commit position is completed or still has a task. */
  ghost predicate NothingForgotten(s: Slot) {
    && (forall o :: s.tracker.lastCommitted < o <= s.tracker.maxSeen ==>
          o in s.tracker.completed || exists n <- s.tasks :: s.tasks[n].delivery.offset == o)
    && (forall o <- s.tracker.completed :: o <= s.tracker.maxSeen)
    && (forall n <- s.tasks :: s.tasks[n].delivery.offset <= s.tracker.maxSeen)
    && (forall n <- s.tasks :: s.tasks[n].phase.Finishing? ==> s.tasks[n].phase.handled)
  }

  /** As `StableRun`, and every failure is published. */
  predicate SettledRun(s: Slot, steps: seq<SlotStep>, cfg: Config) {
    StableRun(s, steps, cfg) && forall step <- steps :: step.FailureDone? ==> step.published
  }

  lemma FinalizeForgetsNothing(s: Slot, num: nat, applied: bool, acked: bool, start: nat, cfg: Config)
    requires FlowInv(s, start, cfg) && NothingForgotten(s)
    requires Enabled(s, FinalizeTask(num, applied, acked, true), cfg)
    ensures NothingForgotten(Next(s, FinalizeTask(num, applied, acked, true), cfg))
    ensures var t := Next(s, FinalizeTask(num, applied, acked, true), cfg);
            acked && t.tasks == map[] && 0 <= cfg.flow.resumeAt && 0 <= cfg.flow.maxGap ==>
              t.tracker.lastCommitted >= t.tracker.maxSeen && !t.tracker.paused
  {
    var t := Next(s, FinalizeTask(num, applied, acked, true), cfg);
    var o := s.tasks[num].delivery.offset;
    var v := s.tracker.(inflight := s.tracker.inflight - {o}, completed := s.tracker.completed + {o});
    var a := Advance(v, true, acked);
    assert t.tracker == AdjustFlow(a, true, true, cfg.flow);
    forall p | a.lastCommitted < p <= a.maxSeen
      ensures p in a.completed || exists n <- t.tasks :: t.tasks[n].delivery.offset == p
    {
      if p !in v.completed {
        var n :| n in s.tasks && s.tasks[n].delivery.offset == p;
        assert n in t.tasks;
      }
    }
    if acked {
      assert RunEnd(v.completed, v.lastCommitted) + 1 !in v.completed;
      assert a.lastCommitted + 1 !in a.completed;
    }
  }

  lemma RegisterForgetsNothing(s: Slot, t: Slot, start: nat, cfg: Config)
    requires FlowInv(s, start, cfg) && NothingForgotten(s) && 0 < s.spawned
    requires var d := s.backlog[0];
             && t.tracker == Register(s.tracker, d.offset)
             && t.tasks == s.tasks[d.num := Task(d, s.tracker.generation, Handling)]
    ensures NothingForgotten(t)
  {
    var d := s.backlog[0];
    assert d.num !in s.tasks && t.tasks[d.num].delivery == d;
    forall o | t.tracker.lastCommitted < o <= t.tracker.maxSeen
      ensures o in t.tracker.completed || exists n <- t.tasks :: t.tasks[n].delivery.offset == o
    {
      if o != d.offset && o !in t.tracker.completed {
        var n :| n in s.tasks && s.tasks[n].delivery.offset == o;
        assert n in t.tasks;
      }
    }
  }

  lemma PhaseForgetsNothing(s: Slot, num: nat, phase: Phase, room: KeyLocks.Room)
    requires NothingForgotten(s) && num in s.tasks && (phase.Finishing? ==> phase.handled)
    ensures NothingForgotten(SetPhase(s, num, phase).(room := room))
  {
    var t := SetPhase(s, num, phase).(room := room);
    assert forall n <- s.tasks :: n in t.tasks && t.tasks[n].delivery == s.tasks[n].delivery;
  }

  lemma StepForgetsNothing(s: Slot, step: SlotStep, start: nat, cfg: Config)
    requires FlowInv(s, start, cfg) && NothingForgotten(s) && StableStep(s, step)
    requires step.FailureDone? ==> step.published
    ensures NothingForgotten(Apply(s, step, cfg))
  {
    if Enabled(s, step, cfg) {
      var t := Next(s, step, cfg);
      match step
      case FinalizeTask(num, applied, acked, _) => FinalizeForgetsNothing(s, num, applied, acked, start, cfg);
      case RegisterNext(evicted) =>
        RegisterForgetsNothing(s, t, start, cfg);
      case HandlerReturns(num) => PhaseForgetsNothing(s, num, Finishing(true), t.room);
      case HandlerRaises(num, retryable) => PhaseForgetsNothing(s, num, Failing(retryable, 0), t.room);
      case PublishCopy(num, _) => PhaseForgetsNothing(s, num, t.tasks[num].phase, t.room);
      case FailureDone(num, published) => PhaseForgetsNothing(s, num, Finishing(published), t.room);
      case _ =>
    }
  }

  lemma {:induction false} RunForgetsNothing(start: nat, steps: seq<SlotStep>, cfg: Config)
    requires SettledRun(Start(start), steps, cfg)
    ensures NothingForgotten(Run(Start(start), steps, cfg))
  {
    if steps != [] {
      var init := steps[..|steps| - 1];
      RunForgetsNothing(start, init, cfg);
      RunKeeps(Start(start), init, start, cfg);
      StepForgetsNothing(Run(Start(start), init, cfg), steps[|steps| - 1], start, cfg);
    }
  }

  /** Once the last task has finished and its commit went through, nothing is uncommitted and the partition flows. */
  lemma PauseNeedsOutstandingWork(start: nat, steps: seq<SlotStep>, num: nat, cfg: Config)
    requires 0 <= cfg.flow.resumeAt && 0 <= cfg.flow.maxGap
    requires SettledRun(Start(start), steps, cfg)
    requires var s := Run(Start(start), steps, cfg);
             Enabled(s, FinalizeTask(num, true, true, true), cfg) && s.tasks.Keys == {num}
    ensures var t := Next(Run(Start(start), steps, cfg), FinalizeTask(num, true, true, true), cfg).tracker;
            t.maxSeen <= t.lastCommitted && !t.paused
  {
    RunForgetsNothing(start, steps, cfg);
    RunKeeps(Start(start), steps, start, cfg);
    var s := Run(Start(start), steps, cfg);
    assert (s.tasks - {num}).Keys == {};
    FinalizeForgetsNothing(s, num, true, true, start, cfg);
  }

  // ---------------------------------------------------------------- a pause that never ends

  ghost predicate PausedOverGap(s: Slot, cfg: Config) {
    Stuck(s) && s.tracker.paused && GapDepth(s.tracker) > cfg.flow.resumeAt
  }

  /** Neither a re-read of the missing offset nor a rebalance of the partition. */
  predicate NoRescue(step: SlotStep, gap: int) {
    && (step.Seek? ==> gap < step.offset)
    && (step.BumpGeneration? ==> !step.resetPause)
  }

  /** Exactly these two end it, and the commit position does not move before. */
  lemma StepStaysPausedIff(s: Slot, step: SlotStep, cfg: Config)
    requires PausedOverGap(s, cfg)
    ensures PausedOverGap(Apply(s, step, cfg), cfg) <==> NoRescue(step, s.tracker.lastCommitted + 1)
    ensures NoRescue(step, s.tracker.lastCommitted + 1) ==>
              Apply(s, step, cfg).tracker.lastCommitted == s.tracker.lastCommitted
  {
    if NoRescue(step, s.tracker.lastCommitted + 1) {
      StuckUnlessReread(s, step, cfg);
    }
  }

  /**
   * A partition paused while its commit position is stuck stays paused, whatever its remaining tasks do, until the
   * missing offset is read again or the partition is rebalanced.
   */
  lemma {:induction false} StuckPartitionStaysPaused(s: Slot, steps: seq<SlotStep>, cfg: Config)
    requires PausedOverGap(s, cfg) && forall step <- steps :: NoRescue(step, s.tracker.lastCommitted + 1)
    ensures PausedOverGap(Run(s, steps, cfg), cfg)
    ensures Run(s, steps, cfg).tracker.lastCommitted == s.tracker.lastCommitted
  {
    if steps != [] {
      var init := steps[..|steps| - 1];
      assert forall step <- init :: step in steps;
      StuckPartitionStaysPaused(s, init, cfg);
      assert steps[|steps| - 1] in steps;
      StepStaysPausedIff(Run(s, init, cfg), steps[|steps| - 1], cfg);
    }
  }
}
