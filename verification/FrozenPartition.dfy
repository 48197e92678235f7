/**
 * Runs that freeze a partition's commit position: an unpublished failure, a finalize of an older generation, and a
 * second process that commits past a tracker which survives the rebalance - and what every later run makes of it.
 */
module FrozenPartition {
  import opened Wrappers
  import opened CommitTracker
  import opened PartitionSlot
  import opened RetryLadder
  import opened Cluster
  import opened RecordByRecord
  import Backpressure
  import KeyLocks

  // ---------------------------------------------------------------- one process, two records

  const KEY_A := KeyLocks.Shared("a")
  const KEY_B := KeyLocks.Shared("b")
  const TASK_A := Task(Delivery(0, 0, KEY_A), 0, Handling)
  const TASK_B := Task(Delivery(1, 1, KEY_B), 0, Handling)
  const READ := [SetOwned(true), Poll([KEY_A, KEY_B]), Create, Create]
  const REGISTER := [RegisterNext({}), RegisterNext({})]

  function TwoRead(): Slot {
    Slot(2, 2, [TASK_A.delivery, TASK_B.delivery], 2, map[], KeyLocks.Empty(), Fresh(), true)
  }

  lemma ReadsTwo(cfg: Config)
    requires 2 <= cfg.maxInflight && 2 <= cfg.maxBatch
    ensures Run(FreshSlot(0), READ, cfg) == TwoRead()
  {
    assert READ == [SetOwned(true), Poll([KEY_A, KEY_B])] + [Create, Create];
    RunConcat(FreshSlot(0), [SetOwned(true), Poll([KEY_A, KEY_B])], [Create, Create], cfg);
    RunTwo(FreshSlot(0), SetOwned(true), Poll([KEY_A, KEY_B]), cfg);
    var s := Run(FreshSlot(0), [SetOwned(true), Poll([KEY_A, KEY_B])], cfg);
    assert s.backlog == [TASK_A.delivery, TASK_B.delivery];
    RunTwo(s, Create, Create, cfg);
  }

  /** Both records have a task; the first one's is in its handler. */
  predicate TwoRegistered(s: Slot) {
    && s == Slot(2, 2, [], 0, map[0 := TASK_A, 1 := TASK_B], s.room,
                 Tracker(true, -1, {}, {0, 1}, 1, false, 0), true)
    && KeyLocks.Holds(s.room, 0)
  }

  lemma RegistersFirst(cfg: Config)
    ensures var s := Apply(TwoRead(), RegisterNext({}), cfg);
            && s == Slot(2, 2, [TASK_B.delivery], 1, map[0 := TASK_A], s.room,
                         Tracker(true, -1, {}, {0}, 0, false, 0), true)
            && s.room == KeyLocks.Room(1, map[KEY_A := 0], [KeyLocks.KeyLock(Some(0), [])],
                                       map[0 := KeyLocks.Ticket(KEY_A, 0)], [KeyLocks.Entry(0, KEY_A)])
  {
    var none: set<Key> := {};
    assert TwoRead().room.table - none == TwoRead().room.table;
  }

  lemma RegistersTwo(cfg: Config)
    ensures TwoRegistered(Run(TwoRead(), REGISTER, cfg))
  {
    var none: set<Key> := {};
    RunTwo(TwoRead(), RegisterNext({}), RegisterNext({}), cfg);
    RegistersFirst(cfg);
    var s := Apply(TwoRead(), RegisterNext({}), cfg);
    assert s.room.table - none == s.room.table;
  }

  lemma UnpublishedGap(s: Slot, cfg: Config)
    requires TwoRegistered(s)
    ensures var t := Run(s, [HandlerRaises(0, true), FailureDone(0, false)], cfg);
            && CarriesTheGap(t, 0) && Enabled(t, FinalizeTask(0, false, false, true), cfg)
            && t.owned && t.tracker == s.tracker && t.tasks[0] == TASK_A.(phase := Finishing(false))
  {
    RunTwo(s, HandlerRaises(0, true), FailureDone(0, false), cfg);
  }

  lemma StaleGap(s: Slot, cfg: Config)
    requires TwoRegistered(s)
    ensures var t := Run(s, [BumpGeneration(true), HandlerReturns(0)], cfg);
            && CarriesTheGap(t, 0) && Enabled(t, FinalizeTask(0, false, false, true), cfg)
            && t.tasks[0] == TASK_A.(phase := Finishing(true)) && t.tracker.generation == 1
  {
    RunTwo(s, BumpGeneration(true), HandlerReturns(0), cfg);
  }

  lemma Reaches(a: SlotStep, b: SlotStep, cfg: Config) returns (s: Slot)
    requires 2 <= cfg.maxInflight && 2 <= cfg.maxBatch
    ensures TwoRegistered(s)
    ensures Run(FreshSlot(0), READ + REGISTER + [a, b], cfg) == Run(s, [a, b], cfg)
  {
    ReadsTwo(cfg);
    RegistersTwo(cfg);
    RunConcat(FreshSlot(0), READ, REGISTER, cfg);
    RunConcat(FreshSlot(0), READ + REGISTER, [a, b], cfg);
    s := Run(TwoRead(), REGISTER, cfg);
  }

  /**
   * The first of two records fails and its copy cannot be published: the position is stuck, and if the pause mark is
   * below 2 the partition is paused over it.
   */
  lemma UnpublishedFailureFreezes(cfg: Config)
    requires 2 <= cfg.maxInflight && 2 <= cfg.maxBatch
    ensures var steps := READ + REGISTER + [HandlerRaises(0, true), FailureDone(0, false)];
            CarriesTheGap(Run(FreshSlot(0), steps, cfg), 0)
    ensures var steps := READ + REGISTER + [HandlerRaises(0, true), FailureDone(0, false)] +
                         [FinalizeTask(0, false, false, true)];
            var s := Run(FreshSlot(0), steps, cfg);
            Stuck(s) && (cfg.flow.maxGap < 2 && cfg.flow.resumeAt < 2 ==> Backpressure.PausedOverGap(s, cfg))
  {
    var steps := READ + REGISTER + [HandlerRaises(0, true), FailureDone(0, false)];
    var s := Reaches(HandlerRaises(0, true), FailureDone(0, false), cfg);
    UnpublishedGap(s, cfg);
    var t := Run(FreshSlot(0), steps, cfg);
    RunSnoc(FreshSlot(0), steps, FinalizeTask(0, false, false, true), cfg);
    GapTaskSticksIff(t, 0, false, false, true, cfg);
  }

  /** The first of two records is handled, but the partition was rebalanced meanwhile: the position is stuck. */
  lemma StaleFinalizeFreezes(cfg: Config)
    requires 2 <= cfg.maxInflight && 2 <= cfg.maxBatch
    ensures var steps := READ + REGISTER + [BumpGeneration(true), HandlerReturns(0)];
            CarriesTheGap(Run(FreshSlot(0), steps, cfg), 0)
    ensures var steps := READ + REGISTER + [BumpGeneration(true), HandlerReturns(0)] +
                         [FinalizeTask(0, false, false, true)];
            Stuck(Run(FreshSlot(0), steps, cfg))
  {
    var steps := READ + REGISTER + [BumpGeneration(true), HandlerReturns(0)];
    var s := Reaches(BumpGeneration(true), HandlerReturns(0), cfg);
    StaleGap(s, cfg);
    RunSnoc(FreshSlot(0), steps, FinalizeTask(0, false, false, true), cfg);
    GapTaskSticksIff(Run(FreshSlot(0), steps, cfg), 0, false, false, true, cfg);
  }

  // ---------------------------------------------------------------- one process, as many records as the mark needs

  /** Records one after another: the first one's failure stays unpublished, all others are handled and finalized. */
  function FallBehind(n: nat): seq<SlotStep> {
    if n == 0 then [] else FallBehind(n - 1) + TAKE + if n == 1 then Fail(0) else Handle(n - 1)
  }

  /** The tracker after `n` of them. */
  predicate Behind(t: Tracker, n: nat, cfg: Config) {
    if n == 0 then t == Fresh()
    else t.initialized && t.lastCommitted == -1 && 0 !in t.completed && t.maxSeen == n - 1 &&
         (t.paused <==> cfg.flow.maxGap < n)
  }

  lemma FallsFurtherBehind(t: Tracker, n: nat, cfg: Config)
    requires Behind(t, n, cfg) && !t.paused
    ensures var handled := n > 0;
            Behind(Finalize(Register(t, n), n, t.generation, handled, true, handled, true, cfg.flow), n + 1, cfg)
  {
  }

  lemma {:induction false} FallsBehind(n: nat, cfg: Config)
    requires 1 <= cfg.maxInflight && 1 <= cfg.maxBatch && (1 < n ==> n <= cfg.flow.maxGap + 1)
    ensures Backpressure.StableRun(Backpressure.Start(0), FallBehind(n), cfg)
    ensures var s := Run(Backpressure.Start(0), FallBehind(n), cfg); Ready(s, n, n) && Behind(s.tracker, n, cfg)
  {
    if n > 0 {
      var start, m := Backpressure.Start(0), n - 1;
      FallsBehind(m, cfg);
      var rest := if m == 0 then Fail(0) else Handle(m);
      var s := Run(start, FallBehind(m), cfg);
      TakesStably(start, FallBehind(m), rest, cfg);
      RunConcat(start, FallBehind(m), TAKE, cfg);
      RunConcat(start, FallBehind(m) + TAKE, rest, cfg);
      Takes(s, m, m, cfg);
      if m == 0 {
        Fails(Run(s, TAKE, cfg), m, m, cfg);
      } else {
        Handles(Run(s, TAKE, cfg), m, m, cfg);
      }
      FallsFurtherBehind(s.tracker, m, cfg);
    }
  }

  /**
   * Whatever the marks, one unpublished failure under a stable assignment ends in a paused partition with a stuck
   * position and nothing on its way, after as many records as the pause mark takes. If the resume mark is lower than
   * that, it stays paused over every later run without a rebalance and without a re-read of the failed record.
   */
  lemma UnpublishedFailurePauses(later: seq<SlotStep>, cfg: Config)
    requires 1 <= cfg.maxInflight && 1 <= cfg.maxBatch
    ensures var n := Max(1, cfg.flow.maxGap + 1);
            var s := Run(Backpressure.Start(0), FallBehind(n), cfg);
            && Backpressure.StableRun(Backpressure.Start(0), FallBehind(n), cfg)
            && Stuck(s) && s.tracker.paused && s.backlog == [] && s.tasks == map[]
            && (cfg.flow.resumeAt < n && (forall step <- later :: Backpressure.NoRescue(step, 0)) ==>
                  Backpressure.PausedOverGap(Run(s, later, cfg), cfg))
  {
    var n := Max(1, cfg.flow.maxGap + 1);
    FallsBehind(n, cfg);
    var s := Run(Backpressure.Start(0), FallBehind(n), cfg);
    if cfg.flow.resumeAt < n && forall step <- later :: Backpressure.NoRescue(step, 0) {
      Backpressure.StuckPartitionStaysPaused(s, later, cfg);
    }
  }

  // ---------------------------------------------------------------- a stuck slot in a running cluster

  /** The process crashes, or reads again from the missing offset or below. */
  predicate Rescues(c: State, step: Step, id: SlotId, cfg: Settings)
    requires id in c.slots
  {
    || step == Crash(id.worker)
    || (step.Local? && step.id == id && step.step.Seek? && LocalEnabled(c, id, step.step, cfg) &&
        Committed(c, id.tp) <= c.slots[id].tracker.lastCommitted + 1)
  }

  lemma SlotStepKeepsStuckIff(s: Slot, step: SlotStep, cfg: Config)
    requires Stuck(s) && Enabled(s, step, cfg)
    ensures Stuck(Next(s, step, cfg)) <==> !(step.Seek? && step.offset <= s.tracker.lastCommitted + 1)
  {
    if !(step.Seek? && step.offset <= s.tracker.lastCommitted + 1) {
      StuckUnlessReread(s, step, cfg);
    }
  }

  lemma OtherStepsKeepSlot(c: State, step: Step, id: SlotId, cfg: Settings)
    requires id in c.slots && step != Crash(id.worker) && !(step.Local? && step.id == id)
    ensures var d := ApplyStep(c, step, cfg); id in d.slots && d.slots[id] == c.slots[id]
  {
    if StepEnabled(c, step, cfg) && step.Local? {
      EffectKeepsSlots(c, step.id, step.step, cfg);
    }
  }

  lemma OwnStepMovesSlot(c: State, id: SlotId, step: SlotStep, cfg: Settings)
    requires LocalEnabled(c, id, step, cfg)
    ensures var d := ApplyStep(c, Local(id, step), cfg);
            id in d.slots && d.slots[id] == Next(c.slots[id], step, cfg.slot)
  {
  }

  /** A stuck slot survives a step of the cluster unless that rescues it; it never asks for a commit. */
  lemma StepKeepsStuckIff(c: State, step: Step, id: SlotId, cfg: Settings)
    requires id in c.slots && Stuck(c.slots[id])
    ensures var d := ApplyStep(c, step, cfg);
            && (id in d.slots && Stuck(d.slots[id]) <==> !Rescues(c, step, id, cfg))
            && (!Rescues(c, step, id, cfg) ==> d.slots[id].tracker.lastCommitted == c.slots[id].tracker.lastCommitted)
    ensures step.Local? && step.id == id && LocalEnabled(c, id, step.step, cfg) ==>
              Request(c.slots[id], step.step, cfg.slot).None?
  {
    if step.Local? && step.id == id && LocalEnabled(c, id, step.step, cfg) {
      OwnStepMovesSlot(c, id, step.step, cfg);
      SlotStepKeepsStuckIff(c.slots[id], step.step, cfg.slot);
      if !(step.step.Seek? && step.step.offset <= c.slots[id].tracker.lastCommitted + 1) {
        StuckUnlessReread(c.slots[id], step.step, cfg.slot);
      }
    } else if step != Crash(id.worker) && !(step.Local? && step.id == id) {
      OtherStepsKeepSlot(c, step, id, cfg);
    }
  }

  /** No step of the run rescues the slot. */
  predicate Unrescued(c: State, steps: seq<Step>, id: SlotId, cfg: Settings) {
    steps == [] ||
    (var d := RunAll(c, steps[..|steps| - 1], cfg);
     Unrescued(c, steps[..|steps| - 1], id, cfg) && id in d.slots && !Rescues(d, steps[|steps| - 1], id, cfg))
  }

  /** The slot as the cluster reaches it is stuck right after this position. */
  ghost predicate FrozenAt(c: State, id: SlotId, position: int) {
    id in c.slots && Stuck(c.slots[id]) && c.slots[id].tracker.lastCommitted == position
  }

  /**
   * Over every later run of the whole cluster: a stuck slot stays stuck at the same position and never asks for a
   * commit, whatever its own tasks and the other processes do, until it crashes or reads the missing offset again.
   */
  lemma {:induction false} FrozenUntilRescued(c: State, steps: seq<Step>, id: SlotId, cfg: Settings)
    requires id in c.slots && Stuck(c.slots[id]) && Unrescued(c, steps, id, cfg)
    ensures FrozenAt(RunAll(c, steps, cfg), id, c.slots[id].tracker.lastCommitted)
    ensures forall step :: LocalEnabled(RunAll(c, steps, cfg), id, step, cfg) ==>
              Request(RunAll(c, steps, cfg).slots[id], step, cfg.slot).None?
  {
    if steps != [] {
      FrozenUntilRescued(c, steps[..|steps| - 1], id, cfg);
      StepKeepsStuckIff(RunAll(c, steps[..|steps| - 1], cfg), steps[|steps| - 1], id, cfg);
    }
    var d := RunAll(c, steps, cfg);
    forall step | LocalEnabled(d, id, step, cfg) ensures Request(d.slots[id], step, cfg.slot).None? {
      StepKeepsStuckIff(d, Local(id, step), id, cfg);
    }
  }

  /**
   * A partition that left with nothing outstanding comes back in any state of the cluster: its position is stuck
   * exactly if another process committed past it meanwhile, and then over every later run that does not rescue it.
   */
  lemma ReassignedPartitionSticks(c: State, later: seq<Step>, id: SlotId, cfg: Settings)
    requires id in c.slots && 0 <= Committed(c, id.tp)
    requires c.slots[id].tracker.initialized && c.slots[id].backlog == [] && c.slots[id].tasks == map[]
    requires c.slots[id].tracker.lastCommitted + 1 !in c.slots[id].tracker.completed
    ensures var d, last := ApplyStep(c, Local(id, Seek(Committed(c, id.tp))), cfg), c.slots[id].tracker.lastCommitted;
            && id in d.slots
            && (Stuck(d.slots[id]) <==> last + 1 < Committed(c, id.tp))
            && (last + 1 < Committed(c, id.tp) && Unrescued(d, later, id, cfg) ==>
                  FrozenAt(RunAll(d, later, cfg), id, last))
  {
    var seek := Seek(Committed(c, id.tp));
    var d := ApplyStep(c, Local(id, seek), cfg);
    OwnStepMovesSlot(c, id, seek, cfg);
    if Stuck(d.slots[id]) && Unrescued(d, later, id, cfg) {
      FrozenUntilRescued(d, later, id, cfg);
    }
  }

  // ---------------------------------------------------------------- a second process commits past the tracker

  const PARTITION := TopicPartition(Inbound, 0)
  const FIRST := SlotId(0, PARTITION)
  const SECOND := SlotId(1, PARTITION)
  const OWN_KEY := KeyLocks.PerRecord(0)
  const TASK := Task(Delivery(0, 0, OWN_KEY), 0, Handling)

  /** Steps of one process. */
  function Locals(id: SlotId, steps: seq<SlotStep>): (r: seq<Step>)
    ensures |r| == |steps|
  {
    seq(|steps|, i requires 0 <= i < |steps| => Local(id, steps[i]))
  }

  lemma {:induction false} RunAllConcat(c: State, a: seq<Step>, b: seq<Step>, cfg: Settings)
    ensures RunAll(c, a + b, cfg) == RunAll(RunAll(c, a, cfg), b, cfg)
  {
    if b == [] {
      assert a + b == a;
    } else {
      assert (a + b)[..|a + b| - 1] == a + b[..|b| - 1];
      RunAllConcat(c, a, b[..|b| - 1], cfg);
    }
  }

  /** One step more of one process, seen on its slot and on the rest of the cluster. */
  lemma LocalsSnoc(c: State, id: SlotId, steps: seq<SlotStep>, step: SlotStep, cfg: Settings)
    ensures RunAll(c, Locals(id, steps + [step]), cfg)
            == ApplyStep(RunAll(c, Locals(id, steps), cfg), Local(id, step), cfg)
  {
    var all := Locals(id, steps + [step]);
    assert all[..|steps|] == Locals(id, steps) && all[|steps|] == Local(id, step);
  }

  lemma LocalsTwo(c: State, id: SlotId, a: SlotStep, b: SlotStep, cfg: Settings)
    ensures RunAll(c, Locals(id, [a, b]), cfg) == ApplyStep(ApplyStep(c, Local(id, a), cfg), Local(id, b), cfg)
  {
    assert Locals(id, []) == [] && [] + [a] == [a] && [a] + [b] == [a, b];
    LocalsSnoc(c, id, [], a, cfg);
    LocalsSnoc(c, id, [a], b, cfg);
  }

  function With(c: State, id: SlotId, s: Slot): State {
    c.(slots := c.slots[id := s])
  }

  lemma StepTo(c: State, id: SlotId, s: Slot, step: SlotStep, cfg: Settings)
    requires LocalEnabled(With(c, id, s), id, step, cfg) && Effect(With(c, id, s), id, step, cfg) == With(c, id, s)
    ensures ApplyStep(With(c, id, s), Local(id, step), cfg) == With(c, id, Next(s, step, cfg.slot))
  {
    assert With(With(c, id, s), id, Next(s, step, cfg.slot)) == With(c, id, Next(s, step, cfg.slot));
  }

  const OWN_ROOM := KeyLocks.Room(1, map[OWN_KEY := 0], [KeyLocks.KeyLock(Some(0), [])],
                                  map[0 := KeyLocks.Ticket(OWN_KEY, 0)], [KeyLocks.Entry(0, OWN_KEY)])

  function OneDelivered(spawned: nat): Slot {
    Slot(1, 1, [TASK.delivery], spawned, map[], KeyLocks.Empty(), Fresh(), true)
  }

  function OneRegistered(): Slot {
    Slot(1, 1, [], 0, map[0 := TASK], OWN_ROOM, Tracker(true, -1, {}, {0}, 0, false, 0), true)
  }

  const READ_ONE := [SetOwned(true), Poll([OWN_KEY]), Create, RegisterNext({})]

  /** One undecodable record, which every process reads from the start. */
  predicate OneRecord(c: State, cfg: Settings) {
    Log(c, PARTITION) == [Garbage] && 1 <= cfg.slot.maxInflight && 1 <= cfg.slot.maxBatch
  }

  lemma PollsOne(c: State, id: SlotId, cfg: Settings)
    requires OneRecord(c, cfg) && id.tp == PARTITION
    ensures var s := FreshSlot(0).(owned := true);
            ApplyStep(With(c, id, s), Local(id, Poll([OWN_KEY])), cfg) == With(c, id, OneDelivered(0))
  {
    var s := FreshSlot(0).(owned := true);
    assert Next(s, Poll([OWN_KEY]), cfg.slot).backlog == [TASK.delivery];
    StepTo(c, id, s, Poll([OWN_KEY]), cfg);
  }

  lemma RegistersOne(c: State, id: SlotId, cfg: Settings)
    requires OneRecord(c, cfg) && id.tp == PARTITION
    ensures ApplyStep(With(c, id, OneDelivered(1)), Local(id, RegisterNext({})), cfg) == With(c, id, OneRegistered())
  {
    var none: set<Key> := {};
    var s := OneDelivered(1);
    assert s.room.table - none == s.room.table;
    assert Next(s, RegisterNext({}), cfg.slot) == OneRegistered();
    StepTo(c, id, s, RegisterNext({}), cfg);
  }

  lemma OwnsAndPolls(c: State, id: SlotId, cfg: Settings)
    requires OneRecord(c, cfg) && id.tp == PARTITION && id in c.slots && c.slots[id] == FreshSlot(0)
    ensures RunAll(c, Locals(id, [SetOwned(true), Poll([OWN_KEY])]), cfg) == With(c, id, OneDelivered(0))
  {
    assert With(c, id, FreshSlot(0)) == c;
    LocalsTwo(c, id, SetOwned(true), Poll([OWN_KEY]), cfg);
    StepTo(c, id, FreshSlot(0), SetOwned(true), cfg);
    PollsOne(c, id, cfg);
  }

  lemma CreatesAndRegisters(c: State, id: SlotId, cfg: Settings)
    requires OneRecord(c, cfg) && id.tp == PARTITION
    ensures RunAll(With(c, id, OneDelivered(0)), Locals(id, [Create, RegisterNext({})]), cfg)
            == With(c, id, OneRegistered())
  {
    LocalsTwo(With(c, id, OneDelivered(0)), id, Create, RegisterNext({}), cfg);
    StepTo(c, id, OneDelivered(0), Create, cfg);
    RegistersOne(c, id, cfg);
  }

  lemma ReadsOne(c: State, id: SlotId, cfg: Settings)
    requires OneRecord(c, cfg) && id.tp == PARTITION && id in c.slots && c.slots[id] == FreshSlot(0)
    ensures RunAll(c, Locals(id, READ_ONE), cfg) == With(c, id, OneRegistered())
  {
    OwnsAndPolls(c, id, cfg);
    CreatesAndRegisters(c, id, cfg);
    var front, back := [SetOwned(true), Poll([OWN_KEY])], [Create, RegisterNext({})];
    RunAllConcat(c, Locals(id, front), Locals(id, back), cfg);
    assert Locals(id, READ_ONE) == Locals(id, front) + Locals(id, back);
  }

  const LOSE := [BumpGeneration(true), SetOwned(false)]
  const FINISH_LATE := [HandlerReturns(0), FinalizeTask(0, false, false, true)]
  const COMMIT := [HandlerReturns(0), FinalizeTask(0, true, true, true)]
  const REJOIN := [SetOwned(true), BumpGeneration(true), Seek(1)]

  /** The record is in its handler, whatever happened to the partition meanwhile. */
  function Handled(s: Slot): Slot
    requires 0 in s.tasks && KeyLocks.Holds(s.room, 0)
  {
    SetPhase(s, 0, Finishing(true)).(room := KeyLocks.Next(s.room, KeyLocks.Leave(0)))
  }

  lemma HandlesOne(c: State, id: SlotId, s: Slot, cfg: Settings)
    requires OneRecord(c, cfg) && id.tp == PARTITION && s.tasks == map[0 := TASK] && s.room == OWN_ROOM
    ensures ApplyStep(With(c, id, s), Local(id, HandlerReturns(0)), cfg) == With(c, id, Handled(s))
    ensures Handled(s).tasks == map[0 := TASK.(phase := Finishing(true))]
  {
    StepTo(c, id, s, HandlerReturns(0), cfg);
  }

  lemma LosesPartition(c: State, id: SlotId, cfg: Settings)
    ensures RunAll(With(c, id, OneRegistered()), Locals(id, LOSE), cfg)
            == With(c, id, OneRegistered().(tracker := Tracker(true, -1, {}, {0}, 0, false, 1), owned := false))
  {
    LocalsTwo(With(c, id, OneRegistered()), id, LOSE[0], LOSE[1], cfg);
    StepTo(c, id, OneRegistered(), LOSE[0], cfg);
    StepTo(c, id, Next(OneRegistered(), LOSE[0], cfg.slot), LOSE[1], cfg);
    assert LOSE == [LOSE[0], LOSE[1]];
  }

  /** What the first process is left with: an emptied slot whose tracker missed its only offset. */
  predicate LeftBehind(s: Slot) {
    s.position == 1 && s.backlog == [] && s.spawned == 0 && s.tasks == map[] && s.tracker.initialized &&
    s.tracker.lastCommitted == -1 && s.tracker.completed == {}
  }

  lemma FinalizesStale(s: Slot, cfg: Config)
    requires s.tasks == map[0 := TASK.(phase := Finishing(true))] && s.tracker.generation == 1
    ensures var t := Next(s, FinalizeTask(0, false, false, true), cfg);
            && t == s.(tasks := map[], tracker := s.tracker.(inflight := s.tracker.inflight - {0}))
            && Request(s, FinalizeTask(0, false, false, true), cfg).None?
  {
    assert s.tasks - {0} == map[];
  }

  /** The handler of the first process returns after the loss; its finalize comes too late. */
  lemma FinishesLate(c: State, id: SlotId, s: Slot, cfg: Settings) returns (t: Slot)
    requires OneRecord(c, cfg) && id.tp == PARTITION
    requires s == OneRegistered().(tracker := Tracker(true, -1, {}, {0}, 0, false, 1), owned := false)
    ensures RunAll(With(c, id, s), Locals(id, FINISH_LATE), cfg) == With(c, id, t) && LeftBehind(t)
  {
    LocalsTwo(With(c, id, s), id, HandlerReturns(0), FINISH_LATE[1], cfg);
    HandlesOne(c, id, s, cfg);
    FinalizesStale(Handled(s), cfg.slot);
    StepTo(c, id, Handled(s), FINISH_LATE[1], cfg);
    t := Next(Handled(s), FINISH_LATE[1], cfg.slot);
    assert FINISH_LATE == [HandlerReturns(0), FINISH_LATE[1]];
  }

  lemma FinalizesCurrent(s: Slot, cfg: Config)
    requires s.tasks == map[0 := TASK.(phase := Finishing(true))] && s.owned
    requires s.tracker == Tracker(true, -1, {}, {0}, 0, false, 0)
    ensures Request(s, FinalizeTask(0, true, true, true), cfg) == Some(1)
  {
    var done: set<int> := {};
    assert done + {0} == {0};
    RunEndUnique({0}, -1, RunEnd({0}, -1), 0);
  }

  /** The second process handles the record and commits. */
  lemma CommitsRecord(c: State, id: SlotId, cfg: Settings) returns (s: Slot)
    requires OneRecord(c, cfg) && id.tp == PARTITION
    ensures RunAll(With(c, id, OneRegistered()), Locals(id, COMMIT), cfg)
            == With(c.(positions := c.positions[PARTITION := 1]), id, s)
  {
    var h := Handled(OneRegistered());
    LocalsTwo(With(c, id, OneRegistered()), id, HandlerReturns(0), COMMIT[1], cfg);
    HandlesOne(c, id, OneRegistered(), cfg);
    FinalizesCurrent(h, cfg.slot);
    s := CommitsAt(c, id, h, COMMIT[1], cfg);
    assert COMMIT == [HandlerReturns(0), COMMIT[1]];
  }

  lemma CommitsAt(c: State, id: SlotId, h: Slot, step: SlotStep, cfg: Settings) returns (s: Slot)
    requires id.tp == PARTITION && step == FinalizeTask(0, true, true, true)
    requires Enabled(h, step, cfg.slot) && Request(h, step, cfg.slot) == Some(1)
    ensures ApplyStep(With(c, id, h), Local(id, step), cfg) == With(c.(positions := c.positions[PARTITION := 1]), id, s)
  {
    s := Next(h, step, cfg.slot);
    assert c.slots[id := h][id := s] == c.slots[id := s];
  }

  lemma SeeksPast(c: State, id: SlotId, s: Slot, cfg: Settings)
    requires id.tp == PARTITION && LeftBehind(s) && Committed(c, PARTITION) == 1
    ensures ApplyStep(With(c, id, s), Local(id, Seek(1)), cfg) == With(c, id, s) && Stuck(s)
  {
    StepTo(c, id, s, Seek(1), cfg);
  }

  /** The first process gets the partition back and starts reading at the committed position. */
  lemma Rejoins(c: State, id: SlotId, s: Slot, cfg: Settings)
    requires id.tp == PARTITION && LeftBehind(s) && Committed(c, PARTITION) == 1
    ensures var d := RunAll(With(c, id, s), Locals(id, REJOIN), cfg); id in d.slots && Stuck(d.slots[id])
  {
    var s1 := s.(owned := true);
    var s2 := s1.(tracker := Bump(s1.tracker, true));
    LocalsTwo(With(c, id, s), id, SetOwned(true), BumpGeneration(true), cfg);
    StepTo(c, id, s, SetOwned(true), cfg);
    StepTo(c, id, s1, BumpGeneration(true), cfg);
    LocalsSnoc(With(c, id, s), id, [SetOwned(true), BumpGeneration(true)], Seek(1), cfg);
    SeeksPast(c, id, s2, cfg);
    assert [SetOwned(true), BumpGeneration(true)] + [Seek(1)] == REJOIN;
  }

  /** The whole story, with every process doing only what the code does. */
  function TakeOver(): seq<Step> {
    [Produce(PARTITION, Garbage), Start(FIRST)] + Locals(FIRST, READ_ONE) + Locals(FIRST, LOSE) +
    Locals(FIRST, FINISH_LATE) + [Start(SECOND)] + Locals(SECOND, READ_ONE) + Locals(SECOND, COMMIT) +
    Locals(FIRST, REJOIN)
  }

  lemma StartsUp(cfg: Settings)
    ensures RunAll(Init(), [Produce(PARTITION, Garbage), Start(FIRST)], cfg)
            == State(map[PARTITION := [Garbage]], map[], map[FIRST := FreshSlot(0)], {}, {}, map[])
  {
    var a, b := Produce(PARTITION, Garbage), Start(FIRST);
    assert [a, b][..1] == [a] && [a][..0] == [] && [a][0] == a;
    assert RunAll(Init(), [], cfg) == Init();
    var none: seq<Record> := [];
    assert none + [Garbage] == [Garbage];
    assert RunAll(Init(), [a], cfg) == State(map[PARTITION := [Garbage]], map[], map[], {}, {}, map[]);
  }

  lemma StartsSecond(c: State, cfg: Settings)
    requires SECOND !in c.slots && Committed(c, PARTITION) == 0
    ensures RunAll(c, [Start(SECOND)], cfg) == With(c, SECOND, FreshSlot(0))
  {
    var steps := [Start(SECOND)];
    assert steps[..0] == [] && RunAll(c, [], cfg) == c;
  }

  lemma FirstFallsBehind(cfg: Settings) returns (c: State, left: Slot)
    requires 1 <= cfg.slot.maxInflight && 1 <= cfg.slot.maxBatch
    ensures OneRecord(c, cfg) && c.positions == map[] && SECOND !in c.slots && LeftBehind(left)
    ensures RunAll(Init(), [Produce(PARTITION, Garbage), Start(FIRST)] + Locals(FIRST, READ_ONE) +
                           Locals(FIRST, LOSE) + Locals(FIRST, FINISH_LATE), cfg) == With(c, FIRST, left)
  {
    var up := [Produce(PARTITION, Garbage), Start(FIRST)];
    StartsUp(cfg);
    c := RunAll(Init(), up, cfg);
    RunAllConcat(Init(), up, Locals(FIRST, READ_ONE), cfg);
    ReadsOne(c, FIRST, cfg);
    RunAllConcat(Init(), up + Locals(FIRST, READ_ONE), Locals(FIRST, LOSE), cfg);
    LosesPartition(c, FIRST, cfg);
    RunAllConcat(Init(), up + Locals(FIRST, READ_ONE) + Locals(FIRST, LOSE), Locals(FIRST, FINISH_LATE), cfg);
    var lost := OneRegistered().(tracker := Tracker(true, -1, {}, {0}, 0, false, 1), owned := false);
    left := FinishesLate(c, FIRST, lost, cfg);
  }

  lemma SecondCommits(c: State, cfg: Settings) returns (d: State, done: Slot)
    requires OneRecord(c, cfg) && c.positions == map[] && SECOND !in c.slots
    ensures d == c.(positions := map[PARTITION := 1], slots := c.slots[SECOND := done])
    ensures RunAll(c, [Start(SECOND)] + Locals(SECOND, READ_ONE) + Locals(SECOND, COMMIT), cfg) == d
  {
    StartsSecond(c, cfg);
    var e := With(c, SECOND, FreshSlot(0));
    RunAllConcat(c, [Start(SECOND)], Locals(SECOND, READ_ONE), cfg);
    ReadsOne(e, SECOND, cfg);
    RunAllConcat(c, [Start(SECOND)] + Locals(SECOND, READ_ONE), Locals(SECOND, COMMIT), cfg);
    done := CommitsRecord(e, SECOND, cfg);
    d := With(e.(positions := e.positions[PARTITION := 1]), SECOND, done);
    assert d.slots == c.slots[SECOND := done];
  }

  /**
   * The first process loses the partition in the middle of a record, the second one handles and commits it, and when
   * the first one gets the partition back its position is stuck - in every configuration that lets it read at all.
   */
  lemma TakenOverPartitionSticks(cfg: Settings)
    requires 1 <= cfg.slot.maxInflight && 1 <= cfg.slot.maxBatch
    ensures var c := RunAll(Init(), TakeOver(), cfg); FIRST in c.slots && Stuck(c.slots[FIRST])
  {
    var c, left := FirstFallsBehind(cfg);
    var d, done := SecondCommits(With(c, FIRST, left), cfg);
    var up := [Produce(PARTITION, Garbage), Start(FIRST)] + Locals(FIRST, READ_ONE) + Locals(FIRST, LOSE) +
              Locals(FIRST, FINISH_LATE);
    var over := [Start(SECOND)] + Locals(SECOND, READ_ONE) + Locals(SECOND, COMMIT);
    RunAllConcat(Init(), up, over, cfg);
    RunAllConcat(Init(), up + over, Locals(FIRST, REJOIN), cfg);
    assert TakeOver() == up + over + Locals(FIRST, REJOIN);
    assert With(d, FIRST, left) == d;
    Rejoins(d, FIRST, left, cfg);
  }
}
