/**
 * Everything one consumer process keeps about one topic-partition: the fetch position, the delivered records that have
 * not registered yet (the first `spawned` of them have a task), the registered tasks, the key locks and the tracker.
 * Each step is the code between two suspension points of the poll loop, of a record's task, of a rebalance or of an
 * authentication restart; a step that is not enabled leaves the slot alone, so every list of steps is a run.
 */
module PartitionSlot {
  import opened Wrappers
  import opened CommitTracker
  import KeyLocks

  type Key = KeyLocks.Key

  datatype Config = Config(flow: FlowLimits, maxInflight: nat, maxBatch: nat)

  /** One record handed out by the client; `num` counts deliveries, so a re-read record gets a new number. */
  datatype Delivery = Delivery(num: nat, offset: nat, key: Key)

  /** Handling covers the wait for the key lock, the retry delay and the handler. */
  datatype Phase = Handling | Failing(retryable: bool, copies: nat) | Finishing(handled: bool)

  datatype Task = Task(delivery: Delivery, generation: int, phase: Phase)

  datatype Slot = Slot(
    position: nat,
    arrivals: nat,
    backlog: seq<Delivery>,
    spawned: nat,
    tasks: map<nat, Task>,
    room: KeyLocks.Room,
    tracker: Tracker,
    owned: bool)

  /** Where a copy of a failed record is appended; interpreted by the cluster. */
  type Destination = nat

  /** `applied` says whether the broker took a requested commit, `acked` whether the consumer learned of it. */
  datatype SlotStep =
    | Poll(keys: seq<Key>)
    | Create
    | RegisterNext(evicted: set<Key>)
    | Wake(lock: nat)
    | HandlerReturns(num: nat)
    | HandlerRaises(num: nat, retryable: bool)
    | PublishCopy(num: nat, dest: Destination)
    | FailureDone(num: nat, published: bool)
    | FinalizeTask(num: nat, applied: bool, acked: bool, callOk: bool)
    | Drain(applied: bool, acked: bool)
    | BumpGeneration(resetPause: bool)
    | SetOwned(value: bool)
    | Seek(offset: nat)

  function FreshSlot(position: nat): Slot {
    Slot(position, 0, [], 0, map[], KeyLocks.Empty(), Fresh(), false)
  }

  predicate InHandler(s: Slot, num: nat) {
    num in s.tasks && !s.tasks[num].phase.Finishing? && KeyLocks.Holds(s.room, num)
  }

  predicate Enabled(s: Slot, step: SlotStep, cfg: Config) {
    match step
    case Poll(keys) => s.spawned == |s.backlog| && |keys| <= cfg.maxBatch
    case Create => s.spawned < |s.backlog| && s.spawned + |s.tasks| < cfg.maxInflight
    case RegisterNext(evicted) =>
      0 < s.spawned <= |s.backlog| &&
      KeyLocks.Enabled(s.room, KeyLocks.Join(s.backlog[0].num, s.backlog[0].key, evicted))
    case Wake(lock) => KeyLocks.Enabled(s.room, KeyLocks.Wake(lock))
    case HandlerReturns(num) => InHandler(s, num) && s.tasks[num].phase.Handling?
    case HandlerRaises(num, _) => InHandler(s, num) && s.tasks[num].phase.Handling?
    case PublishCopy(num, _) => InHandler(s, num) && s.tasks[num].phase.Failing?
    case FailureDone(num, published) =>
      InHandler(s, num) && s.tasks[num].phase.Failing? && (published ==> s.tasks[num].phase.copies > 0)
    case FinalizeTask(num, applied, acked, _) =>
      num in s.tasks && s.tasks[num].phase.Finishing? && (acked ==> applied)
    case Drain(applied, acked) => acked ==> applied
    case BumpGeneration(_) => true
    case SetOwned(_) => true
    case Seek(_) => true
  }

  function SetPhase(s: Slot, num: nat, phase: Phase): Slot
    requires num in s.tasks
  {
    s.(tasks := s.tasks[num := s.tasks[num].(phase := phase)])
  }

  function Deliveries(s: Slot, keys: seq<Key>): seq<Delivery> {
    seq(|keys|, i requires 0 <= i < |keys| => Delivery(s.arrivals + i, s.position + i, keys[i]))
  }

  function Next(s: Slot, step: SlotStep, cfg: Config): Slot
    requires Enabled(s, step, cfg)
  {
    match step
    case Poll(keys) =>
      s.(position := s.position + |keys|,
         arrivals := s.arrivals + |keys|,
         backlog := s.backlog + Deliveries(s, keys))
    case Create => s.(spawned := s.spawned + 1)
    case RegisterNext(evicted) =>
      var d := s.backlog[0];
      s.(backlog := s.backlog[1..],
         spawned := s.spawned - 1,
         tracker := Register(s.tracker, d.offset),
         tasks := s.tasks[d.num := Task(d, s.tracker.generation, Handling)],
         room := KeyLocks.Next(s.room, KeyLocks.Join(d.num, d.key, evicted)))
    case Wake(lock) =>
      s.(room := KeyLocks.Next(s.room, KeyLocks.Wake(lock)))
    case HandlerReturns(num) =>
      SetPhase(s, num, Finishing(true)).(room := KeyLocks.Next(s.room, KeyLocks.Leave(num)))
    case HandlerRaises(num, retryable) =>
      SetPhase(s, num, Failing(retryable, 0))
    case PublishCopy(num, _) =>
      var p := s.tasks[num].phase;
      SetPhase(s, num, p.(copies := p.copies + 1))
    case FailureDone(num, published) =>
      SetPhase(s, num, Finishing(published)).(room := KeyLocks.Next(s.room, KeyLocks.Leave(num)))
    case FinalizeTask(num, _, acked, callOk) =>
      var t := s.tasks[num];
      s.(tasks := s.tasks - {num},
         tracker := Finalize(s.tracker, t.delivery.offset, t.generation, t.phase.handled,
                             s.owned, acked, callOk, cfg.flow))
    case Drain(_, acked) => s.(tracker := Advance(s.tracker, s.owned, acked))
    case BumpGeneration(resetPause) => s.(tracker := Bump(s.tracker, resetPause))
    case SetOwned(value) => s.(owned := value)
    case Seek(offset) => s.(position := offset)
  }

  function Apply(s: Slot, step: SlotStep, cfg: Config): Slot {
    if Enabled(s, step, cfg) then Next(s, step, cfg) else s
  }

  function Run(s: Slot, steps: seq<SlotStep>, cfg: Config): Slot {
    if steps == [] then s else Apply(Run(s, steps[..|steps| - 1], cfg), steps[|steps| - 1], cfg)
  }

  /** The position a step asks the broker to commit. */
  function Request(s: Slot, step: SlotStep, cfg: Config): Option<int> {
    if !Enabled(s, step, cfg) then None
    else match step
      case FinalizeTask(num, _, _, _) =>
        var t := s.tasks[num];
        FinalizeRequest(s.tracker, t.delivery.offset, t.generation, t.phase.handled, s.owned)
      case Drain(_, _) => CommitRequest(s.tracker, s.owned)
      case _ => None
  }

  // ---------------------------------------------------------------- exclusion and order per key

  ghost predicate BacklogInOrder(s: Slot) {
    && s.spawned <= |s.backlog| <= s.arrivals
    && s.room.next <= s.arrivals - |s.backlog|
    && (forall i :: 0 <= i < |s.backlog| ==> s.backlog[i].num == s.arrivals - |s.backlog| + i)
  }

  ghost predicate TasksUseLocks(s: Slot) {
    && (forall n <- s.room.live :: n in s.tasks && !s.tasks[n].phase.Finishing? &&
                                   s.tasks[n].delivery.key == s.room.live[n].key)
    && (forall n <- s.tasks :: s.tasks[n].delivery.num == n && n < s.room.next)
    && (forall n <- s.tasks :: !s.tasks[n].phase.Finishing? ==> n in s.room.live)
    && (forall n <- s.tasks :: s.tasks[n].phase.Failing? ==> KeyLocks.Holds(s.room, n))
  }

  ghost predicate LockInv(s: Slot) {
    KeyLocks.Inv(s.room) && BacklogInOrder(s) && TasksUseLocks(s)
  }

  /** No lock lookup of this step evicts a lock that is being handed over. */
  predicate CleanStep(s: Slot, step: SlotStep) {
    step.RegisterNext? ==> forall k <- step.evicted :: KeyLocks.Idle(s.room, k)
  }

  predicate CleanRun(s: Slot, steps: seq<SlotStep>, cfg: Config) {
    steps == [] ||
    (CleanRun(s, steps[..|steps| - 1], cfg) && CleanStep(Run(s, steps[..|steps| - 1], cfg), steps[|steps| - 1]))
  }

  /** The three changes of the lock room, seen from the tasks: one ticket more, one less, or the same. */
  lemma JoinedTasks(s: Slot, room: KeyLocks.Room, task: Task)
    requires TasksUseLocks(s) && s.room.next <= task.delivery.num && task.phase.Handling?
    requires task.delivery.num in room.live && task.delivery.num < room.next && s.room.next <= room.next
    requires room.live == s.room.live[task.delivery.num := room.live[task.delivery.num]]
    requires room.live[task.delivery.num].key == task.delivery.key
    requires forall n :: KeyLocks.Holds(s.room, n) ==> KeyLocks.Holds(room, n)
    ensures TasksUseLocks(s.(tasks := s.tasks[task.delivery.num := task], room := room))
  {
  }

  lemma LeftTasks(s: Slot, room: KeyLocks.Room, num: nat, handled: bool)
    requires TasksUseLocks(s) && num in s.tasks
    requires room.next == s.room.next && room.live == s.room.live - {num}
    requires forall n :: n != num && KeyLocks.Holds(s.room, n) ==> KeyLocks.Holds(room, n)
    ensures TasksUseLocks(SetPhase(s, num, Finishing(handled)).(room := room))
  {
  }

  lemma SameTasks(s: Slot, room: KeyLocks.Room)
    requires TasksUseLocks(s) && room.next == s.room.next && room.live == s.room.live
    requires forall n :: KeyLocks.Holds(s.room, n) ==> KeyLocks.Holds(room, n)
    ensures TasksUseLocks(s.(room := room))
  {
  }

  lemma RegisterKeepsLockInv(s: Slot, evicted: set<Key>, cfg: Config)
    requires LockInv(s) && Enabled(s, RegisterNext(evicted), cfg) && CleanStep(s, RegisterNext(evicted))
    ensures LockInv(Next(s, RegisterNext(evicted), cfg))
  {
    var d := s.backlog[0];
    assert d.num == s.arrivals - |s.backlog|;
    KeyLocks.JoinKeeps(s.room, d.num, d.key, evicted);
    KeyLocks.JoinAddsOneTicket(s.room, d.num, d.key, evicted);
    var room := KeyLocks.Next(s.room, KeyLocks.Join(d.num, d.key, evicted));
    JoinedTasks(s, room, Task(d, s.tracker.generation, Handling));
  }

  lemma LeaveKeepsLockInv(s: Slot, num: nat, handled: bool)
    requires LockInv(s) && InHandler(s, num)
    ensures LockInv(SetPhase(s, num, Finishing(handled)).(room := KeyLocks.Next(s.room, KeyLocks.Leave(num))))
  {
    KeyLocks.LeaveKeeps(s.room, num);
    KeyLocks.LeaveRemovesOneTicket(s.room, num);
    LeftTasks(s, KeyLocks.Next(s.room, KeyLocks.Leave(num)), num, handled);
  }

  lemma WakeKeepsLockInv(s: Slot, lock: nat)
    requires LockInv(s) && KeyLocks.Enabled(s.room, KeyLocks.Wake(lock))
    ensures LockInv(s.(room := KeyLocks.Next(s.room, KeyLocks.Wake(lock))))
  {
    KeyLocks.WakeKeeps(s.room, lock);
    KeyLocks.WakeKeepsHolders(s.room, lock);
    SameTasks(s, KeyLocks.Next(s.room, KeyLocks.Wake(lock)));
  }

  lemma PollKeepsLockInv(s: Slot, keys: seq<Key>)
    requires LockInv(s)
    ensures LockInv(s.(position := s.position + |keys|, arrivals := s.arrivals + |keys|,
                       backlog := s.backlog + Deliveries(s, keys)))
  {
  }

  lemma FailureKeepsLockInv(s: Slot, num: nat, phase: Phase)
    requires LockInv(s) && InHandler(s, num) && phase.Failing?
    ensures LockInv(SetPhase(s, num, phase))
  {
  }

  lemma FinalizeKeepsLockInv(s: Slot, num: nat, tracker: Tracker)
    requires LockInv(s) && num in s.tasks && s.tasks[num].phase.Finishing?
    ensures LockInv(s.(tasks := s.tasks - {num}, tracker := tracker))
  {
  }

  lemma QuietStepKeepsLockInv(s: Slot, t: Slot)
    requires LockInv(s) && t.room == s.room && t.tasks == s.tasks && t.backlog == s.backlog && t.arrivals == s.arrivals
    requires t.spawned <= |t.backlog|
    ensures LockInv(t)
  {
  }

  lemma LockStepKeepsLockInv(s: Slot, step: SlotStep, cfg: Config)
    requires LockInv(s) && CleanStep(s, step) && Enabled(s, step, cfg)
    requires step.Wake? || step.HandlerReturns? || step.FailureDone? || step.RegisterNext?
    ensures LockInv(Next(s, step, cfg))
  {
    match step
    case RegisterNext(evicted) => RegisterKeepsLockInv(s, evicted, cfg);
    case Wake(lock) => WakeKeepsLockInv(s, lock);
    case HandlerReturns(num) => LeaveKeepsLockInv(s, num, true);
    case FailureDone(num, published) => LeaveKeepsLockInv(s, num, published);
  }

  lemma TaskStepKeepsLockInv(s: Slot, step: SlotStep, cfg: Config)
    requires LockInv(s) && Enabled(s, step, cfg)
    requires step.HandlerRaises? || step.PublishCopy? || step.FinalizeTask?
    ensures LockInv(Next(s, step, cfg))
  {
    var t := Next(s, step, cfg);
    if step.FinalizeTask? {
      FinalizeKeepsLockInv(s, step.num, t.tracker);
    } else {
      FailureKeepsLockInv(s, step.num, t.tasks[step.num].phase);
    }
  }

  lemma StepKeepsLockInv(s: Slot, step: SlotStep, cfg: Config)
    requires LockInv(s) && CleanStep(s, step)
    ensures LockInv(Apply(s, step, cfg))
  {
    if Enabled(s, step, cfg) {
      if step.Poll? {
        PollKeepsLockInv(s, step.keys);
      } else if step.HandlerRaises? || step.PublishCopy? || step.FinalizeTask? {
        TaskStepKeepsLockInv(s, step, cfg);
      } else if step.Wake? || step.HandlerReturns? || step.FailureDone? || step.RegisterNext? {
        LockStepKeepsLockInv(s, step, cfg);
      } else {
        QuietStepKeepsLockInv(s, Next(s, step, cfg));
      }
    }
  }

  lemma {:induction false} RunKeepsLockInv(s: Slot, steps: seq<SlotStep>, cfg: Config)
    requires LockInv(s) && CleanRun(s, steps, cfg)
    ensures LockInv(Run(s, steps, cfg))
  {
    if steps != [] {
      RunKeepsLockInv(s, steps[..|steps| - 1], cfg);
      StepKeepsLockInv(Run(s, steps[..|steps| - 1], cfg), steps[|steps| - 1], cfg);
    }
  }

  /** At most one record per key is in its handler, and same-key records entered it in delivery order. */
  ghost predicate OneAtATime(s: Slot) {
    && (forall m, n ::
          InHandler(s, m) && InHandler(s, n) && s.tasks[m].delivery.key == s.tasks[n].delivery.key ==> m == n)
    && (forall i, j :: 0 <= i < j < |s.room.entered| && s.room.entered[i].key == s.room.entered[j].key ==>
          s.room.entered[i].num < s.room.entered[j].num)
  }

  lemma LockInvExcludes(s: Slot)
    requires LockInv(s)
    ensures OneAtATime(s)
  {
  }

  /**
   * Over every run of one topic-partition in which eviction spares locks in hand-over - rebalances, restarts,
   * re-reads and failures included - same-key records are handled one at a time, in delivery order.
   */
  lemma KeyedExclusionAndOrder(position: nat, steps: seq<SlotStep>, cfg: Config)
    requires CleanRun(FreshSlot(position), steps, cfg)
    ensures OneAtATime(Run(FreshSlot(position), steps, cfg))
  {
    RunKeepsLockInv(FreshSlot(position), steps, cfg);
    LockInvExcludes(Run(FreshSlot(position), steps, cfg));
  }

  // ---------------------------------------------------------------- every delivery is accounted for

  /** The delivery whose finalize the step is. */
  function FinishedNow(s: Slot, step: SlotStep, cfg: Config): set<nat> {
    if step.FinalizeTask? && Enabled(s, step, cfg) then {step.num} else {}
  }

  function Finished(position: nat, steps: seq<SlotStep>, cfg: Config): set<nat> {
    if steps == [] then {}
    else
      var init := steps[..|steps| - 1];
      Finished(position, init, cfg) + FinishedNow(Run(FreshSlot(position), init, cfg), steps[|steps| - 1], cfg)
  }

  /** The deliveries that have left the backlog have a task or are finished, never both; the others wait in order. */
  ghost predicate Accounted(s: Slot, finished: set<nat>) {
    && s.spawned <= |s.backlog| <= s.arrivals
    && (forall i :: 0 <= i < |s.backlog| ==> s.backlog[i].num == s.arrivals - |s.backlog| + i)
    && (forall n: nat :: n < s.arrivals - |s.backlog| <==> n in s.tasks || n in finished)
    && s.tasks.Keys !! finished
  }

  lemma RegisterAccounts(s: Slot, t: Slot, finished: set<nat>)
    requires Accounted(s, finished) && 0 < s.spawned
    requires t.backlog == s.backlog[1..] && t.spawned == s.spawned - 1 && t.arrivals == s.arrivals
    requires t.tasks.Keys == s.tasks.Keys + {s.backlog[0].num}
    ensures Accounted(t, finished)
  {
  }

  lemma FinalizeAccounts(s: Slot, t: Slot, num: nat, finished: set<nat>)
    requires Accounted(s, finished) && num in s.tasks
    requires t.backlog == s.backlog && t.spawned == s.spawned && t.arrivals == s.arrivals
    requires t.tasks.Keys == s.tasks.Keys - {num}
    ensures Accounted(t, finished + {num})
  {
  }

  lemma PollAccounts(s: Slot, keys: seq<Key>, finished: set<nat>, cfg: Config)
    requires Accounted(s, finished) && Enabled(s, Poll(keys), cfg)
    ensures Accounted(Next(s, Poll(keys), cfg), finished)
  {
  }

  lemma SameAccounts(s: Slot, t: Slot, finished: set<nat>)
    requires Accounted(s, finished) && t.tasks.Keys == s.tasks.Keys
    requires t.backlog == s.backlog && t.spawned <= |t.backlog| && t.arrivals == s.arrivals
    ensures Accounted(t, finished)
  {
  }

  lemma UnfinishedAccounts(s: Slot, step: SlotStep, finished: set<nat>, cfg: Config)
    requires Accounted(s, finished) && Enabled(s, step, cfg) && !step.FinalizeTask?
    ensures Accounted(Next(s, step, cfg), finished)
  {
    if step.RegisterNext? {
      RegisterAccounts(s, Next(s, step, cfg), finished);
    } else if step.Poll? {
      PollAccounts(s, step.keys, finished, cfg);
    } else {
      SameAccounts(s, Next(s, step, cfg), finished);
    }
  }

  lemma StepAccounts(s: Slot, step: SlotStep, finished: set<nat>, cfg: Config) returns (after: set<nat>)
    requires Accounted(s, finished)
    ensures after == finished + FinishedNow(s, step, cfg) && Accounted(Apply(s, step, cfg), after)
  {
    if step.FinalizeTask? && Enabled(s, step, cfg) {
      FinalizeAccounts(s, Next(s, step, cfg), step.num, finished);
      after := finished + {step.num};
    } else {
      after := finished;
      if Enabled(s, step, cfg) {
        UnfinishedAccounts(s, step, finished, cfg);
      }
    }
  }

  /** Over every run: nothing that was handed out is forgotten or finished twice, whatever happens to the partition. */
  lemma {:induction false} EveryDeliveryAccounted(position: nat, steps: seq<SlotStep>, cfg: Config)
    ensures Accounted(Run(FreshSlot(position), steps, cfg), Finished(position, steps, cfg))
  {
    if steps != [] {
      var init := steps[..|steps| - 1];
      EveryDeliveryAccounted(position, init, cfg);
      var after := StepAccounts(Run(FreshSlot(position), init, cfg), steps[|steps| - 1], Finished(position, init, cfg),
                                cfg);
    }
  }

  // ---------------------------------------------------------------- generations

  /** How many rebalances and restarts there were since delivery num registered. */
  function BumpsSince(position: nat, steps: seq<SlotStep>, num: nat, cfg: Config): nat {
    if steps == [] then 0
    else
      var init, step := steps[..|steps| - 1], steps[|steps| - 1];
      var s := Run(FreshSlot(position), init, cfg);
      if step.RegisterNext? && Enabled(s, step, cfg) && s.backlog[0].num == num then 0
      else BumpsSince(position, init, num, cfg) + if step.BumpGeneration? then 1 else 0
  }

  lemma StepKeepsAge(s: Slot, step: SlotStep, num: nat, age: nat, cfg: Config)
    requires num in s.tasks ==> s.tracker.generation == s.tasks[num].generation + age
    requires !(step.RegisterNext? && Enabled(s, step, cfg) && s.backlog[0].num == num)
    ensures var t := Apply(s, step, cfg);
            num in t.tasks ==>
              t.tracker.generation == t.tasks[num].generation + age + if step.BumpGeneration? then 1 else 0
  {
  }

  lemma RegistersCurrent(s: Slot, step: SlotStep, num: nat, cfg: Config)
    requires step.RegisterNext? && Enabled(s, step, cfg) && s.backlog[0].num == num
    ensures var t := Apply(s, step, cfg); num in t.tasks && t.tracker.generation == t.tasks[num].generation
  {
  }

  lemma {:induction false} TaskAge(position: nat, steps: seq<SlotStep>, num: nat, cfg: Config)
    ensures var s := Run(FreshSlot(position), steps, cfg);
            num in s.tasks ==> s.tracker.generation == s.tasks[num].generation + BumpsSince(position, steps, num, cfg)
  {
    if steps != [] {
      var init, step := steps[..|steps| - 1], steps[|steps| - 1];
      var s := Run(FreshSlot(position), init, cfg);
      TaskAge(position, init, num, cfg);
      if step.RegisterNext? && Enabled(s, step, cfg) && s.backlog[0].num == num {
        RegistersCurrent(s, step, num, cfg);
      } else {
        StepKeepsAge(s, step, num, BumpsSince(position, init, num, cfg), cfg);
      }
    }
  }

  /** The finalize only takes the task and its offset away, and asks for no commit. */
  ghost predicate Inert(s: Slot, step: SlotStep, cfg: Config)
    requires step.FinalizeTask? && Enabled(s, step, cfg)
  {
    var t := Next(s, step, cfg);
    && t.tracker == s.tracker.(inflight := s.tracker.inflight - {s.tasks[step.num].delivery.offset as int})
    && t == s.(tasks := s.tasks - {step.num}, tracker := t.tracker)
    && Request(s, step, cfg).None?
  }

  lemma FinalizeInertIf(s: Slot, step: SlotStep, cfg: Config)
    requires step.FinalizeTask? && Enabled(s, step, cfg)
    ensures s.tasks[step.num].generation != s.tracker.generation ==> Inert(s, step, cfg)
    ensures s.tasks[step.num].generation == s.tracker.generation && s.tasks[step.num].phase.handled ==>
              var t, o := Next(s, step, cfg).tracker, s.tasks[step.num].delivery.offset as int;
              o in t.completed || s.tracker.lastCommitted < o <= t.lastCommitted
  {
  }

  /**
   * Over every run: a finalize changes nothing but the in-flight set if the partition was rebalanced or restarted since
   * the record registered; otherwise a handled record is completed, whatever happened before it registered.
   */
  lemma StaleIffRebalanced(position: nat, steps: seq<SlotStep>, step: SlotStep, cfg: Config)
    requires step.FinalizeTask? && Enabled(Run(FreshSlot(position), steps, cfg), step, cfg)
    ensures var s := Run(FreshSlot(position), steps, cfg);
            && (0 < BumpsSince(position, steps, step.num, cfg) ==> Inert(s, step, cfg))
            && (0 == BumpsSince(position, steps, step.num, cfg) && s.tasks[step.num].phase.handled ==>
                  var t, o := Next(s, step, cfg).tracker, s.tasks[step.num].delivery.offset as int;
                  o in t.completed || s.tracker.lastCommitted < o <= t.lastCommitted)
  {
    TaskAge(position, steps, step.num, cfg);
    FinalizeInertIf(Run(FreshSlot(position), steps, cfg), step, cfg);
  }

  // ---------------------------------------------------------------- what ownership and the client's answers decide

  /** While the partition is not assigned nothing is committed and nothing but a rebalance touches the pause flag. */
  lemma UnownedNeverCommits(s: Slot, step: SlotStep, cfg: Config)
    requires !s.owned
    ensures var t := Apply(s, step, cfg).tracker;
            && Request(s, step, cfg).None?
            && (s.tracker.initialized ==> t.lastCommitted == s.tracker.lastCommitted)
            && (!step.BumpGeneration? ==> t.paused == s.tracker.paused)
            && s.tracker.completed <= t.completed
  {
  }

  /**
   * A current finalize of an assigned partition asks for the end of the run of completed offsets, moves there exactly
   * if the commit was acknowledged, and leaves the pause flag as the two marks demand, unless the client refuses.
   */
  lemma FinalizeCommitsAndAdjusts(s: Slot, step: SlotStep, cfg: Config)
    requires step.FinalizeTask? && Enabled(s, step, cfg) && s.owned
    requires s.tasks[step.num].generation == s.tracker.generation
    ensures var t, u, o := Next(s, step, cfg).tracker, s.tracker, s.tasks[step.num].delivery.offset as int;
            var end := RunEnd(u.completed + if s.tasks[step.num].phase.handled then {o} else {}, u.lastCommitted);
            && (Request(s, step, cfg) == if u.lastCommitted < end then Some(end + 1) else None)
            && t.lastCommitted == (if step.acked then end else u.lastCommitted)
            && (!step.callOk ==> t.paused == u.paused)
            && (step.callOk && t.paused ==> GapDepth(t) > cfg.flow.resumeAt || GapDepth(t) > cfg.flow.maxGap)
            && (step.callOk && !t.paused ==> GapDepth(t) <= cfg.flow.maxGap || GapDepth(t) <= cfg.flow.resumeAt)
  {
    var none: set<int> := {};
    assert s.tracker.completed + none == s.tracker.completed;
  }

  // ---------------------------------------------------------------- a commit position that can no longer move

  /**
   * The offset right above the commit position is neither completed nor on its way, and the client reads on above it:
   * the state a partition is in when it comes back after another process committed past this tracker.
   */
  ghost predicate Stuck(s: Slot) {
    var gap := s.tracker.lastCommitted + 1;
    && s.tracker.initialized
    && gap !in s.tracker.completed
    && gap < s.position
    && (forall d <- s.backlog :: d.offset != gap)
    && (forall n <- s.tasks :: s.tasks[n].delivery.offset != gap)
  }

  /** The only step out of it is a re-read from the gap or below. */
  lemma StuckUnlessReread(s: Slot, step: SlotStep, cfg: Config)
    requires Stuck(s)
    requires step.Seek? ==> s.tracker.lastCommitted + 1 < step.offset
    ensures var t := Apply(s, step, cfg);
            Stuck(t) && t.tracker.lastCommitted == s.tracker.lastCommitted && Request(s, step, cfg).None?
  {
    if Enabled(s, step, cfg) && step.RegisterNext? {
      assert s.backlog[0] in s.backlog;
    }
  }

  lemma {:induction false} StuckForever(s: Slot, steps: seq<SlotStep>, cfg: Config)
    requires Stuck(s)
    requires forall step <- steps :: step.Seek? ==> s.tracker.lastCommitted + 1 < step.offset
    ensures Stuck(Run(s, steps, cfg))
    ensures Run(s, steps, cfg).tracker.lastCommitted == s.tracker.lastCommitted
  {
    if steps != [] {
      StuckForever(s, steps[..|steps| - 1], cfg);
      StuckUnlessReread(Run(s, steps[..|steps| - 1], cfg), steps[|steps| - 1], cfg);
    }
  }

  /** Task num is the last carrier of the offset right above the commit position. */
  ghost predicate CarriesTheGap(s: Slot, num: nat) {
    var gap := s.tracker.lastCommitted + 1;
    && s.tracker.initialized && num in s.tasks && s.tasks[num].delivery.offset == gap
    && gap !in s.tracker.completed && gap < s.position
    && (forall d <- s.backlog :: d.offset != gap)
    && (forall n <- s.tasks :: n != num ==> s.tasks[n].delivery.offset != gap)
  }

  /**
   * When that task finishes, the position sticks at its offset exactly when the failure could not be published or the
   * task belongs to an older generation; a commit that merely fails does not stick it.
   */
  lemma GapTaskSticksIff(s: Slot, num: nat, applied: bool, acked: bool, callOk: bool, cfg: Config)
    requires CarriesTheGap(s, num) && Enabled(s, FinalizeTask(num, applied, acked, callOk), cfg)
    ensures var t := Next(s, FinalizeTask(num, applied, acked, callOk), cfg);
            Stuck(t) && t.tracker.lastCommitted == s.tracker.lastCommitted <==>
            !s.tasks[num].phase.handled || s.tasks[num].generation != s.tracker.generation
  {
    if s.tasks[num].phase.handled && s.tasks[num].generation == s.tracker.generation {
      var gap := s.tracker.lastCommitted + 1;
      assert gap <= RunEnd(s.tracker.completed + {gap}, s.tracker.lastCommitted);
    }
  }
}
