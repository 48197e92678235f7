/**
 * Runs of one topic-partition that take one record at a time: read it, give it a task, let it finish. They are the
 * building blocks of the concrete runs of the other modules.
 */
module RecordByRecord {
  import opened Wrappers
  import opened CommitTracker
  import opened PartitionSlot
  import Backpressure
  import KeyLocks

  // ---------------------------------------------------------------- runs in pieces

  lemma RunSnoc(s: Slot, steps: seq<SlotStep>, step: SlotStep, cfg: Config)
    ensures Run(s, steps + [step], cfg) == Apply(Run(s, steps, cfg), step, cfg)
  {
    assert (steps + [step])[..|steps|] == steps;
  }

  lemma {:induction false} RunConcat(s: Slot, a: seq<SlotStep>, b: seq<SlotStep>, cfg: Config)
    ensures Run(s, a + b, cfg) == Run(Run(s, a, cfg), b, cfg)
  {
    if b == [] {
      assert a + b == a;
    } else {
      assert (a + b)[..|a + b| - 1] == a + b[..|b| - 1];
      RunConcat(s, a, b[..|b| - 1], cfg);
    }
  }

  lemma RunTwo(s: Slot, a: SlotStep, b: SlotStep, cfg: Config)
    ensures Run(s, [a, b], cfg) == Apply(Apply(s, a, cfg), b, cfg)
  {
    RunSnoc(s, [], a, cfg);
    RunSnoc(s, [a], b, cfg);
    assert [] + [a] == [a] && [a] + [b] == [a, b];
  }

  lemma RunThree(s: Slot, a: SlotStep, b: SlotStep, c: SlotStep, cfg: Config)
    ensures Run(s, [a, b, c], cfg) == Apply(Apply(Apply(s, a, cfg), b, cfg), c, cfg)
  {
    RunTwo(s, a, b, cfg);
    RunSnoc(s, [a, b], c, cfg);
    assert [a, b] + [c] == [a, b, c];
  }

  /** Only the polls of a run can break a stable assignment. */
  predicate StableButPolls(steps: seq<SlotStep>) {
    forall step <- steps ::
      && !step.BumpGeneration? && !step.SetOwned? && !step.Seek?
      && (step.FinalizeTask? ==> step.callOk) && !step.Poll?
  }

  lemma {:induction false} StableConcat(s: Slot, a: seq<SlotStep>, b: seq<SlotStep>, cfg: Config)
    requires Backpressure.StableRun(s, a, cfg) && StableButPolls(b)
    ensures Backpressure.StableRun(s, a + b, cfg)
  {
    if b == [] {
      assert a + b == a;
    } else {
      assert (a + b)[..|a + b| - 1] == a + b[..|b| - 1];
      assert StableButPolls(b[..|b| - 1]) && b[|b| - 1] in b;
      StableConcat(s, a, b[..|b| - 1], cfg);
    }
  }

  // ---------------------------------------------------------------- the lock of the only key

  const KEY := KeyLocks.Shared("a")

  /** Nobody uses a lock, so the next lookup of the key acquires at once. */
  predicate FreeRoom(r: KeyLocks.Room, num: nat) {
    && r.next <= num && r.live == map[]
    && (KEY in r.table ==> r.table[KEY] < |r.locks| && r.locks[r.table[KEY]] == KeyLocks.KeyLock(None, []))
  }

  predicate HeldRoom(r: KeyLocks.Room, num: nat) {
    && r.next == num + 1 && KEY in r.table && r.table[KEY] < |r.locks|
    && r.live == map[num := KeyLocks.Ticket(KEY, r.table[KEY])]
    && r.locks[r.table[KEY]] == KeyLocks.KeyLock(Some(num), [])
  }

  lemma JoinsFree(r: KeyLocks.Room, num: nat)
    requires FreeRoom(r, num)
    ensures KeyLocks.Enabled(r, KeyLocks.Join(num, KEY, {}))
    ensures HeldRoom(KeyLocks.Next(r, KeyLocks.Join(num, KEY, {})), num)
  {
    var none: set<Key> := {};
    assert r.table - none == r.table;
  }

  lemma LeavesFree(r: KeyLocks.Room, num: nat)
    requires HeldRoom(r, num)
    ensures KeyLocks.Holds(r, num) && FreeRoom(KeyLocks.Next(r, KeyLocks.Leave(num)), num + 1)
  {
  }

  // ---------------------------------------------------------------- one record

  /** Nothing is on its way; the next delivery is number `num`, of the record at `offset`. */
  predicate Ready(s: Slot, num: nat, offset: nat) {
    && s.owned && s.backlog == [] && s.spawned == 0 && s.tasks == map[]
    && s.arrivals == num && s.position == offset && FreeRoom(s.room, num)
  }

  function Taken(num: nat, offset: nat, generation: int): Task {
    Task(Delivery(num, offset, KEY), generation, Handling)
  }

  /** The record's task is in its handler and nothing else is on its way. */
  predicate InHand(s: Slot, num: nat, offset: nat) {
    && s.owned && s.backlog == [] && s.spawned == 0 && s.arrivals == num + 1
    && s.tasks == map[num := Taken(num, offset, s.tracker.generation)] && HeldRoom(s.room, num)
  }

  const TAKE := [Poll([KEY]), Create, RegisterNext({})]

  function Handle(num: nat): seq<SlotStep> {
    [HandlerReturns(num), FinalizeTask(num, true, true, true)]
  }

  /** The handler raises and no copy of the event gets published. */
  function Fail(num: nat): seq<SlotStep> {
    [HandlerRaises(num, true), FailureDone(num, false), FinalizeTask(num, false, false, true)]
  }

  lemma Registers(s: Slot, num: nat, offset: nat, cfg: Config)
    requires s.owned && s.backlog == [Delivery(num, offset, KEY)] && s.spawned == 1 && s.tasks == map[]
    requires s.arrivals == num + 1 && FreeRoom(s.room, num)
    ensures var t := Apply(s, RegisterNext({}), cfg);
            InHand(t, num, offset) && t.position == s.position && t.tracker == Register(s.tracker, offset)
  {
    JoinsFree(s.room, num);
  }

  lemma Takes(s: Slot, num: nat, offset: nat, cfg: Config)
    requires Ready(s, num, offset) && 1 <= cfg.maxInflight && 1 <= cfg.maxBatch
    ensures var t := Run(s, TAKE, cfg);
            InHand(t, num, offset) && t.position == offset + 1 && t.tracker == Register(s.tracker, offset)
  {
    RunThree(s, Poll([KEY]), Create, RegisterNext({}), cfg);
    var t := Apply(s, Poll([KEY]), cfg);
    assert t.backlog == [Delivery(num, offset, KEY)];
    Registers(Apply(t, Create, cfg), num, offset, cfg);
  }

  lemma Releases(s: Slot, num: nat, offset: nat, step: SlotStep, phase: Phase, cfg: Config)
    requires s.owned && s.backlog == [] && s.spawned == 0 && s.arrivals == num + 1 && HeldRoom(s.room, num)
    requires s.tasks == map[num := Taken(num, offset, s.tracker.generation).(phase := phase)]
    requires (step == HandlerReturns(num) && phase.Handling?) || (step == FailureDone(num, false) && phase.Failing?)
    ensures var t := Apply(s, step, cfg);
            && t == s.(tasks := t.tasks, room := t.room) && FreeRoom(t.room, num + 1)
            && t.tasks == map[num := Taken(num, offset, s.tracker.generation)
                                     .(phase := Finishing(step.HandlerReturns?))]
  {
    LeavesFree(s.room, num);
  }

  lemma Finalizes(s: Slot, num: nat, offset: nat, handled: bool, acked: bool, cfg: Config)
    requires s.owned && s.backlog == [] && s.spawned == 0 && s.arrivals == num + 1 && FreeRoom(s.room, num + 1)
    requires s.tasks == map[num := Taken(num, offset, s.tracker.generation).(phase := Finishing(handled))]
    ensures var t := Apply(s, FinalizeTask(num, acked, acked, true), cfg);
            && Ready(t, num + 1, s.position)
            && t.tracker == Finalize(s.tracker, offset, s.tracker.generation, handled, true, acked, true, cfg.flow)
  {
    assert s.tasks - {num} == map[];
  }

  lemma Handles(s: Slot, num: nat, offset: nat, cfg: Config)
    requires InHand(s, num, offset)
    ensures var t := Run(s, Handle(num), cfg);
            && Ready(t, num + 1, s.position)
            && t.tracker == Finalize(s.tracker, offset, s.tracker.generation, true, true, true, true, cfg.flow)
  {
    RunTwo(s, HandlerReturns(num), FinalizeTask(num, true, true, true), cfg);
    Releases(s, num, offset, HandlerReturns(num), Handling, cfg);
    Finalizes(Apply(s, HandlerReturns(num), cfg), num, offset, true, true, cfg);
  }

  lemma Raises(s: Slot, num: nat, offset: nat, retryable: bool, cfg: Config)
    requires InHand(s, num, offset)
    ensures var t := Apply(s, HandlerRaises(num, retryable), cfg);
            && t == s.(tasks := t.tasks)
            && t.tasks == map[num := Taken(num, offset, s.tracker.generation).(phase := Failing(retryable, 0))]
  {
  }

  lemma Fails(s: Slot, num: nat, offset: nat, cfg: Config)
    requires InHand(s, num, offset)
    ensures var t := Run(s, Fail(num), cfg);
            && Ready(t, num + 1, s.position)
            && t.tracker == Finalize(s.tracker, offset, s.tracker.generation, false, true, false, true, cfg.flow)
  {
    RunThree(s, HandlerRaises(num, true), FailureDone(num, false), FinalizeTask(num, false, false, true), cfg);
    Raises(s, num, offset, true, cfg);
    var t := Apply(s, HandlerRaises(num, true), cfg);
    Releases(t, num, offset, FailureDone(num, false), Failing(true, 0), cfg);
    Finalizes(Apply(t, FailureDone(num, false), cfg), num, offset, false, false, cfg);
  }

  /** The handler raises and a copy of the event gets published: the record counts as handled. */
  function FailOver(num: nat, retryable: bool, partition: nat): seq<SlotStep> {
    [HandlerRaises(num, retryable), PublishCopy(num, partition), FailureDone(num, true)] +
    [FinalizeTask(num, true, true, true)]
  }

  lemma Publishes(s: Slot, num: nat, offset: nat, partition: nat, retryable: bool, cfg: Config)
    requires InHand(s.(tasks := map[num := Taken(num, offset, s.tracker.generation)]), num, offset)
    requires s.tasks == map[num := Taken(num, offset, s.tracker.generation).(phase := Failing(retryable, 0))]
    ensures var t := Apply(Apply(s, PublishCopy(num, partition), cfg), FailureDone(num, true), cfg);
            && t == s.(tasks := t.tasks, room := t.room) && FreeRoom(t.room, num + 1)
            && t.tasks == map[num := Taken(num, offset, s.tracker.generation).(phase := Finishing(true))]
  {
    LeavesFree(s.room, num);
  }

  /** Its offset completes as if the handler had returned, whichever verdict the failure gets. */
  lemma FailsOver(s: Slot, num: nat, offset: nat, retryable: bool, partition: nat, cfg: Config)
    requires InHand(s, num, offset)
    ensures var t := Run(s, FailOver(num, retryable, partition), cfg);
            && Ready(t, num + 1, s.position)
            && t.tracker == Finalize(s.tracker, offset, s.tracker.generation, true, true, true, true, cfg.flow)
  {
    var front := [HandlerRaises(num, retryable), PublishCopy(num, partition), FailureDone(num, true)];
    RunThree(s, HandlerRaises(num, retryable), PublishCopy(num, partition), FailureDone(num, true), cfg);
    RunSnoc(s, front, FinalizeTask(num, true, true, true), cfg);
    Raises(s, num, offset, retryable, cfg);
    Publishes(Apply(s, HandlerRaises(num, retryable), cfg), num, offset, partition, retryable, cfg);
    Finalizes(Run(s, front, cfg), num, offset, true, true, cfg);
  }

  // ---------------------------------------------------------------- under a stable assignment

  /** A stable run goes on with a record, and with what its task does, as long as the partition is not paused. */
  lemma TakesStably(s: Slot, steps: seq<SlotStep>, rest: seq<SlotStep>, cfg: Config)
    requires Backpressure.StableRun(s, steps, cfg) && !Run(s, steps, cfg).tracker.paused && StableButPolls(rest)
    ensures Backpressure.StableRun(s, steps + TAKE + rest, cfg)
  {
    var polled := steps + [Poll([KEY])];
    assert polled[..|polled| - 1] == steps;
    var more := [Create, RegisterNext({})] + rest;
    assert TAKE == [Poll([KEY])] + [Create, RegisterNext({})];
    assert steps + TAKE + rest == polled + more;
    StableConcat(s, polled, more, cfg);
  }
}
