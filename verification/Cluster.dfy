/**
 * Any number of consumer processes sharing the topics of the pipeline: the broker's logs and committed positions,
 * every process's slots, and the failure copies that move an event from topic to topic.
 * Rebalances, authentication restarts, failed or half-failed commits and publishes, and crashes may happen at any time;
 * two processes may even believe they own one partition.
 */
module Cluster {
  import opened Wrappers
  import opened CommitTracker
  import opened PartitionSlot
  import opened RetryLadder
  import KeyLocks
  import Text

  datatype TopicPartition = TopicPartition(topic: Topic, partition: nat)

  /** What decoding a log entry gives; entries that are not JSON objects are garbage. */
  datatype Record = Garbage | Message(event: Event)

  datatype Location = Location(tp: TopicPartition, offset: nat)

  datatype SlotId = SlotId(worker: nat, tp: TopicPartition)

  datatype Settings = Settings(slot: Config, maxAttempts: int)

  /**
   * `handled` are the records whose handler returned, `verdicts` those whose handler raised, each with whether that was
   * retryable; `copies` maps a record to its latest failure copy.
   */
  datatype State = State(
    logs: map<TopicPartition, seq<Record>>,
    positions: map<TopicPartition, int>,
    slots: map<SlotId, Slot>,
    handled: set<Location>,
    verdicts: set<(Location, bool)>,
    copies: map<Location, Location>)

  datatype Step =
    | Produce(tp: TopicPartition, record: Record)
    | Start(id: SlotId)
    | Local(id: SlotId, step: SlotStep)
    | Crash(worker: nat)

  function Init(): State {
    State(map[], map[], map[], {}, {}, map[])
  }

  function Log(c: State, tp: TopicPartition): seq<Record> {
    if tp in c.logs then c.logs[tp] else []
  }

  /** Offsets below it are never read again by a process that starts or rejoins. */
  function Committed(c: State, tp: TopicPartition): int {
    if tp in c.positions then c.positions[tp] else 0
  }

  /** The trimmed key an event is routed by; the empty text if there is none. */
  function RoutingKey(r: Record): string {
    if r.Garbage? then "" else Text.Strip(if r.event.partitionKey != "" then r.event.partitionKey else r.event.id)
  }

  function LockKey(r: Record, offset: nat): Key {
    if RoutingKey(r) != "" then KeyLocks.Shared(RoutingKey(r)) else KeyLocks.PerRecord(offset)
  }

  predicate IsMessage(c: State, loc: Location) {
    loc.offset < |Log(c, loc.tp)| && Log(c, loc.tp)[loc.offset].Message?
  }

  function EventAt(c: State, loc: Location): Event
    requires IsMessage(c, loc)
  {
    Log(c, loc.tp)[loc.offset].event
  }

  function TaskLocation(id: SlotId, s: Slot, num: nat): Location
    requires num in s.tasks
  {
    Location(id.tp, s.tasks[num].delivery.offset)
  }

  /** The broker's part of a slot step. */
  predicate LocalEnabled(c: State, id: SlotId, step: SlotStep, cfg: Settings) {
    && id in c.slots
    && var s := c.slots[id];
    && Enabled(s, step, cfg.slot)
    && match step
       case Poll(keys) =>
         && s.position + |keys| <= |Log(c, id.tp)|
         && (forall i :: 0 <= i < |keys| ==> keys[i] == LockKey(Log(c, id.tp)[s.position + i], s.position + i))
       case HandlerRaises(num, _) => IsMessage(c, TaskLocation(id, s, num))
       case PublishCopy(num, _) => IsMessage(c, TaskLocation(id, s, num))
       case Seek(offset) => offset as int == Committed(c, id.tp)
       case _ => true
  }

  predicate StepEnabled(c: State, step: Step, cfg: Settings) {
    match step
    case Produce(_, _) => true
    case Start(id) => id !in c.slots && !id.tp.topic.Dlq? && 0 <= Committed(c, id.tp)
    case Local(id, local) => LocalEnabled(c, id, local, cfg)
    case Crash(_) => true
  }

  function Append(c: State, tp: TopicPartition, record: Record): State {
    c.(logs := c.logs[tp := Log(c, tp) + [record]])
  }

  function Publish(c: State, loc: Location, retryable: bool, partition: nat, cfg: Settings): State
    requires IsMessage(c, loc)
  {
    var p := HandleFailure(EventAt(c, loc), retryable, cfg.maxAttempts);
    var tp := TopicPartition(p.topic, partition);
    Append(c, tp, Message(p.event)).(copies := c.copies[loc := Location(tp, |Log(c, tp)|)])
  }

  function Commit(c: State, tp: TopicPartition, request: Option<int>, applied: bool): State {
    if request.Some? && applied then c.(positions := c.positions[tp := request.value]) else c
  }

  /** What a slot step does outside its slot. */
  function Effect(c: State, id: SlotId, step: SlotStep, cfg: Settings): State
    requires LocalEnabled(c, id, step, cfg)
  {
    var s := c.slots[id];
    match step
    case HandlerReturns(num) =>
      var loc := TaskLocation(id, s, num);
      if IsMessage(c, loc) then c.(handled := c.handled + {loc}) else c
    case HandlerRaises(num, retryable) =>
      c.(verdicts := c.verdicts + {(TaskLocation(id, s, num), retryable)})
    case PublishCopy(num, partition) =>
      Publish(c, TaskLocation(id, s, num), s.tasks[num].phase.retryable, partition, cfg)
    case FinalizeTask(_, applied, _, _) => Commit(c, id.tp, Request(s, step, cfg.slot), applied)
    case Drain(applied, _) => Commit(c, id.tp, Request(s, step, cfg.slot), applied)
    case _ => c
  }

  function NextState(c: State, step: Step, cfg: Settings): State
    requires StepEnabled(c, step, cfg)
  {
    match step
    case Produce(tp, record) => Append(c, tp, record)
    case Start(id) => c.(slots := c.slots[id := FreshSlot(Committed(c, id.tp))])
    case Local(id, local) =>
      var e := Effect(c, id, local, cfg);
      e.(slots := e.slots[id := Next(c.slots[id], local, cfg.slot)])
    case Crash(worker) => c.(slots := map id | id in c.slots && id.worker != worker :: c.slots[id])
  }

  function ApplyStep(c: State, step: Step, cfg: Settings): State {
    if StepEnabled(c, step, cfg) then NextState(c, step, cfg) else c
  }

  function RunAll(c: State, steps: seq<Step>, cfg: Settings): State {
    if steps == [] then c else ApplyStep(RunAll(c, steps[..|steps| - 1], cfg), steps[|steps| - 1], cfg)
  }

  // ---------------------------------------------------------------- what a commit may pass

  /** The record needs no more work here: undecodable, handled, or replaced by a copy elsewhere. */
  ghost predicate Settled(c: State, loc: Location) {
    && loc.offset < |Log(c, loc.tp)|
    && (Log(c, loc.tp)[loc.offset].Garbage? || loc in c.handled || loc in c.copies)
  }

  ghost predicate SettledBelow(c: State, tp: TopicPartition, n: int) {
    forall o: nat :: o < n ==> Settled(c, Location(tp, o))
  }

  /** A recorded copy is in its topic's log and is what some failure of the record's handler calls for. */
  ghost predicate CopyOk(c: State, loc: Location, cfg: Settings)
    requires loc in c.copies
  {
    && IsMessage(c, loc) && IsMessage(c, c.copies[loc])
    && var copy := Publication(c.copies[loc].tp.topic, EventAt(c, c.copies[loc]));
    exists retryable: bool ::
      (loc, retryable) in c.verdicts && Replaces(copy, EventAt(c, loc), retryable, cfg.maxAttempts)
  }

  ghost predicate TaskOk(c: State, tp: TopicPartition, t: Task) {
    var loc := Location(tp, t.delivery.offset);
    && loc.offset < |Log(c, tp)|
    && (t.phase.Failing? ==>
          && IsMessage(c, loc) && (loc, t.phase.retryable) in c.verdicts
          && (t.phase.copies > 0 ==> loc in c.copies))
    && (t.phase.Finishing? && t.phase.handled ==> Settled(c, loc))
  }

  /** The first offset this process will register next. */
  function Front(s: Slot): int {
    if s.backlog == [] then s.position else s.backlog[0].offset
  }

  ghost predicate TrackerOk(c: State, tp: TopicPartition, t: Tracker) {
    && (forall o <- t.completed :: 0 <= o && Settled(c, Location(tp, o)))
    && (t.initialized ==> -1 <= t.lastCommitted && SettledBelow(c, tp, t.lastCommitted + 1))
    && (!t.initialized ==> t.completed == {} && t.lastCommitted == -1)
  }

  ghost predicate SlotOk(c: State, tp: TopicPartition, s: Slot) {
    && s.spawned <= |s.backlog|
    && (forall d <- s.backlog :: d.offset < |Log(c, tp)|)
    && (forall n <- s.tasks :: TaskOk(c, tp, s.tasks[n]))
    && TrackerOk(c, tp, s.tracker)
    && (!s.tracker.initialized ==> s.tasks == map[] && SettledBelow(c, tp, Front(s)))
  }

  ghost predicate PositionOk(c: State, tp: TopicPartition) {
    0 <= Committed(c, tp) && SettledBelow(c, tp, Committed(c, tp))
  }

  ghost predicate Inv(c: State, cfg: Settings) {
    && (forall tp :: PositionOk(c, tp))
    && (forall loc <- c.copies :: CopyOk(c, loc, cfg))
    && (forall loc <- c.handled :: IsMessage(c, loc))
    && (forall id <- c.slots :: !id.tp.topic.Dlq? && SlotOk(c, id.tp, c.slots[id]))
  }

  // ---------------------------------------------------------------- history only grows

  ghost predicate Grows(c: State, d: State) {
    && (forall tp :: Log(c, tp) <= Log(d, tp))
    && c.handled <= d.handled && c.verdicts <= d.verdicts
    && c.copies.Keys <= d.copies.Keys
  }

  lemma SettledStays(c: State, d: State, loc: Location)
    requires Grows(c, d) && Settled(c, loc)
    ensures Settled(d, loc)
  {
    assert Log(c, loc.tp) <= Log(d, loc.tp);
  }

  lemma SettledBelowStays(c: State, d: State, tp: TopicPartition, n: int)
    requires Grows(c, d) && SettledBelow(c, tp, n)
    ensures SettledBelow(d, tp, n)
  {
    forall o: nat | o < n ensures Settled(d, Location(tp, o)) {
      SettledStays(c, d, Location(tp, o));
    }
  }

  lemma TrackerStays(c: State, d: State, tp: TopicPartition, t: Tracker)
    requires Grows(c, d) && TrackerOk(c, tp, t)
    ensures TrackerOk(d, tp, t)
  {
    forall o | o in t.completed ensures 0 <= o && Settled(d, Location(tp, o)) {
      SettledStays(c, d, Location(tp, o));
    }
    if t.initialized {
      SettledBelowStays(c, d, tp, t.lastCommitted + 1);
    }
  }

  lemma TaskStays(c: State, d: State, tp: TopicPartition, t: Task)
    requires Grows(c, d) && TaskOk(c, tp, t)
    ensures TaskOk(d, tp, t)
  {
    assert Log(c, tp) <= Log(d, tp);
  }

  lemma SlotStays(c: State, d: State, tp: TopicPartition, s: Slot)
    requires Grows(c, d) && SlotOk(c, tp, s)
    ensures SlotOk(d, tp, s)
  {
    assert Log(c, tp) <= Log(d, tp);
    forall n | n in s.tasks ensures TaskOk(d, tp, s.tasks[n]) {
      TaskStays(c, d, tp, s.tasks[n]);
    }
    TrackerStays(c, d, tp, s.tracker);
    if !s.tracker.initialized {
      SettledBelowStays(c, d, tp, Front(s));
    }
  }

  // ---------------------------------------------------------------- the tracker only commits settled offsets

  lemma AdvanceOk(c: State, tp: TopicPartition, t: Tracker, owned: bool, acked: bool)
    requires TrackerOk(c, tp, t)
    ensures TrackerOk(c, tp, Advance(t, owned, acked))
    ensures CommitRequest(t, owned).Some? ==>
              0 <= CommitRequest(t, owned).value && SettledBelow(c, tp, CommitRequest(t, owned).value)
  {
    var end := RunEnd(t.completed, t.lastCommitted);
    forall o: nat | o < end + 1 && t.initialized ensures Settled(c, Location(tp, o)) {
      if t.lastCommitted < o {
        assert o in t.completed;
      }
    }
  }

  lemma FinalizeTrackerOk(c: State, tp: TopicPartition, t: Tracker, offset: nat, generation: int, handled: bool,
                          owned: bool, acked: bool, callOk: bool, limits: FlowLimits)
    requires TrackerOk(c, tp, t) && t.initialized && (handled ==> Settled(c, Location(tp, offset)))
    ensures var r := Finalize(t, offset, generation, handled, owned, acked, callOk, limits);
            TrackerOk(c, tp, r) && r.initialized
    ensures var request := FinalizeRequest(t, offset, generation, handled, owned);
            request.Some? ==> 0 <= request.value && SettledBelow(c, tp, request.value)
  {
    var u := t.(inflight := t.inflight - {offset});
    var v := if handled then u.(completed := u.completed + {offset}) else u;
    assert TrackerOk(c, tp, v);
    AdvanceOk(c, tp, v, owned, acked);
  }

  lemma FinalizeOk(c: State, id: SlotId, s: Slot, step: SlotStep, cfg: Config)
    requires SlotOk(c, id.tp, s) && step.FinalizeTask? && Enabled(s, step, cfg)
    ensures SlotOk(c, id.tp, Next(s, step, cfg))
    ensures Request(s, step, cfg).Some? ==>
              0 <= Request(s, step, cfg).value && SettledBelow(c, id.tp, Request(s, step, cfg).value)
  {
    var t := s.tasks[step.num];
    assert TaskOk(c, id.tp, t);
    FinalizeTrackerOk(c, id.tp, s.tracker, t.delivery.offset, t.generation, t.phase.handled,
                      s.owned, step.acked, step.callOk, cfg.flow);
  }

  // ---------------------------------------------------------------- every step keeps the invariant

  lemma AppendGrows(c: State, tp: TopicPartition, record: Record)
    ensures Grows(c, Append(c, tp, record))
  {
  }

  lemma CopyStays(c: State, d: State, loc: Location, cfg: Settings)
    requires Grows(c, d) && loc in c.copies && CopyOk(c, loc, cfg)
    requires loc in d.copies && d.copies[loc] == c.copies[loc]
    ensures CopyOk(d, loc, cfg)
  {
    assert Log(c, loc.tp) <= Log(d, loc.tp) && Log(c, c.copies[loc].tp) <= Log(d, c.copies[loc].tp);
    assert EventAt(d, loc) == EventAt(c, loc) && EventAt(d, d.copies[loc]) == EventAt(c, c.copies[loc]);
  }

  /** Growth of the history alone keeps everything. */
  lemma GrowthKeepsInv(c: State, d: State, cfg: Settings)
    requires Inv(c, cfg) && Grows(c, d)
    requires d.positions == c.positions && d.slots == c.slots
    requires forall loc <- d.copies :: (loc in c.copies && d.copies[loc] == c.copies[loc]) || CopyOk(d, loc, cfg)
    requires forall loc <- d.handled :: loc in c.handled || IsMessage(d, loc)
    ensures Inv(d, cfg)
  {
    forall tp ensures PositionOk(d, tp) {
      assert PositionOk(c, tp);
      SettledBelowStays(c, d, tp, Committed(c, tp));
    }
    forall loc | loc in d.copies ensures CopyOk(d, loc, cfg) {
      if loc in c.copies && d.copies[loc] == c.copies[loc] {
        CopyStays(c, d, loc, cfg);
      }
    }
    forall loc | loc in d.handled ensures IsMessage(d, loc) {
      assert Log(c, loc.tp) <= Log(d, loc.tp);
    }
    forall id | id in d.slots ensures SlotOk(d, id.tp, d.slots[id]) {
      SlotStays(c, d, id.tp, c.slots[id]);
    }
  }

  lemma PublishOk(c: State, loc: Location, retryable: bool, partition: nat, cfg: Settings)
    requires Inv(c, cfg) && IsMessage(c, loc) && (loc, retryable) in c.verdicts
    ensures var d := Publish(c, loc, retryable, partition, cfg);
            Inv(d, cfg) && Grows(c, d) && loc in d.copies
  {
    var d := Publish(c, loc, retryable, partition, cfg);
    var p := HandleFailure(EventAt(c, loc), retryable, cfg.maxAttempts);
    FailureIsReplaced(EventAt(c, loc), retryable, cfg.maxAttempts, p);
    assert Grows(c, d);
    assert IsMessage(d, d.copies[loc]) && EventAt(d, d.copies[loc]) == p.event;
    assert EventAt(d, loc) == EventAt(c, loc) && (loc, retryable) in d.verdicts;
    GrowthKeepsInv(c, d, cfg);
  }

  lemma HandledOk(c: State, loc: Location, cfg: Settings)
    requires Inv(c, cfg) && IsMessage(c, loc)
    ensures Inv(c.(handled := c.handled + {loc}), cfg) && Grows(c, c.(handled := c.handled + {loc}))
  {
    GrowthKeepsInv(c, c.(handled := c.handled + {loc}), cfg);
  }

  lemma VerdictOk(c: State, loc: Location, retryable: bool, cfg: Settings)
    requires Inv(c, cfg)
    ensures var d := c.(verdicts := c.verdicts + {(loc, retryable)}); Inv(d, cfg) && Grows(c, d)
  {
    GrowthKeepsInv(c, c.(verdicts := c.verdicts + {(loc, retryable)}), cfg);
  }

  lemma CommitOk(c: State, tp: TopicPartition, request: Option<int>, applied: bool, cfg: Settings)
    requires Inv(c, cfg)
    requires request.Some? ==> 0 <= request.value && SettledBelow(c, tp, request.value)
    ensures Inv(Commit(c, tp, request, applied), cfg) && Grows(c, Commit(c, tp, request, applied))
  {
    var d := Commit(c, tp, request, applied);
    forall q ensures PositionOk(d, q) {
      assert PositionOk(c, q);
      SettledBelowStays(c, d, q, Committed(d, q));
    }
    forall loc | loc in d.copies ensures CopyOk(d, loc, cfg) {
      CopyStays(c, d, loc, cfg);
    }
    forall id | id in d.slots ensures SlotOk(d, id.tp, d.slots[id]) {
      SlotStays(c, d, id.tp, c.slots[id]);
    }
  }

  lemma CommitEffectOk(c: State, id: SlotId, step: SlotStep, cfg: Settings)
    requires Inv(c, cfg) && LocalEnabled(c, id, step, cfg) && (step.FinalizeTask? || step.Drain?)
    ensures var d := Effect(c, id, step, cfg); Inv(d, cfg) && Grows(c, d)
  {
    var s := c.slots[id];
    assert SlotOk(c, id.tp, s);
    if step.FinalizeTask? {
      FinalizeOk(c, id, s, step, cfg.slot);
    } else {
      AdvanceOk(c, id.tp, s.tracker, s.owned, step.acked);
    }
    CommitOk(c, id.tp, Request(s, step, cfg.slot), step.applied, cfg);
  }

  lemma HandlerEffectOk(c: State, id: SlotId, step: SlotStep, cfg: Settings)
    requires Inv(c, cfg) && LocalEnabled(c, id, step, cfg) && step.HandlerReturns?
    ensures var d := Effect(c, id, step, cfg);
            Inv(d, cfg) && Grows(c, d) && Settled(d, TaskLocation(id, c.slots[id], step.num))
  {
    var s := c.slots[id];
    assert SlotOk(c, id.tp, s) && TaskOk(c, id.tp, s.tasks[step.num]);
    if IsMessage(c, TaskLocation(id, s, step.num)) {
      HandledOk(c, TaskLocation(id, s, step.num), cfg);
    }
  }

  lemma PublishEffectOk(c: State, id: SlotId, step: SlotStep, cfg: Settings)
    requires Inv(c, cfg) && LocalEnabled(c, id, step, cfg) && step.PublishCopy?
    ensures var d := Effect(c, id, step, cfg);
            Inv(d, cfg) && Grows(c, d) && TaskLocation(id, c.slots[id], step.num) in d.copies
  {
    var s := c.slots[id];
    assert SlotOk(c, id.tp, s) && TaskOk(c, id.tp, s.tasks[step.num]);
    PublishOk(c, TaskLocation(id, s, step.num), s.tasks[step.num].phase.retryable, step.dest, cfg);
  }

  lemma NoEffectOk(c: State, id: SlotId, step: SlotStep, cfg: Settings)
    requires LocalEnabled(c, id, step, cfg)
    requires !step.HandlerReturns? && !step.HandlerRaises? && !step.PublishCopy?
    requires !step.FinalizeTask? && !step.Drain?
    ensures var d := Effect(c, id, step, cfg); d == c && Grows(c, d)
  {
  }

  /** What a slot step does outside its slot is safe, and what the step relies on inside is there. */
  lemma EffectOk(c: State, id: SlotId, step: SlotStep, cfg: Settings)
    requires Inv(c, cfg) && LocalEnabled(c, id, step, cfg)
    ensures var d := Effect(c, id, step, cfg); Inv(d, cfg) && Grows(c, d)
    ensures var d := Effect(c, id, step, cfg);
            && (step.HandlerReturns? ==> Settled(d, TaskLocation(id, c.slots[id], step.num)))
            && (step.HandlerRaises? ==> (TaskLocation(id, c.slots[id], step.num), step.retryable) in d.verdicts)
            && (step.PublishCopy? ==> TaskLocation(id, c.slots[id], step.num) in d.copies)
  {
    if step.HandlerReturns? {
      HandlerEffectOk(c, id, step, cfg);
    } else if step.HandlerRaises? {
      VerdictOk(c, TaskLocation(id, c.slots[id], step.num), step.retryable, cfg);
    } else if step.PublishCopy? {
      PublishEffectOk(c, id, step, cfg);
    } else if step.FinalizeTask? || step.Drain? {
      CommitEffectOk(c, id, step, cfg);
    } else {
      NoEffectOk(c, id, step, cfg);
    }
  }

  lemma EffectKeepsSlots(c: State, id: SlotId, step: SlotStep, cfg: Settings)
    requires LocalEnabled(c, id, step, cfg)
    ensures Effect(c, id, step, cfg).slots == c.slots
  {
  }

  lemma PhaseOk(c: State, tp: TopicPartition, s: Slot, num: nat, phase: Phase, room: KeyLocks.Room)
    requires SlotOk(c, tp, s) && num in s.tasks && TaskOk(c, tp, s.tasks[num].(phase := phase))
    ensures SlotOk(c, tp, SetPhase(s, num, phase).(room := room))
  {
  }

  lemma RegisterOk(c: State, tp: TopicPartition, s: Slot, room: KeyLocks.Room)
    requires SlotOk(c, tp, s) && 0 < s.spawned
    ensures var d := s.backlog[0];
            SlotOk(c, tp, s.(backlog := s.backlog[1..],
                             spawned := s.spawned - 1,
                             tracker := Register(s.tracker, d.offset),
                             tasks := s.tasks[d.num := Task(d, s.tracker.generation, Handling)],
                             room := room))
  {
    var d := s.backlog[0];
    assert d in s.backlog;
    assert Register(s.tracker, d.offset).initialized;
    assert forall e :: e in s.backlog[1..] ==> e in s.backlog;
  }

  lemma PollOk(c: State, tp: TopicPartition, s: Slot, keys: seq<Key>)
    requires SlotOk(c, tp, s) && s.position + |keys| <= |Log(c, tp)|
    ensures SlotOk(c, tp, s.(position := s.position + |keys|, arrivals := s.arrivals + |keys|,
                             backlog := s.backlog + Deliveries(s, keys)))
  {
    var ds := Deliveries(s, keys);
    assert forall d :: d in s.backlog + ds ==> d in s.backlog || d in ds;
    assert s.backlog == [] && keys != [] ==> (s.backlog + ds)[0].offset == s.position;
  }

  lemma SeekOk(c: State, tp: TopicPartition, s: Slot, offset: nat)
    requires SlotOk(c, tp, s) && PositionOk(c, tp) && offset == Committed(c, tp)
    ensures SlotOk(c, tp, s.(position := offset))
  {
  }

  lemma TaskStepOk(c: State, id: SlotId, s: Slot, step: SlotStep, cfg: Config)
    requires SlotOk(c, id.tp, s) && Enabled(s, step, cfg)
    requires step.HandlerReturns? || step.HandlerRaises? || step.PublishCopy? || step.FailureDone?
    requires step.HandlerReturns? ==> Settled(c, TaskLocation(id, s, step.num))
    requires step.HandlerRaises? ==>
               IsMessage(c, TaskLocation(id, s, step.num)) &&
               (TaskLocation(id, s, step.num), step.retryable) in c.verdicts
    requires step.PublishCopy? ==> TaskLocation(id, s, step.num) in c.copies
    ensures SlotOk(c, id.tp, Next(s, step, cfg))
  {
    var t := Next(s, step, cfg);
    assert TaskOk(c, id.tp, s.tasks[step.num]);
    PhaseOk(c, id.tp, s, step.num, t.tasks[step.num].phase, t.room);
  }

  /** The slot after the step, in the state the step's effect leaves behind. */
  lemma LocalOk(c: State, d: State, id: SlotId, step: SlotStep, cfg: Settings)
    requires PositionOk(d, id.tp) && LocalEnabled(c, id, step, cfg) && Grows(c, d) && SlotOk(d, id.tp, c.slots[id])
    requires step.Seek? ==> Committed(c, id.tp) == Committed(d, id.tp)
    requires step.HandlerReturns? ==> Settled(d, TaskLocation(id, c.slots[id], step.num))
    requires step.HandlerRaises? ==> (TaskLocation(id, c.slots[id], step.num), step.retryable) in d.verdicts
    requires step.PublishCopy? ==> TaskLocation(id, c.slots[id], step.num) in d.copies
    ensures SlotOk(d, id.tp, Next(c.slots[id], step, cfg.slot))
  {
    var s := c.slots[id];
    assert Log(c, id.tp) <= Log(d, id.tp);
    if step.Poll? {
      PollOk(d, id.tp, s, step.keys);
    } else if step.RegisterNext? {
      RegisterOk(d, id.tp, s, Next(s, step, cfg.slot).room);
    } else if step.HandlerReturns? || step.HandlerRaises? || step.PublishCopy? || step.FailureDone? {
      TaskStepOk(d, id, s, step, cfg.slot);
    } else if step.FinalizeTask? {
      FinalizeOk(d, id, s, step, cfg.slot);
    } else if step.Drain? {
      AdvanceOk(d, id.tp, s.tracker, s.owned, step.acked);
    } else if step.Seek? {
      SeekOk(d, id.tp, s, step.offset);
    }
  }

  lemma SlotsKeepInv(c: State, slots: map<SlotId, Slot>, cfg: Settings)
    requires Inv(c, cfg)
    requires forall id <- slots :: !id.tp.topic.Dlq? && SlotOk(c, id.tp, slots[id])
    ensures Inv(c.(slots := slots), cfg)
  {
    var d := c.(slots := slots);
    forall tp ensures PositionOk(d, tp) {
      assert PositionOk(c, tp);
      SettledBelowStays(c, d, tp, Committed(c, tp));
    }
    forall loc | loc in d.copies ensures CopyOk(d, loc, cfg) {
      CopyStays(c, d, loc, cfg);
    }
    forall id | id in slots ensures SlotOk(d, id.tp, slots[id]) {
      SlotStays(c, d, id.tp, slots[id]);
    }
  }

  lemma SlotKeepsInv(c: State, id: SlotId, s: Slot, cfg: Settings)
    requires Inv(c, cfg) && !id.tp.topic.Dlq? && SlotOk(c, id.tp, s)
    ensures Inv(c.(slots := c.slots[id := s]), cfg)
  {
    SlotsKeepInv(c, c.slots[id := s], cfg);
  }

  lemma StartKeepsInv(c: State, id: SlotId, cfg: Settings)
    requires Inv(c, cfg) && !id.tp.topic.Dlq? && 0 <= Committed(c, id.tp)
    ensures Inv(c.(slots := c.slots[id := FreshSlot(Committed(c, id.tp))]), cfg)
  {
    assert PositionOk(c, id.tp);
    assert SlotOk(c, id.tp, FreshSlot(Committed(c, id.tp)));
    SlotKeepsInv(c, id, FreshSlot(Committed(c, id.tp)), cfg);
  }

  lemma EffectThenSlotOk(c: State, d: State, id: SlotId, step: SlotStep, cfg: Settings)
    requires Inv(c, cfg) && LocalEnabled(c, id, step, cfg) && d == Effect(c, id, step, cfg)
    ensures Inv(d, cfg) && !id.tp.topic.Dlq? && SlotOk(d, id.tp, Next(c.slots[id], step, cfg.slot))
  {
    EffectOk(c, id, step, cfg);
    EffectKeepsSlots(c, id, step, cfg);
    assert SlotOk(d, id.tp, d.slots[id]) && PositionOk(d, id.tp);
    LocalOk(c, d, id, step, cfg);
  }

  lemma LocalKeepsInv(c: State, id: SlotId, step: SlotStep, cfg: Settings)
    requires Inv(c, cfg) && LocalEnabled(c, id, step, cfg)
    ensures Inv(NextState(c, Local(id, step), cfg), cfg)
  {
    var d := Effect(c, id, step, cfg);
    EffectThenSlotOk(c, d, id, step, cfg);
    SlotKeepsInv(d, id, Next(c.slots[id], step, cfg.slot), cfg);
  }

  lemma StepKeepsInv(c: State, step: Step, cfg: Settings)
    requires Inv(c, cfg)
    ensures Inv(ApplyStep(c, step, cfg), cfg)
  {
    if StepEnabled(c, step, cfg) {
      match step
      case Produce(tp, record) =>
        AppendGrows(c, tp, record);
        GrowthKeepsInv(c, Append(c, tp, record), cfg);
      case Start(id) => StartKeepsInv(c, id, cfg);
      case Local(id, local) => LocalKeepsInv(c, id, local, cfg);
      case Crash(worker) =>
        SlotsKeepInv(c, map id | id in c.slots && id.worker != worker :: c.slots[id], cfg);
    }
  }

  lemma {:induction false} RunKeepsInv(steps: seq<Step>, cfg: Settings)
    ensures Inv(RunAll(Init(), steps, cfg), cfg)
  {
    if steps != [] {
      RunKeepsInv(steps[..|steps| - 1], cfg);
      StepKeepsInv(RunAll(Init(), steps[..|steps| - 1], cfg), steps[|steps| - 1], cfg);
    }
  }

  // ---------------------------------------------------------------- the histories are true

  /** The step ends the handler of the event at `loc` by returning. */
  predicate Returned(c: State, step: Step, loc: Location, cfg: Settings) {
    && step.Local? && step.step.HandlerReturns? && LocalEnabled(c, step.id, step.step, cfg)
    && TaskLocation(step.id, c.slots[step.id], step.step.num) == loc && IsMessage(c, loc)
  }

  predicate Raised(c: State, step: Step, loc: Location, retryable: bool, cfg: Settings) {
    && step.Local? && step.step.HandlerRaises? && LocalEnabled(c, step.id, step.step, cfg)
    && TaskLocation(step.id, c.slots[step.id], step.step.num) == loc && step.step.retryable == retryable
  }

  predicate EverReturned(steps: seq<Step>, loc: Location, cfg: Settings) {
    steps != [] &&
    (EverReturned(steps[..|steps| - 1], loc, cfg) ||
     Returned(RunAll(Init(), steps[..|steps| - 1], cfg), steps[|steps| - 1], loc, cfg))
  }

  predicate EverRaised(steps: seq<Step>, loc: Location, retryable: bool, cfg: Settings) {
    steps != [] &&
    (EverRaised(steps[..|steps| - 1], loc, retryable, cfg) ||
     Raised(RunAll(Init(), steps[..|steps| - 1], cfg), steps[|steps| - 1], loc, retryable, cfg))
  }

  lemma EffectRemembers(c: State, id: SlotId, step: SlotStep, loc: Location, retryable: bool, cfg: Settings)
    requires LocalEnabled(c, id, step, cfg)
    ensures var d := Effect(c, id, step, cfg);
            && (loc in d.handled <==> loc in c.handled || Returned(c, Local(id, step), loc, cfg))
            && ((loc, retryable) in d.verdicts <==>
                  (loc, retryable) in c.verdicts || Raised(c, Local(id, step), loc, retryable, cfg))
  {
  }

  lemma StepRemembers(c: State, step: Step, loc: Location, retryable: bool, cfg: Settings)
    ensures var d := ApplyStep(c, step, cfg);
            && (loc in d.handled <==> loc in c.handled || Returned(c, step, loc, cfg))
            && ((loc, retryable) in d.verdicts <==>
                  (loc, retryable) in c.verdicts || Raised(c, step, loc, retryable, cfg))
  {
    if StepEnabled(c, step, cfg) && step.Local? {
      EffectRemembers(c, step.id, step.step, loc, retryable, cfg);
    }
  }

  /** `handled` and `verdicts` are what handlers did over the run, no more and no less. */
  lemma {:induction false} HistoriesAreTrue(steps: seq<Step>, loc: Location, retryable: bool, cfg: Settings)
    ensures var c := RunAll(Init(), steps, cfg);
            && (loc in c.handled <==> EverReturned(steps, loc, cfg))
            && ((loc, retryable) in c.verdicts <==> EverRaised(steps, loc, retryable, cfg))
  {
    if steps != [] {
      HistoriesAreTrue(steps[..|steps| - 1], loc, retryable, cfg);
      StepRemembers(RunAll(Init(), steps[..|steps| - 1], cfg), steps[|steps| - 1], loc, retryable, cfg);
    }
  }

  // ---------------------------------------------------------------- the copy of one failed task

  /** A task that is failing has the verdict its own handler raised with. */
  lemma TaskKeepsVerdict(s: Slot, step: SlotStep, num: nat, cfg: Config)
    requires Enabled(s, step, cfg) && num in Next(s, step, cfg).tasks && Next(s, step, cfg).tasks[num].phase.Failing?
    ensures var retryable := Next(s, step, cfg).tasks[num].phase.retryable;
            || step == HandlerRaises(num, retryable)
            || (num in s.tasks && s.tasks[num].phase.Failing? && s.tasks[num].phase.retryable == retryable)
  {
  }

  /** The only change to the logs is one event at the end of one log, and it replaces the one at `loc`. */
  ghost predicate AppendsReplacement(c: State, d: State, loc: Location, retryable: bool, partition: nat, cfg: Settings)
    requires IsMessage(c, loc)
  {
    && loc in d.copies && IsMessage(d, d.copies[loc])
    && var at := d.copies[loc];
    && Replaces(Publication(at.tp.topic, EventAt(d, at)), EventAt(c, loc), retryable, cfg.maxAttempts)
    && at.tp.partition == partition && at.offset == |Log(c, at.tp)|
    && Log(d, at.tp) == Log(c, at.tp) + [Message(EventAt(d, at))]
    && (forall tp :: tp != at.tp ==> Log(d, tp) == Log(c, tp))
  }

  /**
   * In every state, publishing the copy of a failing task appends one event to one log and changes no position: the
   * event its verdict calls for, in the topic it calls for, and that is where the failed record's copy is from now on.
   */
  lemma PublishesReplacement(c: State, id: SlotId, num: nat, partition: nat, cfg: Settings)
    requires LocalEnabled(c, id, PublishCopy(num, partition), cfg)
    ensures var d, t := ApplyStep(c, Local(id, PublishCopy(num, partition)), cfg), c.slots[id].tasks[num];
            var loc := Location(id.tp, t.delivery.offset);
            && AppendsReplacement(c, d, loc, t.phase.retryable, partition, cfg)
            && (forall other <- c.copies :: other != loc ==> other in d.copies && d.copies[other] == c.copies[other])
            && d.positions == c.positions
  {
    var loc, retryable := TaskLocation(id, c.slots[id], num), c.slots[id].tasks[num].phase.retryable;
    FailureIsReplaced(EventAt(c, loc), retryable, cfg.maxAttempts,
                      HandleFailure(EventAt(c, loc), retryable, cfg.maxAttempts));
  }

  /** The event's handler is running in this task. */
  predicate InItsHandler(c: State, id: SlotId, num: nat, phase: Phase) {
    && id in c.slots && InHandler(c.slots[id], num) && c.slots[id].tasks[num].phase == phase
    && IsMessage(c, TaskLocation(id, c.slots[id], num))
  }

  lemma MayRaise(c: State, id: SlotId, num: nat, retryable: bool, cfg: Settings)
    requires InItsHandler(c, id, num, Handling)
    ensures LocalEnabled(c, id, HandlerRaises(num, retryable), cfg)
    ensures var d := ApplyStep(c, Local(id, HandlerRaises(num, retryable)), cfg);
            && InItsHandler(d, id, num, Failing(retryable, 0)) && d.logs == c.logs
            && TaskLocation(id, d.slots[id], num) == TaskLocation(id, c.slots[id], num)
  {
  }

  lemma MayPublish(c: State, id: SlotId, num: nat, retryable: bool, copies: nat, partition: nat, cfg: Settings)
    requires InItsHandler(c, id, num, Failing(retryable, copies))
    ensures LocalEnabled(c, id, PublishCopy(num, partition), cfg)
    ensures var d := ApplyStep(c, Local(id, PublishCopy(num, partition)), cfg);
            && InItsHandler(d, id, num, Failing(retryable, copies + 1))
            && TaskLocation(id, d.slots[id], num) == TaskLocation(id, c.slots[id], num)
  {
    PublishesReplacement(c, id, num, partition, cfg);
    EffectKeepsSlots(c, id, PublishCopy(num, partition), cfg);
  }

  lemma MayEndFailing(c: State, id: SlotId, num: nat, retryable: bool, copies: nat, published: bool, cfg: Settings)
    requires InItsHandler(c, id, num, Failing(retryable, copies)) && (published ==> 0 < copies)
    ensures LocalEnabled(c, id, FailureDone(num, published), cfg)
    ensures var d := ApplyStep(c, Local(id, FailureDone(num, published)), cfg);
            && d == c.(slots := d.slots) && id in d.slots && num in d.slots[id].tasks
            && d.slots[id].tasks[num].phase == Finishing(published)
            && TaskLocation(id, d.slots[id], num) == TaskLocation(id, c.slots[id], num)
  {
  }

  lemma SameLogsAppend(c: State, d: State, e: State, f: State, loc: Location, retryable: bool, partition: nat,
                       cfg: Settings)
    requires d.logs == c.logs && f.logs == e.logs && f.copies == e.copies && IsMessage(c, loc) && IsMessage(d, loc)
    requires AppendsReplacement(d, e, loc, retryable, partition, cfg)
    ensures AppendsReplacement(c, f, loc, retryable, partition, cfg)
  {
    assert forall tp :: Log(d, tp) == Log(c, tp) && Log(f, tp) == Log(e, tp);
  }

  /**
   * In every state, an event whose handler raises and whose copy gets published: the task ends as handled, and the one
   * new log entry is the event the verdict calls for, in the topic it calls for.
   */
  lemma FailedEventIsReplaced(c: State, id: SlotId, num: nat, retryable: bool, partition: nat, cfg: Settings)
    requires InItsHandler(c, id, num, Handling)
    ensures var d := ApplyStep(c, Local(id, HandlerRaises(num, retryable)), cfg);
            var e := ApplyStep(d, Local(id, PublishCopy(num, partition)), cfg);
            var f := ApplyStep(e, Local(id, FailureDone(num, true)), cfg);
            && id in f.slots && num in f.slots[id].tasks && f.slots[id].tasks[num].phase == Finishing(true)
            && AppendsReplacement(c, f, TaskLocation(id, c.slots[id], num), retryable, partition, cfg)
  {
    var d := ApplyStep(c, Local(id, HandlerRaises(num, retryable)), cfg);
    var e := ApplyStep(d, Local(id, PublishCopy(num, partition)), cfg);
    var f := ApplyStep(e, Local(id, FailureDone(num, true)), cfg);
    MayRaise(c, id, num, retryable, cfg);
    MayPublish(d, id, num, retryable, 0, partition, cfg);
    PublishesReplacement(d, id, num, partition, cfg);
    MayEndFailing(e, id, num, retryable, 1, true, cfg);
    SameLogsAppend(c, d, e, f, TaskLocation(id, c.slots[id], num), retryable, partition, cfg);
  }

  // ---------------------------------------------------------------- no event is lost

  ghost predicate Carries(c: State, loc: Location, e: Event) {
    IsMessage(c, loc) && SameMessage(EventAt(c, loc), e)
  }

  /** Still to be read, handled, or parked in the dead-letter queue - at some place of some log. */
  ghost predicate Accounted(c: State, e: Event) {
    exists loc :: Carries(c, loc, e) &&
                  (Committed(c, loc.tp) <= loc.offset || loc in c.handled || loc.tp.topic.Dlq?)
  }

  /** Follow the copies: each has one attempt more, so the chain ends. */
  lemma {:induction false} FollowCopies(c: State, loc: Location, e: Event, cfg: Settings)
    requires Inv(c, cfg) && Carries(c, loc, e)
    ensures Accounted(c, e)
    decreases loc.tp.topic.Dlq?, RetriesLeft(EventAt(c, loc), cfg.maxAttempts)
  {
    if loc.offset < Committed(c, loc.tp) && loc !in c.handled && !loc.tp.topic.Dlq? {
      assert PositionOk(c, loc.tp);
      assert Settled(c, loc);
      assert CopyOk(c, loc, cfg);
      var next := c.copies[loc];
      if next.tp.topic.Dlq? {
        assert Carries(c, next, e);
      } else {
        FollowCopies(c, next, e, cfg);
      }
    }
  }

  /**
   * Over every run: whatever a committed position has passed was undecodable, handled, or copied to the topic its
   * failure calls for, and so every event ever appended to a log is still uncommitted somewhere, handled,
   * or in the dead-letter queue.
   */
  lemma NoEventLost(steps: seq<Step>, cfg: Settings)
    ensures var c := RunAll(Init(), steps, cfg);
            && (forall loc: Location :: loc.offset < Committed(c, loc.tp) ==> Settled(c, loc))
            && (forall loc <- c.copies :: CopyOk(c, loc, cfg))
            && (forall loc :: IsMessage(c, loc) ==> Accounted(c, EventAt(c, loc)))
  {
    RunKeepsInv(steps, cfg);
    var c := RunAll(Init(), steps, cfg);
    forall loc: Location | loc.offset < Committed(c, loc.tp) ensures Settled(c, loc) {
      assert PositionOk(c, loc.tp);
    }
    forall loc | IsMessage(c, loc) ensures Accounted(c, EventAt(c, loc)) {
      FollowCopies(c, loc, EventAt(c, loc), cfg);
    }
  }
}
