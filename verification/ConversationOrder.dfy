/**
 * What the per-key locks are for, seen from the logs: in every process of a running cluster, events that carry the same
 * partition key are handled one at a time and in delivery order.
 */
module ConversationOrder {
  import opened PartitionSlot
  import opened RetryLadder
  import opened Cluster
  import KeyLocks
  import Text

  /** The text that names the conversation of an event: its partition key or, without one, its id. */
  predicate Names(text: string, e: Event) {
    text != "" && (e.partitionKey != "" ==> text == Text.Strip(e.partitionKey)) &&
    (e.partitionKey == "" ==> text == Text.Strip(e.id))
  }

  /** Two records are events of one conversation; garbage and events without a visible name belong to none. */
  ghost predicate SameConversation(a: Record, b: Record) {
    a.Message? && b.Message? && exists text :: Names(text, a.event) && Names(text, b.event)
  }

  /** Said on the fields: equal visible partition keys, or without partition keys equal visible ids. */
  lemma ConversationByFields(e: Event, f: Event)
    ensures e.partitionKey != "" && f.partitionKey != "" ==>
              (SameConversation(Message(e), Message(f)) <==>
                 Text.Strip(e.partitionKey) == Text.Strip(f.partitionKey) != "")
    ensures e.partitionKey == "" && f.partitionKey == "" ==>
              (SameConversation(Message(e), Message(f)) <==> Text.Strip(e.id) == Text.Strip(f.id) != "")
    ensures e.partitionKey != "" && f.partitionKey == "" ==>
              (SameConversation(Message(e), Message(f)) <==> Text.Strip(e.partitionKey) == Text.Strip(f.id) != "")
  {
    var text := if e.partitionKey != "" then Text.Strip(e.partitionKey) else Text.Strip(e.id);
    if text != "" {
      assert Names(text, e);
      if f.partitionKey != "" && Text.Strip(f.partitionKey) == text {
        assert Names(text, f);
      } else if f.partitionKey == "" && Text.Strip(f.id) == text {
        assert Names(text, f);
      }
    }
  }

  /** Two records of a log share a lock exactly when they are of one conversation, or the same record read again. */
  lemma LocksSharedIff(a: Record, i: nat, b: Record, j: nat)
    requires i == j ==> a == b
    ensures LockKey(a, i) == LockKey(b, j) <==> SameConversation(a, b) || i == j
  {
    if a.Message? && b.Message? {
      ConversationByFields(a.event, b.event);
      ConversationByFields(b.event, a.event);
    }
  }

  predicate DeliveryOk(c: State, tp: TopicPartition, d: Delivery) {
    d.offset < |Log(c, tp)| && d.key == LockKey(Log(c, tp)[d.offset], d.offset)
  }

  /** Every delivered record waits for, or holds, the lock of its own key. */
  ghost predicate KeysMatch(c: State, tp: TopicPartition, s: Slot) {
    && (forall d <- s.backlog :: DeliveryOk(c, tp, d))
    && (forall n <- s.tasks :: DeliveryOk(c, tp, s.tasks[n].delivery))
  }

  ghost predicate HandlingInv(c: State) {
    forall id <- c.slots :: LockInv(c.slots[id]) && KeysMatch(c, id.tp, c.slots[id])
  }

  /** No lock lookup of this step evicts a lock that is being handed over. */
  predicate CleanAt(c: State, step: Step) {
    step.Local? && step.id in c.slots ==> CleanStep(c.slots[step.id], step.step)
  }

  predicate CleanSteps(steps: seq<Step>, cfg: Settings) {
    steps == [] ||
    (CleanSteps(steps[..|steps| - 1], cfg) && CleanAt(RunAll(Init(), steps[..|steps| - 1], cfg), steps[|steps| - 1]))
  }

  lemma KeysStay(c: State, d: State, tp: TopicPartition, s: Slot)
    requires KeysMatch(c, tp, s) && Log(c, tp) <= Log(d, tp)
    ensures KeysMatch(d, tp, s)
  {
  }

  lemma LogsGrow(c: State, step: Step, cfg: Settings)
    ensures forall tp :: Log(c, tp) <= Log(ApplyStep(c, step, cfg), tp)
  {
  }

  lemma DeliveriesMatchKeys(c: State, tp: TopicPartition, s: Slot, keys: seq<Key>)
    requires s.position + |keys| <= |Log(c, tp)|
    requires forall i :: 0 <= i < |keys| ==> keys[i] == LockKey(Log(c, tp)[s.position + i], s.position + i)
    ensures forall i :: 0 <= i < |keys| ==> DeliveryOk(c, tp, Deliveries(s, keys)[i])
  {
  }

  lemma PollMatchesKeys(c: State, id: SlotId, keys: seq<Key>, cfg: Settings)
    requires LocalEnabled(c, id, Poll(keys), cfg) && KeysMatch(c, id.tp, c.slots[id])
    ensures KeysMatch(c, id.tp, Next(c.slots[id], Poll(keys), cfg.slot))
  {
    var s := c.slots[id];
    DeliveriesMatchKeys(c, id.tp, s, keys);
    var ds := Deliveries(s, keys);
    forall d | d in s.backlog + ds ensures DeliveryOk(c, id.tp, d) {
      if d !in s.backlog {
        assert d in ds;
      }
    }
  }

  lemma SlotStepKeepsKeys(c: State, id: SlotId, step: SlotStep, cfg: Settings)
    requires LocalEnabled(c, id, step, cfg) && KeysMatch(c, id.tp, c.slots[id])
    ensures KeysMatch(c, id.tp, Next(c.slots[id], step, cfg.slot))
  {
    var s := c.slots[id];
    if step.Poll? {
      PollMatchesKeys(c, id, step.keys, cfg);
    } else if step.RegisterNext? {
      assert s.backlog[0] in s.backlog && forall d :: d in s.backlog[1..] ==> d in s.backlog;
    }
  }

  /** Where a slot of the next state comes from. */
  lemma SlotAfter(c: State, step: Step, cfg: Settings, id: SlotId)
    requires id in ApplyStep(c, step, cfg).slots
    ensures var s := ApplyStep(c, step, cfg).slots[id];
            || (id in c.slots && s == c.slots[id])
            || (exists position :: s == FreshSlot(position))
            || (step.Local? && id == step.id && LocalEnabled(c, id, step.step, cfg) &&
                s == Next(c.slots[id], step.step, cfg.slot))
  {
    if StepEnabled(c, step, cfg) && step.Local? {
      EffectKeepsSlots(c, step.id, step.step, cfg);
    }
  }

  lemma LocalKeepsHandling(c: State, id: SlotId, step: SlotStep, cfg: Settings)
    requires HandlingInv(c) && LocalEnabled(c, id, step, cfg) && CleanStep(c.slots[id], step)
    ensures var s := Next(c.slots[id], step, cfg.slot); LockInv(s) && KeysMatch(c, id.tp, s)
  {
    StepKeepsLockInv(c.slots[id], step, cfg.slot);
    SlotStepKeepsKeys(c, id, step, cfg);
  }

  lemma FreshHandling(c: State, tp: TopicPartition, position: nat)
    ensures LockInv(FreshSlot(position)) && KeysMatch(c, tp, FreshSlot(position))
  {
  }

  lemma SlotKeepsHandling(c: State, step: Step, cfg: Settings, id: SlotId)
    requires HandlingInv(c) && CleanAt(c, step) && id in ApplyStep(c, step, cfg).slots
    ensures var s := ApplyStep(c, step, cfg).slots[id]; LockInv(s) && KeysMatch(c, id.tp, s)
  {
    SlotAfter(c, step, cfg, id);
    var s := ApplyStep(c, step, cfg).slots[id];
    if id in c.slots && s == c.slots[id] {
    } else if position :| s == FreshSlot(position) {
      FreshHandling(c, id.tp, position);
    } else {
      LocalKeepsHandling(c, id, step.step, cfg);
    }
  }

  lemma StepKeepsHandling(c: State, step: Step, cfg: Settings)
    requires HandlingInv(c) && CleanAt(c, step)
    ensures HandlingInv(ApplyStep(c, step, cfg))
  {
    var d := ApplyStep(c, step, cfg);
    LogsGrow(c, step, cfg);
    forall id | id in d.slots ensures LockInv(d.slots[id]) && KeysMatch(d, id.tp, d.slots[id]) {
      SlotKeepsHandling(c, step, cfg, id);
      KeysStay(c, d, id.tp, d.slots[id]);
    }
  }

  lemma {:induction false} RunKeepsHandling(steps: seq<Step>, cfg: Settings)
    requires CleanSteps(steps, cfg)
    ensures HandlingInv(RunAll(Init(), steps, cfg))
  {
    if steps != [] {
      RunKeepsHandling(steps[..|steps| - 1], cfg);
      StepKeepsHandling(RunAll(Init(), steps[..|steps| - 1], cfg), steps[|steps| - 1], cfg);
    }
  }

  /** The log entry a process' task is about. */
  function RecordOf(c: State, id: SlotId, num: nat): Record
    requires id in c.slots && num in c.slots[id].tasks
    requires TaskLocation(id, c.slots[id], num).offset < |Log(c, id.tp)|
  {
    Log(c, id.tp)[TaskLocation(id, c.slots[id], num).offset]
  }

  /** The two tasks have to take turns: their events are of one conversation, or they read the same record. */
  ghost predicate Compete(c: State, id: SlotId, m: nat, n: nat)
    requires id in c.slots && m in c.slots[id].tasks && n in c.slots[id].tasks
    requires TaskLocation(id, c.slots[id], m).offset < |Log(c, id.tp)|
    requires TaskLocation(id, c.slots[id], n).offset < |Log(c, id.tp)|
  {
    || SameConversation(RecordOf(c, id, m), RecordOf(c, id, n))
    || c.slots[id].tasks[m].delivery.offset == c.slots[id].tasks[n].delivery.offset
  }

  lemma CompeteIff(c: State, id: SlotId, m: nat, n: nat)
    requires id in c.slots && KeysMatch(c, id.tp, c.slots[id])
    requires m in c.slots[id].tasks && n in c.slots[id].tasks
    ensures DeliveryOk(c, id.tp, c.slots[id].tasks[m].delivery) && DeliveryOk(c, id.tp, c.slots[id].tasks[n].delivery)
    ensures Compete(c, id, m, n) <==> c.slots[id].tasks[m].delivery.key == c.slots[id].tasks[n].delivery.key
  {
    var s := c.slots[id];
    assert DeliveryOk(c, id.tp, s.tasks[m].delivery) && DeliveryOk(c, id.tp, s.tasks[n].delivery);
    LocksSharedIff(RecordOf(c, id, m), s.tasks[m].delivery.offset, RecordOf(c, id, n), s.tasks[n].delivery.offset);
  }

  /** While a task is in its handler, the tasks delivered before it under the same key are finished. */
  lemma EarlierIsFinished(s: Slot, m: nat, n: nat)
    requires LockInv(s) && InHandler(s, n) && m in s.tasks && m < n
    requires s.tasks[m].delivery.key == s.tasks[n].delivery.key
    ensures s.tasks[m].phase.Finishing?
  {
  }

  /** Two unfinished tasks use one lock object exactly if they have one key. */
  lemma OneLockPerKey(s: Slot, m: nat, n: nat)
    requires LockInv(s) && m in s.room.live && n in s.room.live
    ensures m in s.tasks && n in s.tasks
    ensures s.room.live[m].lock == s.room.live[n].lock <==> s.tasks[m].delivery.key == s.tasks[n].delivery.key
  {
  }

  /**
   * Over every run of the cluster in which eviction spares locks in hand-over, for every process and topic-partition:
   * of the tasks that compete at most one is in its handler, when it is there all of them that were delivered earlier
   * are finished, tasks start in delivery order, and tasks that do not compete never queue on the same lock.
   */
  lemma ConversationsTakeTurns(steps: seq<Step>, cfg: Settings, id: SlotId)
    requires CleanSteps(steps, cfg) && id in RunAll(Init(), steps, cfg).slots
    ensures var c := RunAll(Init(), steps, cfg);
            var s := c.slots[id];
            && (forall n <- s.tasks :: s.tasks[n].delivery.offset < |Log(c, id.tp)|)
            && (forall m, n :: InHandler(s, m) && InHandler(s, n) && m != n ==> !Compete(c, id, m, n))
            && (forall m, n :: m in s.tasks && InHandler(s, n) && m < n && Compete(c, id, m, n) ==>
                  s.tasks[m].phase.Finishing?)
            && (forall d, n :: d in s.backlog && n in s.tasks ==> n < d.num)
            && (forall n <- s.room.live :: n in s.tasks)
            && (forall m, n :: m in s.room.live && n in s.room.live ==>
                  (s.room.live[m].lock == s.room.live[n].lock <==> Compete(c, id, m, n)))
  {
    RunKeepsHandling(steps, cfg);
    var c := RunAll(Init(), steps, cfg);
    var s := c.slots[id];
    LockInvExcludes(s);
    forall m, n | m in s.tasks && n in s.tasks
      ensures DeliveryOk(c, id.tp, s.tasks[m].delivery) && DeliveryOk(c, id.tp, s.tasks[n].delivery)
      ensures Compete(c, id, m, n) <==> s.tasks[m].delivery.key == s.tasks[n].delivery.key
    {
      CompeteIff(c, id, m, n);
    }
    forall m, n | m in s.tasks && InHandler(s, n) && m < n && Compete(c, id, m, n)
      ensures s.tasks[m].phase.Finishing?
    {
      EarlierIsFinished(s, m, n);
    }
    forall m, n | m in s.room.live && n in s.room.live
      ensures m in s.tasks && n in s.tasks
      ensures s.room.live[m].lock == s.room.live[n].lock <==> Compete(c, id, m, n)
    {
      OneLockPerKey(s, m, n);
    }
  }
}
