/**
 * Any number of consumer processes that crash and restart at will, as long as each partition has one process at a time:
 * the broker position stays tied to the tracker of its process, never moves back, and a re-read of the broker position
 * always reaches the first offset still missing.
 */
module SoleConsumer {
  import opened Wrappers
  import opened CommitTracker
  import opened PartitionSlot
  import opened Cluster

  /** A process starts on a partition only while no live process has it. */
  predicate SoleStep(c: State, step: Step) {
    step.Start? ==> forall id <- c.slots :: id.tp != step.id.tp
  }

  predicate SoleRun(steps: seq<Step>, cfg: Settings) {
    steps == [] ||
    (SoleRun(steps[..|steps| - 1], cfg) && SoleStep(RunAll(Init(), steps[..|steps| - 1], cfg), steps[|steps| - 1]))
  }

  /** The broker lies between what the tracker knows it committed and what it may commit next. */
  ghost predicate Tied(s: Slot, committed: int) {
    if s.tracker.initialized then
      s.tracker.lastCommitted + 1 <= committed <= RunEnd(s.tracker.completed, s.tracker.lastCommitted) + 1
    else
      s.tasks == map[] && s.tracker.completed == {} && s.spawned <= |s.backlog| && Front(s) == committed
  }

  ghost predicate SoleInv(c: State) {
    && (forall tp :: 0 <= Committed(c, tp))
    && (forall id <- c.slots :: Tied(c.slots[id], Committed(c, id.tp)))
    && (forall a, b :: a in c.slots && b in c.slots && a.tp == b.tp ==> a == b)
  }

  lemma AdvanceTied(t: Tracker, committed: int, owned: bool, applied: bool, acked: bool)
    requires t.lastCommitted + 1 <= committed <= RunEnd(t.completed, t.lastCommitted) + 1 && (acked ==> applied)
    ensures var request, r := CommitRequest(t, owned), Advance(t, owned, acked);
            var committed' := if request.Some? && applied then request.value else committed;
            && committed <= committed'
            && r.lastCommitted + 1 <= committed' <= RunEnd(r.completed, r.lastCommitted) + 1
  {
    var r := Advance(t, owned, acked);
    RunEndFrom(t.completed, t.lastCommitted, r.completed, r.lastCommitted);
  }

  lemma FinalizeTied(t: Tracker, committed: int, offset: int, generation: int, handled: bool,
                     owned: bool, applied: bool, acked: bool, callOk: bool, limits: FlowLimits)
    requires t.lastCommitted + 1 <= committed <= RunEnd(t.completed, t.lastCommitted) + 1 && (acked ==> applied)
    ensures var request := FinalizeRequest(t, offset, generation, handled, owned);
            var r := Finalize(t, offset, generation, handled, owned, acked, callOk, limits);
            var committed' := if request.Some? && applied then request.value else committed;
            && committed <= committed'
            && r.lastCommitted + 1 <= committed' <= RunEnd(r.completed, r.lastCommitted) + 1
  {
    var u := t.(inflight := t.inflight - {offset});
    var v := if handled then u.(completed := u.completed + {offset}) else u;
    RunEndMonotone(u.completed, v.completed, t.lastCommitted);
    AdvanceTied(v, committed, owned, applied, acked);
  }

  /** The committed position after a slot step. */
  function Moved(s: Slot, step: SlotStep, committed: int, cfg: Config): int {
    var request := Request(s, step, cfg);
    if request.None? then committed
    else if (step.FinalizeTask? && step.applied) || (step.Drain? && step.applied) then request.value
    else committed
  }

  lemma SlotStepTied(s: Slot, step: SlotStep, committed: int, cfg: Config)
    requires Tied(s, committed) && Enabled(s, step, cfg) && (step.Seek? ==> step.offset == committed)
    ensures committed <= Moved(s, step, committed, cfg)
    ensures Tied(Next(s, step, cfg), Moved(s, step, committed, cfg))
  {
    if step.FinalizeTask? {
      var t := s.tasks[step.num];
      FinalizeTied(s.tracker, committed, t.delivery.offset, t.generation, t.phase.handled,
                   s.owned, step.applied, step.acked, step.callOk, cfg.flow);
    } else if step.Drain? && s.tracker.initialized {
      AdvanceTied(s.tracker, committed, s.owned, step.applied, step.acked);
    }
  }

  lemma EffectMoves(c: State, id: SlotId, step: SlotStep, cfg: Settings)
    requires LocalEnabled(c, id, step, cfg)
    ensures var d := Effect(c, id, step, cfg);
            && d.slots == c.slots
            && Committed(d, id.tp) == Moved(c.slots[id], step, Committed(c, id.tp), cfg.slot)
            && forall tp :: tp != id.tp ==> Committed(d, tp) == Committed(c, tp)
  {
  }

  lemma ReplaceTied(c: State, d: State, id: SlotId, s: Slot)
    requires SoleInv(c) && id in c.slots && d.slots == c.slots
    requires Committed(c, id.tp) <= Committed(d, id.tp) && Tied(s, Committed(d, id.tp))
    requires forall tp :: tp != id.tp ==> Committed(d, tp) == Committed(c, tp)
    ensures SoleInv(d.(slots := d.slots[id := s]))
    ensures forall tp :: Committed(c, tp) <= Committed(d.(slots := d.slots[id := s]), tp)
  {
    var e := d.(slots := d.slots[id := s]);
    forall tp ensures 0 <= Committed(c, tp) <= Committed(e, tp) {
      assert Committed(e, tp) == Committed(d, tp);
    }
    forall other | other in e.slots ensures Tied(e.slots[other], Committed(e, other.tp)) {
      assert other != id ==> other.tp != id.tp;
    }
  }

  lemma LocalTied(c: State, d: State, id: SlotId, step: SlotStep, cfg: Settings)
    requires SoleInv(c) && LocalEnabled(c, id, step, cfg)
    requires Committed(d, id.tp) == Moved(c.slots[id], step, Committed(c, id.tp), cfg.slot)
    ensures Committed(c, id.tp) <= Committed(d, id.tp) && Tied(Next(c.slots[id], step, cfg.slot), Committed(d, id.tp))
  {
    SlotStepTied(c.slots[id], step, Committed(c, id.tp), cfg.slot);
  }

  lemma LocalKeepsSole(c: State, id: SlotId, step: SlotStep, cfg: Settings)
    requires SoleInv(c) && LocalEnabled(c, id, step, cfg)
    ensures SoleInv(NextState(c, Local(id, step), cfg))
    ensures forall tp :: Committed(c, tp) <= Committed(NextState(c, Local(id, step), cfg), tp)
  {
    var d, s := Effect(c, id, step, cfg), Next(c.slots[id], step, cfg.slot);
    EffectMoves(c, id, step, cfg);
    LocalTied(c, d, id, step, cfg);
    ReplaceTied(c, d, id, s);
    assert NextState(c, Local(id, step), cfg) == d.(slots := d.slots[id := s]);
  }

  /** A process that starts reads from the broker position; one that crashes takes its tracker with it. */
  lemma StartsAndCrashesKeepSole(c: State, step: Step, cfg: Settings)
    requires SoleInv(c) && SoleStep(c, step) && StepEnabled(c, step, cfg) && !step.Local?
    ensures SoleInv(NextState(c, step, cfg))
    ensures forall tp :: Committed(NextState(c, step, cfg), tp) == Committed(c, tp)
  {
    var d := NextState(c, step, cfg);
    assert forall tp :: Committed(d, tp) == Committed(c, tp);
    forall id | id in d.slots ensures Tied(d.slots[id], Committed(d, id.tp)) {
      assert id in c.slots ==> d.slots[id] == c.slots[id];
    }
  }

  lemma StepKeepsSole(c: State, step: Step, cfg: Settings)
    requires SoleInv(c) && SoleStep(c, step)
    ensures SoleInv(ApplyStep(c, step, cfg))
    ensures forall tp :: Committed(c, tp) <= Committed(ApplyStep(c, step, cfg), tp)
  {
    if StepEnabled(c, step, cfg) {
      if step.Local? {
        LocalKeepsSole(c, step.id, step.step, cfg);
      } else {
        StartsAndCrashesKeepSole(c, step, cfg);
      }
    }
  }

  lemma {:induction false} RunKeepsSole(steps: seq<Step>, cfg: Settings)
    requires SoleRun(steps, cfg)
    ensures SoleInv(RunAll(Init(), steps, cfg))
  {
    if steps != [] {
      RunKeepsSole(steps[..|steps| - 1], cfg);
      StepKeepsSole(RunAll(Init(), steps[..|steps| - 1], cfg), steps[|steps| - 1], cfg);
    }
  }

  /**
   * With one process at a time on each partition the broker position never moves back, whatever crashes, restarts,
   * rebalances and commits that fail or lose their answer.
   */
  lemma PositionNeverRetreats(steps: seq<Step>, step: Step, tp: TopicPartition, cfg: Settings)
    requires SoleRun(steps + [step], cfg)
    ensures Committed(RunAll(Init(), steps, cfg), tp) <= Committed(RunAll(Init(), steps + [step], cfg), tp)
  {
    assert (steps + [step])[..|steps|] == steps && (steps + [step])[|steps|] == step;
    RunKeepsSole(steps, cfg);
    StepKeepsSole(RunAll(Init(), steps, cfg), step, cfg);
  }

  lemma TiedRereadIsNotStuck(s: Slot, committed: nat, cfg: Config)
    requires Tied(s, committed)
    ensures !Stuck(Next(s, Seek(committed), cfg))
  {
  }

  /** And a re-read from the broker position never leaves the tracker of a live process stuck. */
  lemma RereadReachesTheGap(steps: seq<Step>, id: SlotId, cfg: Settings)
    requires SoleRun(steps, cfg) && id in RunAll(Init(), steps, cfg).slots
    ensures var c := RunAll(Init(), steps, cfg);
            0 <= Committed(c, id.tp) && !Stuck(Next(c.slots[id], Seek(Committed(c, id.tp)), cfg.slot))
  {
    RunKeepsSole(steps, cfg);
    var c := RunAll(Init(), steps, cfg);
    assert Tied(c.slots[id], Committed(c, id.tp));
    TiedRereadIsNotStuck(c.slots[id], Committed(c, id.tp), cfg.slot);
  }
}
