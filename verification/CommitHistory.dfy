/**
 * The commit position against a simple specification, over every run of a topic-partition: it follows the longest
 * contiguous run of completed offsets from the first offset ever registered, whatever rebalances, restarts, re-reads,
 * unowned finalizes and failed commits happen on the way.
 */
module CommitHistory {
  import opened Wrappers
  import opened CommitTracker
  import opened PartitionSlot
  import opened RecordByRecord

  // ---------------------------------------------------------------- the history of a run

  /** The step finalizes a handled record whose task belongs to the current generation. */
  predicate Completes(s: Slot, step: SlotStep, cfg: Config) {
    && step.FinalizeTask? && Enabled(s, step, cfg)
    && s.tasks[step.num].phase.handled && s.tasks[step.num].generation == s.tracker.generation
  }

  function CompletedNow(s: Slot, step: SlotStep, cfg: Config): set<int> {
    if Completes(s, step, cfg) then {s.tasks[step.num].delivery.offset as int} else {}
  }

  /** It was completed although the commit position had already passed it: it was read again after a commit. */
  function RepeatedNow(s: Slot, step: SlotStep, cfg: Config): set<int> {
    if Completes(s, step, cfg) && s.tasks[step.num].delivery.offset <= s.tracker.lastCommitted
    then CompletedNow(s, step, cfg) else {}
  }

  /** Every offset completed so far. */
  function Completed(position: nat, steps: seq<SlotStep>, cfg: Config): set<int> {
    if steps == [] then {}
    else
      var init := steps[..|steps| - 1];
      Completed(position, init, cfg) + CompletedNow(Run(FreshSlot(position), init, cfg), steps[|steps| - 1], cfg)
  }

  function Repeats(position: nat, steps: seq<SlotStep>, cfg: Config): set<int> {
    if steps == [] then {}
    else
      var init := steps[..|steps| - 1];
      Repeats(position, init, cfg) + RepeatedNow(Run(FreshSlot(position), init, cfg), steps[|steps| - 1], cfg)
  }

  function Registers(s: Slot, step: SlotStep, cfg: Config): Option<int> {
    if step.RegisterNext? && Enabled(s, step, cfg) then Some(s.backlog[0].offset) else None
  }

  /** The first offset registered. */
  function FirstSeen(position: nat, steps: seq<SlotStep>, cfg: Config): Option<int> {
    if steps == [] then None
    else
      var init := steps[..|steps| - 1];
      var before := FirstSeen(position, init, cfg);
      if before.Some? then before else Registers(Run(FreshSlot(position), init, cfg), steps[|steps| - 1], cfg)
  }

  /** The step ends with a commit attempt on an assigned partition that, if sent, was acknowledged. */
  predicate Settles(s: Slot, step: SlotStep, cfg: Config) {
    && s.owned && Enabled(s, step, cfg)
    && match step
       case FinalizeTask(num, _, acked, _) => acked && s.tasks[num].generation == s.tracker.generation
       case Drain(_, acked) => acked
       case _ => false
  }

  // ---------------------------------------------------------------- what every step keeps

  function Rest(done: set<int>, last: int): set<int> {
    set o | o in done && last < o
  }

  /** The position lies on the run from `first`; the tracker keeps what is above it, and the repeats. */
  ghost predicate Refines(t: Tracker, done: set<int>, repeats: set<int>, first: int) {
    && first - 1 <= t.lastCommitted <= RunEnd(done, first - 1)
    && t.completed == Rest(done, t.lastCommitted) + repeats
    && (forall o <- repeats :: o <= t.lastCommitted)
  }

  ghost predicate HistoryInv(s: Slot, done: set<int>, repeats: set<int>, first: Option<int>) {
    && (s.tracker.initialized <==> first.Some?)
    && (if first.Some? then Refines(s.tracker, done, repeats, first.value)
        else done == {} && repeats == {} && s.tracker.completed == {} && s.tasks == map[])
  }

  lemma AdvanceRefines(t: Tracker, done: set<int>, repeats: set<int>, first: int, owned: bool, acked: bool)
    requires Refines(t, done, repeats, first)
    ensures Refines(Advance(t, owned, acked), done, repeats, first)
    ensures owned && acked ==> Advance(t, owned, acked).lastCommitted == RunEnd(done, first - 1)
  {
    RunEndFrom(done, first - 1, t.completed, t.lastCommitted);
    var end := RunEnd(t.completed, t.lastCommitted);
    assert Above(t.completed, t.lastCommitted, end) == Rest(done, end) + repeats;
  }

  lemma CompleteRefines(t: Tracker, done: set<int>, repeats: set<int>, first: int, offset: int)
    requires Refines(t, done, repeats, first)
    ensures var again := if offset <= t.lastCommitted then {offset} else {};
            Refines(t.(completed := t.completed + {offset}), done + {offset}, repeats + again, first)
  {
    RunEndMonotone(done, done + {offset}, first - 1);
  }

  lemma AdvanceAdjustRefines(t: Tracker, done: set<int>, repeats: set<int>, first: int,
                             owned: bool, acked: bool, callOk: bool, limits: FlowLimits)
    requires Refines(t, done, repeats, first)
    ensures var r := AdjustFlow(Advance(t, owned, acked), owned, callOk, limits);
            Refines(r, done, repeats, first) && (owned && acked ==> r.lastCommitted == RunEnd(done, first - 1))
  {
    AdvanceRefines(t, done, repeats, first, owned, acked);
  }

  lemma FinalizeRefines(t: Tracker, done: set<int>, repeats: set<int>, first: int, offset: int, handled: bool,
                        owned: bool, acked: bool, callOk: bool, limits: FlowLimits)
    requires Refines(t, done, repeats, first)
    ensures var now: set<int> := if handled then {offset} else {};
            var again := if offset <= t.lastCommitted then now else {};
            var r := Finalize(t, offset, t.generation, handled, owned, acked, callOk, limits);
            && Refines(r, done + now, repeats + again, first)
            && (owned && acked ==> r.lastCommitted == RunEnd(done + now, first - 1))
  {
    var u := t.(inflight := t.inflight - {offset});
    if handled {
      CompleteRefines(u, done, repeats, first, offset);
      var again := if offset <= t.lastCommitted then {offset} else {};
      AdvanceAdjustRefines(u.(completed := u.completed + {offset}), done + {offset}, repeats + again, first,
                           owned, acked, callOk, limits);
    } else {
      assert done + {} == done && repeats + {} == repeats;
      AdvanceAdjustRefines(u, done, repeats, first, owned, acked, callOk, limits);
    }
  }

  lemma RegisterKeepsHistory(s: Slot, step: SlotStep, done: set<int>, repeats: set<int>, first: Option<int>,
                             cfg: Config)
    requires HistoryInv(s, done, repeats, first) && step.RegisterNext? && Enabled(s, step, cfg)
    ensures HistoryInv(Next(s, step, cfg), done, repeats, if first.Some? then first else Some(s.backlog[0].offset))
  {
  }

  lemma FinalizeKeepsHistory(s: Slot, step: SlotStep, done: set<int>, repeats: set<int>, first: Option<int>,
                             cfg: Config)
    requires HistoryInv(s, done, repeats, first) && step.FinalizeTask? && Enabled(s, step, cfg)
    ensures var now := CompletedNow(s, step, cfg);
            var again := RepeatedNow(s, step, cfg);
            && HistoryInv(Next(s, step, cfg), done + now, repeats + again, first)
            && (Settles(s, step, cfg) ==>
                  first.Some? && Next(s, step, cfg).tracker.lastCommitted == RunEnd(done + now, first.value - 1))
  {
    var t := s.tasks[step.num];
    if t.generation == s.tracker.generation {
      FinalizeRefines(s.tracker, done, repeats, first.value, t.delivery.offset, t.phase.handled,
                      s.owned, step.acked, step.callOk, cfg.flow);
    } else {
      var none: set<int> := {};
      assert done + none == done && repeats + none == repeats;
    }
  }

  lemma DrainKeepsHistory(s: Slot, step: SlotStep, done: set<int>, repeats: set<int>, first: Option<int>, cfg: Config)
    requires HistoryInv(s, done, repeats, first) && step.Drain? && Enabled(s, step, cfg)
    ensures HistoryInv(Next(s, step, cfg), done, repeats, first)
    ensures Settles(s, step, cfg) && first.Some? ==>
              Next(s, step, cfg).tracker.lastCommitted == RunEnd(done, first.value - 1)
  {
    if first.Some? {
      AdvanceRefines(s.tracker, done, repeats, first.value, s.owned, step.acked);
    }
  }

  lemma QuietStepKeepsHistory(s: Slot, step: SlotStep, done: set<int>, repeats: set<int>, first: Option<int>,
                              cfg: Config)
    requires HistoryInv(s, done, repeats, first) && Enabled(s, step, cfg)
    requires !step.FinalizeTask? && !step.RegisterNext? && !step.Drain?
    ensures HistoryInv(Next(s, step, cfg), done, repeats, first)
  {
  }

  lemma StepKeepsHistory(s: Slot, step: SlotStep, done: set<int>, repeats: set<int>, first: Option<int>, cfg: Config)
    requires HistoryInv(s, done, repeats, first)
    ensures var now := CompletedNow(s, step, cfg);
            var again := RepeatedNow(s, step, cfg);
            var first' := if first.Some? then first else Registers(s, step, cfg);
            && HistoryInv(Apply(s, step, cfg), done + now, repeats + again, first')
            && (Settles(s, step, cfg) && first'.Some? ==>
                  Apply(s, step, cfg).tracker.lastCommitted == RunEnd(done + now, first'.value - 1))
  {
    if step.FinalizeTask? && Enabled(s, step, cfg) {
      FinalizeKeepsHistory(s, step, done, repeats, first, cfg);
    } else {
      var none: set<int> := {};
      assert done + none == done && repeats + none == repeats;
      if step.RegisterNext? && Enabled(s, step, cfg) {
        RegisterKeepsHistory(s, step, done, repeats, first, cfg);
      } else if step.Drain? && Enabled(s, step, cfg) {
        DrainKeepsHistory(s, step, done, repeats, first, cfg);
      } else if Enabled(s, step, cfg) {
        QuietStepKeepsHistory(s, step, done, repeats, first, cfg);
      }
    }
  }

  /** The last step of a run settles the position. */
  predicate EndsSettled(position: nat, steps: seq<SlotStep>, cfg: Config) {
    steps != [] && Settles(Run(FreshSlot(position), steps[..|steps| - 1], cfg), steps[|steps| - 1], cfg)
  }

  /** The tracker is settled: its position is the end of the run. */
  ghost predicate AtRunEnd(t: Tracker, done: set<int>, first: Option<int>) {
    first.Some? ==> t.lastCommitted == RunEnd(done, first.value - 1)
  }

  lemma {:induction false} RunKeepsHistory(position: nat, steps: seq<SlotStep>, cfg: Config)
    ensures HistoryInv(Run(FreshSlot(position), steps, cfg), Completed(position, steps, cfg),
                       Repeats(position, steps, cfg), FirstSeen(position, steps, cfg))
    ensures EndsSettled(position, steps, cfg) ==>
              AtRunEnd(Run(FreshSlot(position), steps, cfg).tracker, Completed(position, steps, cfg),
                       FirstSeen(position, steps, cfg))
  {
    if steps != [] {
      var init := steps[..|steps| - 1];
      RunKeepsHistory(position, init, cfg);
      StepKeepsHistory(Run(FreshSlot(position), init, cfg), steps[|steps| - 1], Completed(position, init, cfg),
                       Repeats(position, init, cfg), FirstSeen(position, init, cfg), cfg);
    }
  }

  // ---------------------------------------------------------------- the position and what is kept above it

  /** What the tracker of a run is, in terms of the run's history. */
  ghost predicate MeetsSpec(t: Tracker, done: set<int>, first: Option<int>, settled: bool) {
    && (t.initialized <==> first.Some?)
    && (first.Some? ==> first.value - 1 <= t.lastCommitted <= RunEnd(done, first.value - 1))
    && (first.Some? && settled ==> t.lastCommitted == RunEnd(done, first.value - 1))
  }

  lemma HistoryMeetsSpec(s: Slot, done: set<int>, repeats: set<int>, first: Option<int>, settled: bool)
    requires HistoryInv(s, done, repeats, first) && (settled ==> AtRunEnd(s.tracker, done, first))
    ensures MeetsSpec(s.tracker, done, first, settled)
  {
  }

  /**
   * Over every run: once an offset is registered the position lies on the longest run of completed offsets from the
   * first one, and a finalize or drain whose commit goes through puts it at the end of that run.
   */
  lemma PositionRefinesRun(position: nat, steps: seq<SlotStep>, cfg: Config)
    ensures MeetsSpec(Run(FreshSlot(position), steps, cfg).tracker, Completed(position, steps, cfg),
                      FirstSeen(position, steps, cfg), EndsSettled(position, steps, cfg))
  {
    RunKeepsHistory(position, steps, cfg);
    HistoryMeetsSpec(Run(FreshSlot(position), steps, cfg), Completed(position, steps, cfg),
                     Repeats(position, steps, cfg), FirstSeen(position, steps, cfg), EndsSettled(position, steps, cfg));
  }

  /** Above the position the tracker keeps what the history has; below it, the repeats. */
  lemma SplitAtPosition(t: Tracker, done: set<int>, repeats: set<int>, first: int)
    requires Refines(t, done, repeats, first)
    ensures Rest(t.completed, t.lastCommitted) == Rest(done, t.lastCommitted)
    ensures repeats == set o | o in t.completed && o <= t.lastCommitted
    ensures t.completed == Rest(done, t.lastCommitted) <==> repeats == {}
  {
    var rest := Rest(done, t.lastCommitted);
    if t.completed == rest {
      forall o ensures o !in repeats {
        assert o in repeats ==> o in rest;
      }
      assert repeats == {};
    }
  }

  /** `completed` is the completed offsets above the position, unless an offset was completed again below it. */
  lemma CompletedIsTheRestIff(position: nat, steps: seq<SlotStep>, cfg: Config)
    requires FirstSeen(position, steps, cfg).Some?
    ensures var t := Run(FreshSlot(position), steps, cfg).tracker;
            && Rest(t.completed, t.lastCommitted) == Rest(Completed(position, steps, cfg), t.lastCommitted)
            && (t.completed == Rest(Completed(position, steps, cfg), t.lastCommitted) <==>
                Repeats(position, steps, cfg) == {})
  {
    RunKeepsHistory(position, steps, cfg);
    SplitAtPosition(Run(FreshSlot(position), steps, cfg).tracker, Completed(position, steps, cfg),
                    Repeats(position, steps, cfg), FirstSeen(position, steps, cfg).value);
  }

  lemma TrackersAgree(t: Tracker, rt: set<int>, u: Tracker, ru: set<int>, done: set<int>, first: int)
    requires Refines(t, done, rt, first) && Refines(u, done, ru, first)
    requires t.lastCommitted == RunEnd(done, first - 1) == u.lastCommitted
    ensures Rest(t.completed, t.lastCommitted) == Rest(u.completed, u.lastCommitted)
    ensures t.completed == u.completed <==> rt == ru
  {
    SplitAtPosition(t, done, rt, first);
    SplitAtPosition(u, done, ru, first);
  }

  /** Two runs over the same completed offsets from the same first one agree, in whatever order these finished. */
  lemma FinishingOrderIsIrrelevant(p: nat, ls: seq<SlotStep>, q: nat, ks: seq<SlotStep>, cfg: Config)
    requires FirstSeen(p, ls, cfg).Some? && FirstSeen(p, ls, cfg) == FirstSeen(q, ks, cfg)
    requires Completed(p, ls, cfg) == Completed(q, ks, cfg) && EndsSettled(p, ls, cfg) && EndsSettled(q, ks, cfg)
    ensures var t, u := Run(FreshSlot(p), ls, cfg).tracker, Run(FreshSlot(q), ks, cfg).tracker;
            && t.lastCommitted == u.lastCommitted
            && Rest(t.completed, t.lastCommitted) == Rest(u.completed, u.lastCommitted)
            && (t.completed == u.completed <==> Repeats(p, ls, cfg) == Repeats(q, ks, cfg))
  {
    RunKeepsHistory(p, ls, cfg);
    RunKeepsHistory(q, ks, cfg);
    TrackersAgree(Run(FreshSlot(p), ls, cfg).tracker, Repeats(p, ls, cfg), Run(FreshSlot(q), ks, cfg).tracker,
                  Repeats(q, ks, cfg), Completed(p, ls, cfg), FirstSeen(p, ls, cfg).value);
  }

  // ---------------------------------------------------------------- repeats need a re-read

  /** The first offset that will be registered next. */
  function NextOffset(s: Slot): int {
    s.position - |s.backlog|
  }

  /** Every offset is handed out once, in increasing order. */
  ghost predicate Once(s: Slot, done: set<int>, first: Option<int>) {
    && (forall i :: 0 <= i < |s.backlog| ==> s.backlog[i].offset == NextOffset(s) + i)
    && (forall n <- s.tasks :: s.tasks[n].delivery.offset < NextOffset(s))
    && (forall n <- s.tasks :: s.tasks[n].delivery.offset as int !in done)
    && (forall m, n :: m in s.tasks && n in s.tasks && m != n ==>
          s.tasks[m].delivery.offset != s.tasks[n].delivery.offset)
    && (forall o <- done :: o < NextOffset(s))
    && (first.Some? ==>
          first.value <= NextOffset(s) && forall n <- s.tasks :: first.value <= s.tasks[n].delivery.offset)
  }

  lemma RegisteredOnce(s: Slot, t: Slot, done: set<int>, first: Option<int>)
    requires Once(s, done, first) && (first.None? ==> s.tasks == map[]) && s.backlog != []
    requires t.position == s.position && t.backlog == s.backlog[1..]
    requires t.tasks == s.tasks[s.backlog[0].num := Task(s.backlog[0], s.tracker.generation, Handling)]
    ensures Once(t, done, if first.Some? then first else Some(s.backlog[0].offset))
  {
    assert NextOffset(t) == NextOffset(s) + 1 && s.backlog[0].offset == NextOffset(s);
  }

  lemma RegisterKeepsOnce(s: Slot, step: SlotStep, done: set<int>, first: Option<int>, cfg: Config)
    requires Once(s, done, first) && (first.None? ==> s.tasks == map[]) && step.RegisterNext? && Enabled(s, step, cfg)
    ensures Once(Next(s, step, cfg), done, if first.Some? then first else Some(s.backlog[0].offset))
  {
    RegisteredOnce(s, Next(s, step, cfg), done, first);
  }

  lemma FinalizeKeepsOnce(s: Slot, step: SlotStep, done: set<int>, first: Option<int>, cfg: Config)
    requires Once(s, done, first) && step.FinalizeTask? && Enabled(s, step, cfg)
    ensures Once(Next(s, step, cfg), done + CompletedNow(s, step, cfg), first)
  {
  }

  lemma PhaseKeepsOnce(s: Slot, num: nat, phase: Phase, done: set<int>, first: Option<int>)
    requires Once(s, done, first) && num in s.tasks
    ensures Once(SetPhase(s, num, phase), done, first)
  {
  }

  lemma SameKeepsOnce(s: Slot, t: Slot, done: set<int>, first: Option<int>)
    requires Once(s, done, first) && t.tasks == s.tasks && t.backlog == s.backlog && t.position == s.position
    ensures Once(t, done, first)
  {
  }

  lemma PollKeepsOnce(s: Slot, keys: seq<Key>, done: set<int>, first: Option<int>, cfg: Config)
    requires Once(s, done, first) && Enabled(s, Poll(keys), cfg)
    ensures Once(Next(s, Poll(keys), cfg), done, first)
  {
  }

  lemma QuietStepKeepsOnce(s: Slot, step: SlotStep, done: set<int>, first: Option<int>, cfg: Config)
    requires Once(s, done, first) && Enabled(s, step, cfg)
    requires !step.FinalizeTask? && !step.RegisterNext? && !step.Seek?
    ensures Once(Next(s, step, cfg), done, first)
  {
    var t := Next(s, step, cfg);
    if step.Poll? {
      PollKeepsOnce(s, step.keys, done, first, cfg);
    } else if step.HandlerReturns? || step.HandlerRaises? || step.PublishCopy? || step.FailureDone? {
      PhaseKeepsOnce(s, step.num, t.tasks[step.num].phase, done, first);
      SameKeepsOnce(SetPhase(s, step.num, t.tasks[step.num].phase), t, done, first);
    } else {
      SameKeepsOnce(s, t, done, first);
    }
  }

  lemma StepKeepsOnce(s: Slot, step: SlotStep, done: set<int>, first: Option<int>, cfg: Config)
    requires Once(s, done, first) && (first.None? ==> s.tasks == map[]) && !step.Seek?
    ensures Once(Apply(s, step, cfg), done + CompletedNow(s, step, cfg),
                 if first.Some? then first else Registers(s, step, cfg))
  {
    if step.FinalizeTask? && Enabled(s, step, cfg) {
      FinalizeKeepsOnce(s, step, done, first, cfg);
    } else {
      var none: set<int> := {};
      assert done + none == done;
      if step.RegisterNext? && Enabled(s, step, cfg) {
        RegisterKeepsOnce(s, step, done, first, cfg);
      } else if Enabled(s, step, cfg) {
        QuietStepKeepsOnce(s, step, done, first, cfg);
      }
    }
  }

  /** Nothing still unfinished lies at or below a position on the run of the finished. */
  lemma UnfinishedIsAbove(s: Slot, done: set<int>, repeats: set<int>, first: Option<int>, step: SlotStep, cfg: Config)
    requires Once(s, done, first) && HistoryInv(s, done, repeats, first) && Completes(s, step, cfg)
    ensures s.tracker.lastCommitted < s.tasks[step.num].delivery.offset
  {
    var o := s.tasks[step.num].delivery.offset as int;
    assert o !in done;
  }

  /** Without a re-read, rebalances and restarts included, no offset completes twice and `completed` is the rest. */
  lemma {:induction false} RepeatsNeedReread(position: nat, steps: seq<SlotStep>, cfg: Config)
    requires forall step <- steps :: !step.Seek?
    ensures Repeats(position, steps, cfg) == {}
    ensures Once(Run(FreshSlot(position), steps, cfg), Completed(position, steps, cfg), FirstSeen(position, steps, cfg))
  {
    if steps != [] {
      var init, step := steps[..|steps| - 1], steps[|steps| - 1];
      assert step in steps && forall e <- init :: e in steps;
      RepeatsNeedReread(position, init, cfg);
      RunKeepsHistory(position, init, cfg);
      var s := Run(FreshSlot(position), init, cfg);
      var done, first := Completed(position, init, cfg), FirstSeen(position, init, cfg);
      StepKeepsOnce(s, step, done, first, cfg);
      if Completes(s, step, cfg) {
        UnfinishedIsAbove(s, done, {}, first, step, cfg);
      }
    }
  }
  // ---------------------------------------------------------------- a repeat, and that it stays

  lemma {:induction false} AppendQuiet(position: nat, a: seq<SlotStep>, b: seq<SlotStep>, cfg: Config)
    requires forall step <- b :: !step.FinalizeTask?
    ensures Completed(position, a + b, cfg) == Completed(position, a, cfg)
    ensures Repeats(position, a + b, cfg) == Repeats(position, a, cfg)
  {
    if b == [] {
      assert a + b == a;
    } else {
      assert (a + b)[..|a + b| - 1] == a + b[..|b| - 1] && b[|b| - 1] in b;
      AppendQuiet(position, a, b[..|b| - 1], cfg);
    }
  }

  lemma AppendOne(position: nat, steps: seq<SlotStep>, step: SlotStep, cfg: Config)
    ensures var s := Run(FreshSlot(position), steps, cfg);
            && Completed(position, steps + [step], cfg) == Completed(position, steps, cfg) + CompletedNow(s, step, cfg)
            && Repeats(position, steps + [step], cfg) == Repeats(position, steps, cfg) + RepeatedNow(s, step, cfg)
  {
    assert (steps + [step])[..|steps|] == steps;
  }

  /** What the finalize of a handled record adds, right after its handler has returned. */
  lemma FinalizeAdds(s: Slot, num: nat, offset: nat, cfg: Config)
    requires InHand(s, num, offset)
    ensures var t, step := Apply(s, HandlerReturns(num), cfg), FinalizeTask(num, true, true, true);
            && CompletedNow(t, step, cfg) == {offset as int}
            && RepeatedNow(t, step, cfg) == if offset <= s.tracker.lastCommitted then {offset as int} else {}
  {
    Releases(s, num, offset, HandlerReturns(num), Handling, cfg);
  }

  lemma ReturnAddsNothing(position: nat, steps: seq<SlotStep>, num: nat, offset: nat, cfg: Config)
    requires InHand(Run(FreshSlot(position), steps, cfg), num, offset)
    ensures var before := steps + [HandlerReturns(num)];
            && Completed(position, before, cfg) == Completed(position, steps, cfg)
            && Repeats(position, before, cfg) == Repeats(position, steps, cfg)
            && Run(FreshSlot(position), before, cfg)
               == Apply(Run(FreshSlot(position), steps, cfg), HandlerReturns(num), cfg)
  {
    AppendQuiet(position, steps, [HandlerReturns(num)], cfg);
    RunSnoc(FreshSlot(position), steps, HandlerReturns(num), cfg);
  }

  /** A task that finishes adds its offset to the history, and to the repeats if the position has passed it. */
  lemma HandleAdds(position: nat, steps: seq<SlotStep>, num: nat, offset: nat, cfg: Config)
    requires InHand(Run(FreshSlot(position), steps, cfg), num, offset)
    ensures Completed(position, steps + Handle(num), cfg) == Completed(position, steps, cfg) + {offset as int}
    ensures var again := if offset <= Run(FreshSlot(position), steps, cfg).tracker.lastCommitted
                         then {offset as int} else {};
            Repeats(position, steps + Handle(num), cfg) == Repeats(position, steps, cfg) + again
  {
    var before, finalize := steps + [HandlerReturns(num)], FinalizeTask(num, true, true, true);
    ReturnAddsNothing(position, steps, num, offset, cfg);
    AppendOne(position, before, finalize, cfg);
    assert before + [finalize] == steps + Handle(num);
    FinalizeAdds(Run(FreshSlot(position), steps, cfg), num, offset, cfg);
  }

  lemma TakeAddsNothing(position: nat, steps: seq<SlotStep>, num: nat, offset: nat, cfg: Config)
    requires Ready(Run(FreshSlot(position), steps, cfg), num, offset) && 1 <= cfg.maxInflight && 1 <= cfg.maxBatch
    ensures Completed(position, steps + TAKE, cfg) == Completed(position, steps, cfg)
    ensures Repeats(position, steps + TAKE, cfg) == Repeats(position, steps, cfg)
    ensures var s, t := Run(FreshSlot(position), steps, cfg), Run(FreshSlot(position), steps + TAKE, cfg);
            InHand(t, num, offset) && t.position == offset + 1 && t.tracker == Register(s.tracker, offset)
  {
    AppendQuiet(position, steps, TAKE, cfg);
    RunConcat(FreshSlot(position), steps, TAKE, cfg);
    Takes(Run(FreshSlot(position), steps, cfg), num, offset, cfg);
  }

  lemma Rewinds(s: Slot, num: nat, offset: nat, cfg: Config)
    requires InHand(s, num, offset)
    ensures var t := Apply(s, Seek(offset), cfg);
            InHand(t, num, offset) && t.position == offset && t.tracker == s.tracker
  {
  }

  /** A record is read and, before it finishes, read again: a rebalance rewinds the client but keeps the assignment. */
  function ReadTwice(position: nat): seq<SlotStep> {
    [SetOwned(true)] + TAKE + [Seek(position)] + Handle(0) + TAKE + Handle(1)
  }

  lemma StartsReady(position: nat, cfg: Config)
    ensures var s := Run(FreshSlot(position), [SetOwned(true)], cfg);
            Ready(s, 0, position) && s.tracker == Fresh()
    ensures Completed(position, [SetOwned(true)], cfg) == {} && Repeats(position, [SetOwned(true)], cfg) == {}
  {
    RunSnoc(FreshSlot(position), [], SetOwned(true), cfg);
    assert [] + [SetOwned(true)] == [SetOwned(true)];
    AppendQuiet(position, [], [SetOwned(true)], cfg);
  }

  lemma CommitsOnly(t: Tracker, offset: nat, cfg: Config)
    requires t.lastCommitted == offset - 1 && t.completed == {}
    ensures var r := Finalize(t, offset, t.generation, true, true, true, true, cfg.flow);
            r.lastCommitted == offset && r.completed == {} && r.initialized == t.initialized
  {
    var done: set<int> := {};
    assert done + {offset as int} == {offset as int};
    RunEndUnique({offset as int}, offset - 1, RunEnd({offset as int}, offset - 1), offset);
    assert Above({offset as int}, offset - 1, offset) == {};
  }

  lemma CompletesBelow(t: Tracker, offset: nat, cfg: Config)
    requires t.lastCommitted == offset && t.completed == {}
    ensures var r := Finalize(t, offset, t.generation, true, true, true, true, cfg.flow);
            r.lastCommitted == offset && r.completed == {offset as int}
  {
    var done: set<int> := {};
    assert done + {offset as int} == {offset as int};
  }

  /** The record is in its handler and the client is back in front of it. */
  lemma ReadsAhead(position: nat, cfg: Config) returns (steps: seq<SlotStep>)
    requires 1 <= cfg.maxInflight && 1 <= cfg.maxBatch
    ensures steps == [SetOwned(true)] + TAKE + [Seek(position)]
    ensures Completed(position, steps, cfg) == {} && Repeats(position, steps, cfg) == {}
    ensures var s := Run(FreshSlot(position), steps, cfg);
            InHand(s, 0, position) && s.position == position && s.tracker == Register(Fresh(), position)
  {
    StartsReady(position, cfg);
    TakeAddsNothing(position, [SetOwned(true)], 0, position, cfg);
    var read := [SetOwned(true)] + TAKE;
    AppendQuiet(position, read, [Seek(position)], cfg);
    RunSnoc(FreshSlot(position), read, Seek(position), cfg);
    Rewinds(Run(FreshSlot(position), read, cfg), 0, position, cfg);
    steps := read + [Seek(position)];
  }

  /** It is handled the first time and its offset committed. */
  lemma HandlesOnce(position: nat, steps: seq<SlotStep>, cfg: Config)
    requires Completed(position, steps, cfg) == {} && Repeats(position, steps, cfg) == {}
    requires var s := Run(FreshSlot(position), steps, cfg);
             InHand(s, 0, position) && s.position == position && s.tracker == Register(Fresh(), position)
    ensures var all := steps + Handle(0);
            Completed(position, all, cfg) == {position as int} && Repeats(position, all, cfg) == {}
    ensures var s := Run(FreshSlot(position), steps + Handle(0), cfg);
            && Ready(s, 1, position) && s.tracker.initialized
            && s.tracker.lastCommitted == position && s.tracker.completed == {}
  {
    var s := Run(FreshSlot(position), steps, cfg);
    HandleAdds(position, steps, 0, position, cfg);
    RunConcat(FreshSlot(position), steps, Handle(0), cfg);
    Handles(s, 0, position, cfg);
    CommitsOnly(s.tracker, position, cfg);
  }

  lemma {:induction false} RepeatsOnlyGrow(position: nat, steps: seq<SlotStep>, later: seq<SlotStep>, cfg: Config)
    ensures Repeats(position, steps, cfg) <= Repeats(position, steps + later, cfg)
  {
    if later == [] {
      assert steps + later == steps;
    } else {
      assert (steps + later)[..|steps + later| - 1] == steps + later[..|later| - 1];
      RepeatsOnlyGrow(position, steps, later[..|later| - 1], cfg);
    }
  }

  /** An offset completed again below the position never leaves `completed`. */
  lemma RepeatsStay(position: nat, steps: seq<SlotStep>, later: seq<SlotStep>, cfg: Config)
    ensures Repeats(position, steps, cfg) <= Run(FreshSlot(position), steps + later, cfg).tracker.completed
  {
    RepeatsOnlyGrow(position, steps, later, cfg);
    RunKeepsHistory(position, steps + later, cfg);
  }

  /** It is read and handled once more. */
  lemma HandlesAgain(position: nat, steps: seq<SlotStep>, cfg: Config)
    requires 1 <= cfg.maxInflight && 1 <= cfg.maxBatch && Repeats(position, steps, cfg) == {}
    requires var s := Run(FreshSlot(position), steps, cfg);
             Ready(s, 1, position) && s.tracker.initialized
             && s.tracker.lastCommitted == position && s.tracker.completed == {}
    ensures Repeats(position, steps + TAKE + Handle(1), cfg) == {position as int}
    ensures var t := Run(FreshSlot(position), steps + TAKE + Handle(1), cfg).tracker;
            t.lastCommitted == position && t.completed == {position as int}
  {
    TakeAddsNothing(position, steps, 1, position, cfg);
    var t := Run(FreshSlot(position), steps + TAKE, cfg);
    HandleAdds(position, steps + TAKE, 1, position, cfg);
    RunConcat(FreshSlot(position), steps + TAKE, Handle(1), cfg);
    Handles(t, 1, position, cfg);
    CompletesBelow(t.tracker, position, cfg);
  }

  /** From every position: a record that is read twice and finishes twice leaves its offset behind for good. */
  lemma ReadTwiceRepeats(position: nat, later: seq<SlotStep>, cfg: Config)
    requires 1 <= cfg.maxInflight && 1 <= cfg.maxBatch
    ensures Repeats(position, ReadTwice(position), cfg) == {position as int}
    ensures var t := Run(FreshSlot(position), ReadTwice(position), cfg).tracker;
            t.lastCommitted == position && t.completed == {position as int}
    ensures position as int in Run(FreshSlot(position), ReadTwice(position) + later, cfg).tracker.completed
  {
    var read := ReadsAhead(position, cfg);
    HandlesOnce(position, read, cfg);
    HandlesAgain(position, read + Handle(0), cfg);
    RepeatsStay(position, ReadTwice(position), later, cfg);
  }
}
