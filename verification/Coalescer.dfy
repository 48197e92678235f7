/**
 * The message coalescer for one conversation, at the points where its lock is free: messages wait in `pending` until
 * the debounce timer or a location share starts a batch; a message arriving while a batch runs cancels it and takes
 * its messages back. `Conversation` is the value of the state, `ConversationState` the mutable object.
 * Times are integer ticks; asyncio tasks are the entries of `batches`.
 */
module Coalescer {
  import opened Wrappers

  datatype Message = Message(id: string, content: string, timestamp: int, isLocationShare: bool)

  /** Cancelled: by a new message. Abandoned: the callback raised CancelledError although nobody cancelled it. */
  datatype Fate = InProgress | Succeeded | Failed | Cancelled | Abandoned

  datatype Batch = Batch(messages: seq<Message>, startedAt: int, fate: Fate)

  datatype Limits = Limits(debounce: int, window: int)

  /** `active` stays set after its batch has finished; `timer` is the deadline of the armed debounce timer. */
  datatype Conversation = Conversation(
    pending: seq<Message>,
    inFlight: seq<Message>,
    active: Option<nat>,
    timer: Option<int>,
    tokenCancelled: bool,
    firstMessageAt: int,
    batches: seq<Batch>,
    arrived: seq<Message>,
    now: int)

  /**
   * Enqueue: a message gets the lock at `at`; if a batch runs it is cancelled and ends as `outcome`, and the lock
   * holder goes on at `settle`. TimerFires: the timer's task gets the lock. TaskEnds: a batch ends by itself.
   */
  datatype Step =
    | Enqueue(id: string, content: string, isLocationShare: bool, at: int, settle: int, outcome: Fate)
    | TimerFires(at: int)
    | TaskEnds(batch: nat, fate: Fate, at: int)

  function Fresh(): Conversation {
    Conversation([], [], None, None, false, 0, [], [], 0)
  }

  predicate Running(c: Conversation) {
    c.active.Some? && c.active.value < |c.batches| && c.batches[c.active.value].fate.InProgress?
  }

  predicate Enabled(c: Conversation, step: Step) {
    match step
    case Enqueue(_, _, _, at, settle, outcome) =>
      c.now <= at <= settle && (outcome.Succeeded? || outcome.Failed? || outcome.Cancelled?)
    case TimerFires(at) => c.now <= at && c.timer.Some? && c.timer.value <= at
    case TaskEnds(batch, fate, at) =>
      c.now <= at && batch < |c.batches| && c.batches[batch].fate.InProgress? &&
      (fate.Succeeded? || fate.Failed? || fate.Abandoned?)
  }

  /** The tail of a batch's task: success and failure clear the in-flight list, a CancelledError does not. */
  function EndTask(c: Conversation, batch: nat, fate: Fate): Conversation
    requires batch < |c.batches|
  {
    c.(batches := c.batches[batch := c.batches[batch].(fate := fate)],
       inFlight := if fate.Succeeded? || fate.Failed? then [] else c.inFlight)
  }

  function CancelActive(c: Conversation, outcome: Fate): Conversation {
    if !Running(c) then c
    else
      var d := EndTask(c, c.active.value, outcome);
      d.(tokenCancelled := true, active := None, pending := d.inFlight + d.pending, inFlight := [])
  }

  function ProcessNow(c: Conversation, at: int): Conversation {
    if c.pending == [] then c
    else
      c.(inFlight := c.pending, pending := [], firstMessageAt := at, tokenCancelled := false,
         active := Some(|c.batches|), batches := c.batches + [Batch(c.pending, at, InProgress)])
  }

  /** How long the timer may still wait. */
  function Wait(c: Conversation, at: int, limits: Limits): int {
    Min(limits.debounce, Max(0, limits.window - (at - c.firstMessageAt)))
  }

  function StartDebounceTimer(c: Conversation, at: int, limits: Limits): Conversation {
    if Wait(c, at, limits) <= 0 then ProcessNow(c.(timer := None), at)
    else c.(timer := Some(at + Wait(c, at, limits)))
  }

  function AddMessage(c: Conversation, m: Message): Conversation {
    c.(firstMessageAt := if c.pending == [] && c.active.None? then m.timestamp else c.firstMessageAt,
       pending := c.pending + [m],
       arrived := c.arrived + [m])
  }

  function Next(c: Conversation, step: Step, limits: Limits): Conversation
    requires Enabled(c, step)
  {
    match step
    case Enqueue(id, content, isLocationShare, at, settle, outcome) =>
      var d := AddMessage(CancelActive(c, outcome), Message(id, content, at, isLocationShare)).(now := settle);
      if isLocationShare then ProcessNow(d, settle) else StartDebounceTimer(d, settle, limits)
    case TimerFires(at) => ProcessNow(c.(timer := None, now := at), at)
    case TaskEnds(batch, fate, at) => EndTask(c, batch, fate).(now := at)
  }

  function Apply(c: Conversation, step: Step, limits: Limits): Conversation {
    if Enabled(c, step) then Next(c, step, limits) else c
  }

  function Run(c: Conversation, steps: seq<Step>, limits: Limits): Conversation {
    if steps == [] then c else Apply(Run(c, steps[..|steps| - 1], limits), steps[|steps| - 1], limits)
  }

  // ---------------------------------------------------------------- progress: one callback, one timer, strict prefixes

  /** A callback raised CancelledError unasked: its messages sit in the in-flight list of a finished task. */
  predicate Orphaned(c: Conversation) {
    c.inFlight != [] && !Running(c)
  }

  /** Messages a cancelled batch handed back; they lead the pending list. */
  function Restored(c: Conversation): seq<Message> {
    if c.batches != [] && c.batches[|c.batches| - 1].fate.Cancelled? then c.batches[|c.batches| - 1].messages else []
  }

  ghost predicate Chained(batches: seq<Batch>) {
    && (forall i :: 0 <= i < |batches| ==> batches[i].messages != [])
    && (forall i :: 0 <= i < |batches| - 1 && batches[i].fate.Cancelled? ==>
          batches[i].messages < batches[i + 1].messages)
  }

  ghost predicate Shape(c: Conversation) {
    && (forall i :: 0 <= i < |c.batches| && c.batches[i].fate.InProgress? ==> c.active == Some(i))
    && (c.active.Some? ==> c.active.value == |c.batches| - 1)
    && (Running(c) ==> c.inFlight == c.batches[c.active.value].messages && c.pending == [] && !c.tokenCancelled)
    && (c.pending != [] ==> c.timer.Some?)
    && (c.batches != [] && c.batches[|c.batches| - 1].fate.Cancelled? ==> c.active.None?)
    && (Restored(c) != [] ==> Restored(c) < c.pending)
    && Chained(c.batches)
  }

  lemma EndTaskKeepsShape(c: Conversation, batch: nat, fate: Fate)
    requires Shape(c) && batch < |c.batches| && c.batches[batch].fate.InProgress?
    requires fate.Succeeded? || fate.Failed? || fate.Abandoned?
    ensures Shape(EndTask(c, batch, fate))
  {
  }

  /** Nothing runs, and whatever a cancelled batch gave back leads the pending list. */
  ghost predicate Quiet(c: Conversation) {
    && (forall i :: 0 <= i < |c.batches| ==> !c.batches[i].fate.InProgress?)
    && (c.active.Some? ==> c.active.value == |c.batches| - 1 && !c.batches[|c.batches| - 1].fate.Cancelled?)
    && Chained(c.batches)
    && Restored(c) <= c.pending
  }

  lemma CancelActiveQuiets(c: Conversation, outcome: Fate)
    requires Shape(c) && (outcome.Succeeded? || outcome.Failed? || outcome.Cancelled?)
    ensures Quiet(CancelActive(c, outcome))
  {
  }

  lemma AddMessageQuiet(c: Conversation, m: Message, now: int)
    requires Quiet(c)
    ensures var d := AddMessage(c, m).(now := now); Quiet(d) && Restored(d) < d.pending
  {
    var d := AddMessage(c, m).(now := now);
    assert Restored(d) == Restored(c);
  }

  lemma DispatchShapes(c: Conversation, at: int)
    requires Quiet(c) && Restored(c) < c.pending
    ensures Shape(ProcessNow(c, at))
  {
  }

  lemma ArmShapes(c: Conversation, deadline: int)
    requires Quiet(c) && Restored(c) < c.pending
    ensures Shape(c.(timer := Some(deadline)))
  {
  }

  lemma StartShapes(e: Conversation, isLocationShare: bool, at: int, limits: Limits)
    requires Quiet(e) && Restored(e) < e.pending
    ensures Shape(if isLocationShare then ProcessNow(e, at) else StartDebounceTimer(e, at, limits))
  {
    DispatchShapes(e, at);
    assert Restored(e.(timer := None)) == Restored(e);
    DispatchShapes(e.(timer := None), at);
    ArmShapes(e, at + Wait(e, at, limits));
  }

  lemma EnqueueKeepsShape(c: Conversation, step: Step, limits: Limits)
    requires Shape(c) && step.Enqueue? && Enabled(c, step)
    ensures Shape(Next(c, step, limits))
  {
    var m := Message(step.id, step.content, step.at, step.isLocationShare);
    var d := CancelActive(c, step.outcome);
    CancelActiveQuiets(c, step.outcome);
    AddMessageQuiet(d, m, step.settle);
    var e := AddMessage(d, m).(now := step.settle);
    StartShapes(e, step.isLocationShare, step.settle, limits);
  }

  lemma TimerKeepsShape(c: Conversation, at: int)
    requires Shape(c)
    ensures Shape(ProcessNow(c.(timer := None, now := at), at))
  {
    if c.pending != [] {
      var d := c.(timer := None, now := at);
      assert Restored(d) == Restored(c) && Quiet(d);
      DispatchShapes(d, at);
    }
  }

  lemma StepKeepsShape(c: Conversation, step: Step, limits: Limits)
    requires Shape(c)
    ensures Shape(Apply(c, step, limits))
  {
    if Enabled(c, step) {
      match step
      case Enqueue(_, _, _, _, _, _) => EnqueueKeepsShape(c, step, limits);
      case TimerFires(at) => TimerKeepsShape(c, at);
      case TaskEnds(batch, fate, _) => EndTaskKeepsShape(c, batch, fate);
    }
  }

  /**
   * In every reachable state: at most one callback runs and then nothing is pending and its token is not cancelled;
   * pending messages have an armed timer; a cancelled batch is a strict prefix of the next one.
   */
  lemma {:induction false} ProgressSafety(steps: seq<Step>, limits: Limits)
    ensures Shape(Run(Fresh(), steps, limits))
  {
    if steps != [] {
      ProgressSafety(steps[..|steps| - 1], limits);
      StepKeepsShape(Run(Fresh(), steps[..|steps| - 1], limits), steps[|steps| - 1], limits);
    }
  }

  // ---------------------------------------------------------------- conservation and order

  /** The messages of the batches whose callback was run to its end. */
  function Consumed(batches: seq<Batch>): seq<Message> {
    if batches == [] then []
    else
      var b := batches[|batches| - 1];
      Consumed(batches[..|batches| - 1]) + if b.fate.Succeeded? || b.fate.Failed? then b.messages else []
  }

  ghost predicate Conserved(c: Conversation) {
    c.arrived == Consumed(c.batches) + c.inFlight + c.pending
  }

  /** The step starts a batch. */
  predicate StartsBatch(c: Conversation, step: Step, limits: Limits) {
    |c.batches| < |Apply(c, step, limits).batches|
  }

  /** What a message that finds no callback running takes for the start of its batch. */
  function BatchStart(c: Conversation, at: int): int {
    if c.pending == [] && c.active.None? then at else c.firstMessageAt
  }

  /**
   * What a caller sees before the step, with no callback running: a due timer with messages waiting, a location share,
   * or a message for which neither debounce time nor window is left.
   */
  predicate MustDispatch(c: Conversation, step: Step, limits: Limits) {
    Enabled(c, step) &&
    match step
    case Enqueue(_, _, isLocationShare, at, settle, _) =>
      isLocationShare || limits.debounce <= 0 || BatchStart(c, at) + limits.window <= settle
    case TimerFires(_) => c.pending != []
    case TaskEnds(_, _, _) => false
  }

  lemma StartsBatchIff(c: Conversation, step: Step, limits: Limits)
    requires !Running(c)
    ensures StartsBatch(c, step, limits) <==> MustDispatch(c, step, limits)
  {
    if Enabled(c, step) && step.Enqueue? {
      assert CancelActive(c, step.outcome) == c;
    }
  }

  lemma EndLast(batches: seq<Batch>, fate: Fate)
    requires batches != []
    ensures var last := |batches| - 1;
            Consumed(batches[last := batches[last].(fate := fate)]) ==
            Consumed(batches[..last]) + if fate.Succeeded? || fate.Failed? then batches[last].messages else []
  {
    var last := |batches| - 1;
    assert batches[last := batches[last].(fate := fate)][..last] == batches[..last];
  }

  lemma CancelActiveConserves(c: Conversation, outcome: Fate)
    requires Shape(c) && Conserved(c) && (outcome.Succeeded? || outcome.Failed? || outcome.Cancelled?)
    ensures Conserved(CancelActive(c, outcome))
    ensures CancelActive(c, outcome).inFlight == if Orphaned(c) then c.inFlight else []
  {
    if Running(c) {
      EndLast(c.batches, outcome);
      var d := CancelActive(c, outcome);
      assert Consumed(c.batches) == Consumed(c.batches[..|c.batches| - 1]) + [];
      assert d.pending == if outcome.Cancelled? then c.inFlight else [];
    }
  }

  /** Starting a batch drops exactly what sat in the in-flight list. */
  lemma ProcessNowConservesIff(c: Conversation, at: int)
    requires Conserved(c)
    ensures Conserved(ProcessNow(c, at)) <==> c.pending == [] || c.inFlight == []
  {
    if c.pending != [] {
      var d := ProcessNow(c, at);
      assert d.batches[..|c.batches|] == c.batches;
      assert Consumed(d.batches) == Consumed(c.batches) + [];
      assert |d.arrived| == |Consumed(c.batches)| + |c.inFlight| + |c.pending|;
      if c.inFlight == [] {
        assert Consumed(d.batches) + d.inFlight + d.pending == Consumed(c.batches) + c.inFlight + c.pending;
      } else {
        assert |Consumed(d.batches) + d.inFlight + d.pending| < |d.arrived|;
      }
    }
  }

  lemma AddMessageConserves(c: Conversation, m: Message, now: int)
    requires Conserved(c)
    ensures Conserved(AddMessage(c, m).(now := now))
  {
  }

  /** Starting the batch or arming the timer, once the message has been added. */
  lemma StartConservesIff(e: Conversation, isLocationShare: bool, at: int, limits: Limits)
    requires Conserved(e) && e.pending != []
    ensures var f := if isLocationShare then ProcessNow(e, at) else StartDebounceTimer(e, at, limits);
            Conserved(f) <==> e.inFlight == [] || |f.batches| == |e.batches|
  {
    ProcessNowConservesIff(e, at);
    ProcessNowConservesIff(e.(timer := None), at);
  }

  lemma EnqueueConservesIff(c: Conversation, step: Step, limits: Limits)
    requires Shape(c) && Conserved(c) && step.Enqueue? && Enabled(c, step)
    ensures Conserved(Next(c, step, limits)) <==> !(Orphaned(c) && |c.batches| < |Next(c, step, limits).batches|)
  {
    var m := Message(step.id, step.content, step.at, step.isLocationShare);
    var d := CancelActive(c, step.outcome);
    CancelActiveConserves(c, step.outcome);
    AddMessageConserves(d, m, step.settle);
    StartConservesIff(AddMessage(d, m).(now := step.settle), step.isLocationShare, step.settle, limits);
    assert |d.batches| == |c.batches|;
    StartNeverDrops(AddMessage(d, m).(now := step.settle), step.isLocationShare, step.settle, limits);
  }

  lemma StartNeverDrops(e: Conversation, isLocationShare: bool, at: int, limits: Limits)
    ensures var f := if isLocationShare then ProcessNow(e, at) else StartDebounceTimer(e, at, limits);
            |e.batches| <= |f.batches|
  {
  }

  lemma TaskEndConserves(c: Conversation, batch: nat, fate: Fate)
    requires Shape(c) && Conserved(c) && batch < |c.batches| && c.batches[batch].fate.InProgress?
    requires fate.Succeeded? || fate.Failed? || fate.Abandoned?
    ensures Conserved(EndTask(c, batch, fate))
  {
    EndLast(c.batches, fate);
    assert Consumed(c.batches) == Consumed(c.batches[..|c.batches| - 1]) + [];
  }

  /**
   * From a state in which every message is accounted for, a step loses messages exactly when an orphaned batch still
   * sits in the in-flight list and the step must dispatch another.
   */
  lemma StepConservesIff(c: Conversation, step: Step, limits: Limits)
    requires Shape(c) && Conserved(c)
    ensures Conserved(Apply(c, step, limits)) <==> !(Orphaned(c) && MustDispatch(c, step, limits))
  {
    if Orphaned(c) {
      StartsBatchIff(c, step, limits);
    }
    if Enabled(c, step) {
      match step
      case Enqueue(_, _, _, _, _, _) => EnqueueConservesIff(c, step, limits);
      case TimerFires(at) => ProcessNowConservesIff(c.(timer := None, now := at), at);
      case TaskEnds(batch, fate, at) => TaskEndConserves(c, batch, fate);
    }
  }

  // ---------------------------------------------------------------- how many messages a run loses

  /** The arrivals that are in no finished batch, not in flight and not pending. */
  function Missing(c: Conversation): int {
    |c.arrived| - |Consumed(c.batches)| - |c.inFlight| - |c.pending|
  }

  lemma CancelActiveMisses(c: Conversation, outcome: Fate)
    requires Shape(c) && (outcome.Succeeded? || outcome.Failed? || outcome.Cancelled?)
    ensures Missing(CancelActive(c, outcome)) == Missing(c)
    ensures Running(c) ==> CancelActive(c, outcome).inFlight == []
  {
    if Running(c) {
      EndLast(c.batches, outcome);
      assert Consumed(c.batches) == Consumed(c.batches[..|c.batches| - 1]) + [];
    }
  }

  lemma ProcessNowMisses(c: Conversation, at: int)
    ensures Missing(ProcessNow(c, at)) == Missing(c) + if c.pending == [] then 0 else |c.inFlight|
  {
    if c.pending != [] {
      var d := ProcessNow(c, at);
      assert d.batches[..|c.batches|] == c.batches;
      assert Consumed(d.batches) == Consumed(c.batches) + [];
    }
  }

  lemma StartMisses(e: Conversation, isLocationShare: bool, at: int, limits: Limits)
    requires e.pending != []
    ensures var f := if isLocationShare then ProcessNow(e, at) else StartDebounceTimer(e, at, limits);
            Missing(f) == Missing(e) + if |e.batches| < |f.batches| then |e.inFlight| else 0
  {
    ProcessNowMisses(e, at);
    ProcessNowMisses(e.(timer := None), at);
  }

  lemma EnqueueMisses(c: Conversation, step: Step, limits: Limits)
    requires Shape(c) && step.Enqueue? && Enabled(c, step)
    ensures Missing(Next(c, step, limits)) ==
            Missing(c) + if Orphaned(c) && StartsBatch(c, step, limits) then |c.inFlight| else 0
  {
    var m := Message(step.id, step.content, step.at, step.isLocationShare);
    var d := CancelActive(c, step.outcome);
    CancelActiveMisses(c, step.outcome);
    var e := AddMessage(d, m).(now := step.settle);
    assert Missing(e) == Missing(d) && |e.batches| == |c.batches|;
    StartMisses(e, step.isLocationShare, step.settle, limits);
  }

  lemma TaskEndMisses(c: Conversation, batch: nat, fate: Fate)
    requires Shape(c) && batch < |c.batches| && c.batches[batch].fate.InProgress?
    requires fate.Succeeded? || fate.Failed? || fate.Abandoned?
    ensures Missing(EndTask(c, batch, fate)) == Missing(c)
  {
    EndLast(c.batches, fate);
    assert Consumed(c.batches) == Consumed(c.batches[..|c.batches| - 1]) + [];
  }

  /** The messages a step loses: an orphaned batch that it must overwrite. */
  function LostNow(c: Conversation, step: Step, limits: Limits): nat {
    if Orphaned(c) && MustDispatch(c, step, limits) then |c.inFlight| else 0
  }

  /** Whatever was lost before, a step loses exactly that many more; nothing lost ever comes back. */
  lemma StepMisses(c: Conversation, step: Step, limits: Limits)
    requires Shape(c)
    ensures Missing(Apply(c, step, limits)) == Missing(c) + LostNow(c, step, limits)
  {
    if !Running(c) {
      StartsBatchIff(c, step, limits);
    }
    if Enabled(c, step) {
      match step
      case Enqueue(_, _, _, _, _, _) => EnqueueMisses(c, step, limits);
      case TimerFires(at) => ProcessNowMisses(c.(timer := None, now := at), at);
      case TaskEnds(batch, fate, _) => TaskEndMisses(c, batch, fate);
    }
  }

  function Lost(steps: seq<Step>, limits: Limits): nat {
    if steps == [] then 0
    else
      var init := steps[..|steps| - 1];
      Lost(init, limits) + LostNow(Run(Fresh(), init, limits), steps[|steps| - 1], limits)
  }

  /** No step of the run must dispatch over an orphaned batch. */
  predicate NeverOverwrites(steps: seq<Step>, limits: Limits) {
    steps == [] ||
    (var init := steps[..|steps| - 1];
     NeverOverwrites(init, limits) &&
     !(Orphaned(Run(Fresh(), init, limits)) && MustDispatch(Run(Fresh(), init, limits), steps[|steps| - 1], limits)))
  }

  /**
   * Over every run, whatever the callbacks' outcomes: as many messages are missing as sat in overwritten orphaned
   * batches; and the messages of finished batches, then those in flight, then those pending are the arrivals, in order,
   * once each, exactly if no step had to dispatch over an orphaned batch.
   */
  lemma {:induction false} ConservedIffNeverOverwrites(steps: seq<Step>, limits: Limits)
    ensures Missing(Run(Fresh(), steps, limits)) == Lost(steps, limits)
    ensures Conserved(Run(Fresh(), steps, limits)) <==> NeverOverwrites(steps, limits)
    ensures Lost(steps, limits) == 0 <==> NeverOverwrites(steps, limits)
  {
    if steps != [] {
      var init, step := steps[..|steps| - 1], steps[|steps| - 1];
      var c := Run(Fresh(), init, limits);
      ConservedIffNeverOverwrites(init, limits);
      ProgressSafety(init, limits);
      StepMisses(c, step, limits);
      if Conserved(c) {
        StepConservesIff(c, step, limits);
      }
    }
  }

  predicate NeverAbandons(steps: seq<Step>) {
    forall step <- steps :: step.TaskEnds? ==> !step.fate.Abandoned?
  }

  lemma StepNeverOrphans(c: Conversation, step: Step, limits: Limits)
    requires Shape(c) && !Orphaned(c) && NeverAbandons([step])
    ensures !Orphaned(Apply(c, step, limits))
  {
    assert step in [step];
    if Enabled(c, step) && step.Enqueue? {
      CancelActiveQuiets(c, step.outcome);
    }
  }

  lemma {:induction false} NoOrphans(steps: seq<Step>, limits: Limits)
    requires NeverAbandons(steps)
    ensures !Orphaned(Run(Fresh(), steps, limits)) && NeverOverwrites(steps, limits)
  {
    if steps != [] {
      var init, step := steps[..|steps| - 1], steps[|steps| - 1];
      assert step in steps && forall s <- init :: s in steps;
      NoOrphans(init, limits);
      ProgressSafety(init, limits);
      StepNeverOrphans(Run(Fresh(), init, limits), step, limits);
    }
  }

  /** In particular no message is lost as long as no callback raises CancelledError unasked. */
  lemma NoMessageLost(steps: seq<Step>, limits: Limits)
    requires NeverAbandons(steps)
    ensures Conserved(Run(Fresh(), steps, limits)) && !Orphaned(Run(Fresh(), steps, limits))
  {
    NoOrphans(steps, limits);
    ConservedIffNeverOverwrites(steps, limits);
  }

  lemma RunSnoc(steps: seq<Step>, step: Step, limits: Limits)
    ensures Run(Fresh(), steps + [step], limits) == Apply(Run(Fresh(), steps, limits), step, limits)
  {
    assert (steps + [step])[..|steps|] == steps;
  }

  lemma OrphanedByFirst(limits: Limits)
    ensures var m := Message("1", "a", 0, true);
            Run(Fresh(), [Enqueue("1", "a", true, 0, 0, Cancelled), TaskEnds(0, Abandoned, 1)], limits)
              == Conversation([], [m], Some(0), None, false, 0, [Batch([m], 0, Abandoned)], [m], 1)
  {
    var m := Message("1", "a", 0, true);
    var s1, s2 := Enqueue("1", "a", true, 0, 0, Cancelled), TaskEnds(0, Abandoned, 1);
    var nothing: seq<Message>, none: seq<Batch>, first: seq<Step> := [], [], [];
    assert nothing + [m] == [m] && none + [Batch([m], 0, InProgress)] == [Batch([m], 0, InProgress)];
    assert first + [s1] == [s1] && [s1] + [s2] == [s1, s2];
    RunSnoc([], s1, limits);
    RunSnoc([s1], s2, limits);
    var c1 := Run(Fresh(), [s1], limits);
    assert c1 == Conversation([], [m], Some(0), None, false, 0, [Batch([m], 0, InProgress)], [m], 0);
  }

  lemma OverwrittenBySecond(c: Conversation, m: Message, limits: Limits)
    requires c == Conversation([], [m], Some(0), None, false, 0, [Batch([m], 0, Abandoned)], [m], 1)
    ensures var n := Message("2", "b", 2, true);
            var d := Apply(c, Enqueue("2", "b", true, 2, 2, Cancelled), limits);
            && d.arrived == [m, n] && d.inFlight == [n] && d.pending == []
            && d.batches == [Batch([m], 0, Abandoned), Batch([n], 2, InProgress)]
  {
    var n := Message("2", "b", 2, true);
    var nothing: seq<Message> := [];
    assert nothing + [n] == [n] && [m] + [n] == [m, n];
    assert CancelActive(c, Cancelled) == c;
  }

  /** Two location shares, the first one's callback raising CancelledError unasked: its message is gone. */
  lemma AbandonedBatchIsLost(limits: Limits)
    ensures var steps := [Enqueue("1", "a", true, 0, 0, Cancelled), TaskEnds(0, Abandoned, 1),
                          Enqueue("2", "b", true, 2, 2, Cancelled)];
            var c := Run(Fresh(), steps, limits);
            && !Conserved(c) && |c.arrived| == 2
            && c.arrived[0] !in Consumed(c.batches) + c.inFlight + c.pending
  {
    var s1, s2, s3 := Enqueue("1", "a", true, 0, 0, Cancelled), TaskEnds(0, Abandoned, 1),
                      Enqueue("2", "b", true, 2, 2, Cancelled);
    OrphanedByFirst(limits);
    RunSnoc([s1, s2], s3, limits);
    assert [s1, s2] + [s3] == [s1, s2, s3];
    OverwrittenBySecond(Run(Fresh(), [s1, s2], limits), Message("1", "a", 0, true), limits);
    var c := Run(Fresh(), [s1, s2, s3], limits);
    assert c.batches[..1][..0] == [] && Consumed(c.batches[..1]) == [];
    assert Consumed(c.batches) == [];
  }

  /** `deadline` is the debounce time after `settled`, or the end of the window if that is earlier. */
  predicate IsDeadline(deadline: int, settled: int, start: int, limits: Limits) {
    && deadline <= settled + limits.debounce && deadline <= start + limits.window
    && (deadline == settled + limits.debounce || deadline == start + limits.window)
  }

  // ---------------------------------------------------------------- the mutable objects

  class CancellationToken {
    var cancelled: bool
    var reason: Option<string>

    constructor ()
      ensures !cancelled && reason == None
    {
      cancelled, reason := false, None;
    }

    method Cancel(why: string)
      modifies this
      ensures cancelled && reason == Some(why)
    {
      reason := Some(why);
      cancelled := true;
    }

    method Reset()
      modifies this
      ensures !cancelled && reason == None
    {
      cancelled := false;
      reason := None;
    }
  }

  class ConversationState {
    var pending: seq<Message>
    var inFlight: seq<Message>
    var active: Option<nat>
    var timer: Option<int>
    var firstMessageAt: int
    const token: CancellationToken
    /** The processing tasks created so far, with their fates. */
    var batches: seq<Batch>
    var now: int
    ghost var arrived: seq<Message>

    ghost function Value(): Conversation
      reads this, token
    {
      Conversation(pending, inFlight, active, timer, token.cancelled, firstMessageAt, batches, arrived, now)
    }

    constructor ()
      ensures Value() == Fresh() && fresh(token)
    {
      pending, inFlight, active, timer, firstMessageAt := [], [], None, None, 0;
      batches, now, arrived := [], 0, [];
      token := new CancellationToken();
    }

    /** A processing task gets to its end. */
    method FinishTask(batch: nat, fate: Fate)
      requires batch < |batches|
      modifies this
      ensures Value() == EndTask(old(Value()), batch, fate)
    {
      batches := batches[batch := batches[batch].(fate := fate)];
      if fate.Succeeded? || fate.Failed? {
        inFlight := [];
      }
    }

    method ProcessPending(at: int)
      modifies this, token
      ensures Value() == ProcessNow(old(Value()), at)
    {
      if pending == [] {
        return;
      }
      var messagesToProcess := pending;
      inFlight := messagesToProcess;
      pending := [];
      firstMessageAt := at;
      token.Reset();
      active := Some(|batches|);
      batches := batches + [Batch(messagesToProcess, at, InProgress)];
    }

    method ResetDebounceTimer(at: int, limits: Limits)
      modifies this, token
      ensures Value() == StartDebounceTimer(old(Value()), at, limits)
      ensures 0 < limits.debounce && at < old(firstMessageAt) + limits.window ==>
                && timer.Some? && IsDeadline(timer.value, at, firstMessageAt, limits)
                && pending == old(pending) && batches == old(batches)
    {
      var elapsed := at - firstMessageAt;
      var wait := Min(limits.debounce, Max(0, limits.window - elapsed));
      timer := None;
      if wait <= 0 {
        ProcessPending(at);
      } else {
        timer := Some(at + wait);
      }
    }

    /** `outcome` is how the running task ends once it is cancelled, and `settle` the time when that is known. */
    method EnqueueMessage(id: string, content: string, isLocationShare: bool, at: int, settle: int, outcome: Fate,
                          limits: Limits)
      requires Enabled(Value(), Enqueue(id, content, isLocationShare, at, settle, outcome))
      modifies this, token
      ensures Value() ==
              Next(old(Value()), Enqueue(id, content, isLocationShare, at, settle, outcome), limits)
    {
      var message := Message(id, content, at, isLocationShare);
      if active.Some? && active.value < |batches| && batches[active.value].fate.InProgress? {
        token.Cancel("New message received");
        FinishTask(active.value, outcome);
        pending := inFlight + pending;
        inFlight := [];
        active := None;
      }
      if pending == [] && active.None? {
        firstMessageAt := at;
      }
      pending := pending + [message];
      arrived := arrived + [message];
      now := settle;
      if isLocationShare {
        ProcessPending(settle);
      } else {
        ResetDebounceTimer(settle, limits);
      }
    }

    method DebounceTimerFired(at: int)
      requires Enabled(Value(), TimerFires(at))
      modifies this, token
      ensures forall limits: Limits :: Value() == Next(old(Value()), TimerFires(at), limits)
    {
      timer := None;
      now := at;
      ProcessPending(at);
    }
  }
}
