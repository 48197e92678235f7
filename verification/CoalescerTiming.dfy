/**
 * How long a message may wait in the coalescer: with a monotone clock and timers that fire on time, it is first
 * dispatched within the window of its arrival however many messages follow, plus the time a cancelled batch takes to
 * end. A message arrives when it gets the conversation's lock.
 */
module CoalescerTiming {
  import opened Wrappers
  import opened Coalescer

  function TimeOf(step: Step): int {
    step.at
  }

  /** Nothing overtakes a due timer that has messages to dispatch, and a cancelled batch ends within `latency`. */
  predicate OnTime(c: Conversation, step: Step, latency: int) {
    && (c.pending != [] && c.timer.Some? ==> TimeOf(step) <= c.timer.value)
    && (step.Enqueue? ==> step.settle <= step.at + latency)
  }

  predicate OnTimeRun(steps: seq<Step>, limits: Limits, latency: int) {
    steps == [] ||
    (OnTimeRun(steps[..|steps| - 1], limits, latency) &&
     OnTime(Run(Fresh(), steps[..|steps| - 1], limits), steps[|steps| - 1], latency))
  }

  /** How many leading messages of batch i were taken over from a cancelled batch. */
  function Inherited(batches: seq<Batch>, i: nat): nat
    requires i < |batches|
  {
    if i > 0 && batches[i - 1].fate.Cancelled? then |batches[i - 1].messages| else 0
  }

  /** Every message new in batch i was dispatched in time. */
  ghost predicate BatchInTime(batches: seq<Batch>, i: nat, bound: int)
    requires i < |batches|
  {
    forall k :: Inherited(batches, i) <= k < |batches[i].messages| ==>
      batches[i].messages[k].timestamp <= batches[i].startedAt <= batches[i].messages[k].timestamp + bound
  }

  ghost predicate AllInTime(batches: seq<Batch>, bound: int) {
    forall i :: 0 <= i < |batches| ==> BatchInTime(batches, i, bound)
  }

  ghost predicate TimingInv(c: Conversation, limits: Limits, latency: int) {
    && c.firstMessageAt <= c.now
    && (c.pending != [] && c.timer.Some? ==> c.now <= c.timer.value <= c.firstMessageAt + limits.window)
    && (forall k :: |Restored(c)| <= k < |c.pending| ==> c.firstMessageAt <= c.pending[k].timestamp <= c.now)
    && AllInTime(c.batches, limits.window + latency)
  }

  lemma EndKeepsBatches(c: Conversation, batch: nat, fate: Fate, bound: int)
    requires Shape(c) && batch < |c.batches| && c.batches[batch].fate.InProgress?
    requires AllInTime(c.batches, bound)
    ensures AllInTime(EndTask(c, batch, fate).batches, bound)
  {
    assert batch == |c.batches| - 1;
    var d := EndTask(c, batch, fate);
    forall i | 0 <= i < |d.batches| ensures BatchInTime(d.batches, i, bound) {
      assert BatchInTime(c.batches, i, bound);
      assert Inherited(d.batches, i) == Inherited(c.batches, i);
    }
  }

  /** A dispatch at a time close enough to every message that is new in it. */
  lemma ProcessKeepsTiming(c: Conversation, at: int, limits: Limits, latency: int)
    requires AllInTime(c.batches, limits.window + latency)
    requires c.pending != [] && at == c.now
    requires forall k :: |Restored(c)| <= k < |c.pending| ==>
               c.pending[k].timestamp <= at <= c.pending[k].timestamp + limits.window + latency
    ensures TimingInv(ProcessNow(c, at), limits, latency)
  {
    var d, bound := ProcessNow(c, at), limits.window + latency;
    forall i | 0 <= i < |d.batches| ensures BatchInTime(d.batches, i, bound) {
      if i < |c.batches| {
        assert BatchInTime(c.batches, i, bound);
        assert Inherited(d.batches, i) == Inherited(c.batches, i);
      } else {
        assert Inherited(d.batches, i) == |Restored(c)|;
      }
    }
  }

  /** The state in which a new message has been added and the timer is about to be set. */
  lemma AddedTiming(c: Conversation, step: Step, limits: Limits, latency: int)
    requires Shape(c) && TimingInv(c, limits, latency) && step.Enqueue? && Enabled(c, step)
    requires OnTime(c, step, latency) && 0 <= limits.window && 0 <= latency
    ensures var m := Message(step.id, step.content, step.at, step.isLocationShare);
            var e := AddMessage(CancelActive(c, step.outcome), m).(now := step.settle);
            && e.firstMessageAt <= step.at
            && AllInTime(e.batches, limits.window + latency)
            && (forall k :: |Restored(e)| <= k < |e.pending| ==>
                  && e.firstMessageAt <= e.pending[k].timestamp <= e.now
                  && e.now <= e.pending[k].timestamp + limits.window + latency)
  {
    var d := CancelActive(c, step.outcome);
    var m := Message(step.id, step.content, step.at, step.isLocationShare);
    var e := AddMessage(d, m).(now := step.settle);
    if Running(c) {
      EndKeepsBatches(c, c.active.value, step.outcome, limits.window + latency);
      assert d.pending == Restored(d);
      assert Restored(e) == d.pending && e.pending == d.pending + [m];
    } else {
      assert d == c && Restored(e) == Restored(c) && e.pending == c.pending + [m];
      if c.pending != [] {
        assert c.timer.Some?;
      }
    }
  }

  lemma StartKeepsTiming(e: Conversation, isLocationShare: bool, limits: Limits, latency: int)
    requires AllInTime(e.batches, limits.window + latency) && e.pending != [] && e.firstMessageAt <= e.now
    requires forall k :: |Restored(e)| <= k < |e.pending| ==>
               && e.firstMessageAt <= e.pending[k].timestamp <= e.now
               && e.now <= e.pending[k].timestamp + limits.window + latency
    ensures TimingInv(if isLocationShare then ProcessNow(e, e.now) else StartDebounceTimer(e, e.now, limits),
                      limits, latency)
  {
    var f := e.(timer := None);
    assert Restored(f) == Restored(e);
    ProcessKeepsTiming(e, e.now, limits, latency);
    ProcessKeepsTiming(f, e.now, limits, latency);
    var armed := e.(timer := Some(e.now + Wait(e, e.now, limits)));
    assert Restored(armed) == Restored(e);
  }

  lemma TimerKeepsTiming(c: Conversation, at: int, limits: Limits, latency: int)
    requires Shape(c) && TimingInv(c, limits, latency) && Enabled(c, TimerFires(at))
    requires 0 <= latency && (c.pending != [] ==> at <= c.timer.value)
    ensures TimingInv(ProcessNow(c.(timer := None, now := at), at), limits, latency)
  {
    var d := c.(timer := None, now := at);
    assert Restored(d) == Restored(c);
    if c.pending != [] {
      ProcessKeepsTiming(d, at, limits, latency);
    }
  }

  lemma StepKeepsTiming(c: Conversation, step: Step, limits: Limits, latency: int)
    requires Shape(c) && TimingInv(c, limits, latency) && OnTime(c, step, latency)
    requires 0 <= limits.window && 0 <= latency
    ensures TimingInv(Apply(c, step, limits), limits, latency)
  {
    if Enabled(c, step) {
      match step
      case Enqueue(id, content, isLocationShare, at, settle, outcome) =>
        AddedTiming(c, step, limits, latency);
        var e := AddMessage(CancelActive(c, outcome), Message(id, content, at, isLocationShare)).(now := settle);
        StartKeepsTiming(e, isLocationShare, limits, latency);
      case TimerFires(at) => TimerKeepsTiming(c, at, limits, latency);
      case TaskEnds(batch, fate, at) =>
        EndKeepsBatches(c, batch, fate, limits.window + latency);
        assert c.pending == [];
    }
  }

  lemma {:induction false} RunKeepsTiming(steps: seq<Step>, limits: Limits, latency: int)
    requires OnTimeRun(steps, limits, latency) && 0 <= limits.window && 0 <= latency
    ensures TimingInv(Run(Fresh(), steps, limits), limits, latency)
  {
    if steps != [] {
      RunKeepsTiming(steps[..|steps| - 1], limits, latency);
      ProgressSafety(steps[..|steps| - 1], limits);
      StepKeepsTiming(Run(Fresh(), steps[..|steps| - 1], limits), steps[|steps| - 1], limits, latency);
    }
  }

  /**
   * Every batch starts within the window, plus the cancellation latency, of each message it is the first to carry;
   * and if it takes over a cancelled batch, within that time of the message that cancelled it, which follows the
   * messages taken over.
   */
  lemma DispatchedWithinWindow(steps: seq<Step>, limits: Limits, latency: int, i: nat)
    requires OnTimeRun(steps, limits, latency) && 0 <= limits.window && 0 <= latency
    requires i < |Run(Fresh(), steps, limits).batches|
    ensures var bs := Run(Fresh(), steps, limits).batches;
            && BatchInTime(bs, i, limits.window + latency)
            && (i > 0 && bs[i - 1].fate.Cancelled? ==>
                  && bs[i - 1].messages < bs[i].messages
                  && var canceller := bs[i].messages[|bs[i - 1].messages|];
                  bs[i].startedAt <= canceller.timestamp + limits.window + latency)
  {
    RunKeepsTiming(steps, limits, latency);
    ProgressSafety(steps, limits);
    ChainInTime(Run(Fresh(), steps, limits).batches, i, limits.window + latency);
  }

  lemma ChainInTime(bs: seq<Batch>, i: nat, bound: int)
    requires Chained(bs) && AllInTime(bs, bound) && i < |bs|
    ensures BatchInTime(bs, i, bound)
    ensures i > 0 && bs[i - 1].fate.Cancelled? ==>
              && bs[i - 1].messages < bs[i].messages
              && bs[i].startedAt <= bs[i].messages[|bs[i - 1].messages|].timestamp + bound
  {
    assert BatchInTime(bs, i, bound);
  }

  /** The assumptions never run out: every such run goes on with its waiting messages' timer or with a next message. */
  lemma OnTimeGoesOn(steps: seq<Step>, limits: Limits, latency: int) returns (step: Step)
    requires OnTimeRun(steps, limits, latency) && 0 <= limits.window && 0 <= latency
    ensures var c := Run(Fresh(), steps, limits);
            && Enabled(c, step) && OnTime(c, step, latency)
            && (if c.pending != [] then step.TimerFires? else step.Enqueue?)
  {
    RunKeepsTiming(steps, limits, latency);
    ProgressSafety(steps, limits);
    var c := Run(Fresh(), steps, limits);
    step := if c.pending != [] then TimerFires(c.timer.value) else Enqueue("", "", false, c.now, c.now, Cancelled);
  }

  /** A message still waiting has an armed timer that fires within the window of its arrival. */
  lemma WaitingMessageHasTimer(steps: seq<Step>, limits: Limits, latency: int, k: nat)
    requires OnTimeRun(steps, limits, latency) && 0 <= limits.window && 0 <= latency
    requires var c := Run(Fresh(), steps, limits); |Restored(c)| <= k < |c.pending|
    ensures var c := Run(Fresh(), steps, limits);
            c.timer.Some? && c.timer.value <= c.pending[k].timestamp + limits.window
  {
    RunKeepsTiming(steps, limits, latency);
    ProgressSafety(steps, limits);
  }

  // ---------------------------------------------------------------- how long the code waits

  /** When the latest message got its answer: armed timer or started batch. */
  function LastSettled(steps: seq<Step>, limits: Limits): int {
    if steps == [] then 0
    else
      var init, step := steps[..|steps| - 1], steps[|steps| - 1];
      if step.Enqueue? && Enabled(Run(Fresh(), init, limits), step) then step.settle else LastSettled(init, limits)
  }

  /** The last batch is still taken for the beginning of what comes next: its task is remembered, or was cancelled. */
  predicate Follows(c: Conversation) {
    c.batches != [] && (c.active.Some? || c.batches[|c.batches| - 1].fate.Cancelled?)
  }

  /** The window of the waiting messages counts from here. */
  function WindowStart(c: Conversation): int {
    if Follows(c) then c.batches[|c.batches| - 1].startedAt
    else if c.pending != [] then c.pending[0].timestamp
    else c.now
  }

  /** The same for a message that arrives now; a running batch ends as the step says. */
  function WindowStartOf(c: Conversation, step: Step): int
    requires step.Enqueue?
  {
    if Running(c) && !step.outcome.Cancelled? then step.at
    else if Follows(c) then c.batches[|c.batches| - 1].startedAt
    else if c.pending != [] then c.pending[0].timestamp
    else step.at
  }

  /** A waiting message has a timer that is due exactly then, and a task that is no longer wanted has been told so. */
  ghost predicate WaitsExactly(c: Conversation, settled: int, limits: Limits) {
    && (Follows(c) || c.pending != [] ==> c.firstMessageAt == WindowStart(c))
    && (c.pending != [] ==> c.timer.Some? && IsDeadline(c.timer.value, settled, WindowStart(c), limits))
    && (c.batches != [] && c.active.None? ==> c.tokenCancelled)
  }

  /** A message has been added and nothing runs; what is left is to arm the timer or to start a batch. */
  lemma AddedStart(c: Conversation, step: Step, settled: int, limits: Limits)
    requires Shape(c) && WaitsExactly(c, settled, limits) && step.Enqueue? && Enabled(c, step)
    ensures var m := Message(step.id, step.content, step.at, step.isLocationShare);
            var e := AddMessage(CancelActive(c, step.outcome), m).(now := step.settle);
            && e.pending != [] && e.pending[|e.pending| - 1] == m && |e.batches| == |c.batches|
            && e.firstMessageAt == WindowStart(e) == WindowStartOf(c, step)
            && (e.batches != [] && e.active.None? ==> e.tokenCancelled)
  {
    var d := CancelActive(c, step.outcome);
    if Running(c) {
      assert step.outcome.Cancelled? ==> d.pending == c.batches[|c.batches| - 1].messages;
    } else {
      assert d == c;
    }
  }

  lemma AddedWaits(e: Conversation, isLocationShare: bool, limits: Limits)
    requires e.pending != [] && e.firstMessageAt == WindowStart(e)
    requires e.batches != [] && e.active.None? ==> e.tokenCancelled
    ensures var d := if isLocationShare then ProcessNow(e, e.now) else StartDebounceTimer(e, e.now, limits);
            && WaitsExactly(d, e.now, limits)
            && (|e.batches| < |d.batches| <==>
                  isLocationShare || limits.debounce <= 0 || WindowStart(e) + limits.window <= e.now)
            && (|d.batches| == |e.batches| ==> d.pending == e.pending && WindowStart(d) == WindowStart(e))
            && (|e.batches| < |d.batches| ==>
                  d.batches == e.batches + [Batch(e.pending, e.now, InProgress)] && d.pending == [])
  {
  }

  lemma StepWaitsExactly(c: Conversation, step: Step, settled: int, limits: Limits)
    requires Shape(c) && WaitsExactly(c, settled, limits) && Enabled(c, step)
    ensures WaitsExactly(Next(c, step, limits), if step.Enqueue? then step.settle else settled, limits)
  {
    match step
    case Enqueue(id, content, isLocationShare, at, settle, outcome) =>
      AddedStart(c, step, settled, limits);
      AddedWaits(AddMessage(CancelActive(c, outcome), Message(id, content, at, isLocationShare)).(now := settle),
                 isLocationShare, limits);
    case TimerFires(at) =>
    case TaskEnds(_, _, _) =>
  }

  /**
   * Over every run, on time or late: while messages wait, the timer is due exactly one debounce time after the latest
   * message settled, or at the end of the window if that is earlier.
   */
  lemma {:induction false} TimerIsExact(steps: seq<Step>, limits: Limits)
    ensures WaitsExactly(Run(Fresh(), steps, limits), LastSettled(steps, limits), limits)
  {
    if steps != [] {
      var init := steps[..|steps| - 1];
      var c := Run(Fresh(), init, limits);
      TimerIsExact(init, limits);
      ProgressSafety(init, limits);
      if Enabled(c, steps[|steps| - 1]) {
        StepWaitsExactly(c, steps[|steps| - 1], LastSettled(init, limits), limits);
      }
    }
  }

  /** What becomes of a message: it ends a batch that starts now, or it waits last with an armed timer. */
  ghost predicate Answered(c: Conversation, d: Conversation, step: Step, start: int, limits: Limits)
    requires step.Enqueue?
  {
    var m := Message(step.id, step.content, step.at, step.isLocationShare);
    if step.isLocationShare || limits.debounce <= 0 || start + limits.window <= step.settle then
      && |d.batches| == |c.batches| + 1 && d.pending == []
      && var b := d.batches[|d.batches| - 1];
      && b.startedAt == step.settle && b.messages != [] && b.messages[|b.messages| - 1] == m
    else
      && |d.batches| == |c.batches|
      && d.pending != [] && d.pending[|d.pending| - 1] == m
      && d.timer.Some? && IsDeadline(d.timer.value, step.settle, start, limits)
  }

  lemma AddedIsAnswered(c: Conversation, e: Conversation, step: Step, start: int, limits: Limits)
    requires step.Enqueue? && e.now == step.settle && |e.batches| == |c.batches|
    requires e.pending != [] && e.firstMessageAt == WindowStart(e) == start
    requires e.pending[|e.pending| - 1] == Message(step.id, step.content, step.at, step.isLocationShare)
    requires e.batches != [] && e.active.None? ==> e.tokenCancelled
    ensures var d := if step.isLocationShare then ProcessNow(e, e.now) else StartDebounceTimer(e, e.now, limits);
            Answered(c, d, step, start, limits)
  {
    AddedWaits(e, step.isLocationShare, limits);
  }

  /**
   * In every reachable state a message starts a batch at once exactly if it is a location share, or no debounce time
   * or no window is left; the batch ends with it and takes everything that waits. Otherwise it is left waiting last,
   * and the timer is due after the debounce time or at the end of the window.
   */
  lemma EnqueueDispatchesIff(steps: seq<Step>, step: Step, limits: Limits)
    requires step.Enqueue? && Enabled(Run(Fresh(), steps, limits), step)
    ensures var c := Run(Fresh(), steps, limits);
            Answered(c, Next(c, step, limits), step, WindowStartOf(c, step), limits)
  {
    var c := Run(Fresh(), steps, limits);
    TimerIsExact(steps, limits);
    ProgressSafety(steps, limits);
    AddedStart(c, step, LastSettled(steps, limits), limits);
    var m := Message(step.id, step.content, step.at, step.isLocationShare);
    AddedIsAnswered(c, AddMessage(CancelActive(c, step.outcome), m).(now := step.settle), step,
                    WindowStartOf(c, step), limits);
  }

  /**
   * In every reachable state a timer starts a batch exactly if messages wait: all of them, and not before the latest
   * one has waited for the debounce time or the window is used up.
   */
  lemma TimerDispatchesIff(steps: seq<Step>, at: int, limits: Limits)
    requires Enabled(Run(Fresh(), steps, limits), TimerFires(at))
    ensures var c := Run(Fresh(), steps, limits);
            var d := Next(c, TimerFires(at), limits);
            && (StartsBatch(c, TimerFires(at), limits) <==> c.pending != [])
            && d.pending == [] && d.timer == None
            && (c.pending != [] ==>
                  && d.batches == c.batches + [Batch(c.pending, at, InProgress)]
                  && (LastSettled(steps, limits) + limits.debounce <= at || WindowStart(c) + limits.window <= at))
  {
    TimerIsExact(steps, limits);
  }

  // ---------------------------------------------------------------- the debounce the code does not do

  /**
   * A message that finds nothing pending and nothing running is debounced - except that the time of the last dispatch
   * is still taken for the start of its batch once any batch has run: then it starts a batch at once exactly when that
   * dispatch is a window or more ago.
   */
  lemma DebounceSkippedIff(c: Conversation, step: Step, limits: Limits)
    requires Shape(c) && c.pending == [] && !Running(c) && step.Enqueue? && Enabled(c, step) && !step.isLocationShare
    requires 0 < limits.debounce && step.settle < step.at + limits.window
    ensures StartsBatch(c, step, limits) <==> c.active.Some? && c.firstMessageAt + limits.window <= step.settle
  {
    assert CancelActive(c, step.outcome) == c;
  }

  /** What the second message below finds: a finished batch, dispatched at time 0. */
  lemma QuietAfterFirst(limits: Limits)
    ensures var m := Message("1", "a", 0, true);
            Run(Fresh(), [Enqueue("1", "a", true, 0, 0, Cancelled), TaskEnds(0, Succeeded, 0)], limits)
              == Conversation([], [], Some(0), None, false, 0, [Batch([m], 0, Succeeded)], [m], 0)
  {
    var m := Message("1", "a", 0, true);
    var s1, s2 := Enqueue("1", "a", true, 0, 0, Cancelled), TaskEnds(0, Succeeded, 0);
    var nothing: seq<Message>, none: seq<Batch>, first: seq<Step> := [], [], [];
    assert nothing + [m] == [m] && none + [Batch([m], 0, InProgress)] == [Batch([m], 0, InProgress)];
    assert first + [s1] == [s1] && [s1] + [s2] == [s1, s2];
    RunSnoc([], s1, limits);
    RunSnoc([s1], s2, limits);
    assert Run(Fresh(), [s1], limits)
           == Conversation([], [m], Some(0), None, false, 0, [Batch([m], 0, InProgress)], [m], 0);
  }

  /**
   * For every debounce time and window: a location share that is processed at once, then silence for a window, then a
   * text. The text is dispatched without any debounce.
   */
  lemma DebounceIsSkipped(limits: Limits)
    requires 0 < limits.debounce && 0 < limits.window
    ensures var steps := [Enqueue("1", "a", true, 0, 0, Cancelled), TaskEnds(0, Succeeded, 0)];
            var text := Enqueue("2", "b", false, limits.window, limits.window, Cancelled);
            && StartsBatch(Run(Fresh(), steps, limits), text, limits)
            && OnTimeRun(steps + [text], limits, 0)
  {
    var s1, s2 := Enqueue("1", "a", true, 0, 0, Cancelled), TaskEnds(0, Succeeded, 0);
    var text := Enqueue("2", "b", false, limits.window, limits.window, Cancelled);
    QuietAfterFirst(limits);
    ProgressSafety([s1, s2], limits);
    DebounceSkippedIff(Run(Fresh(), [s1, s2], limits), text, limits);
    assert [s1, s2][..1] == [s1] && [s1][..0] == [] && ([s1, s2] + [text])[..2] == [s1, s2];
    RunSnoc([], s1, limits);
    assert [] + [s1] == [s1];
    assert OnTimeRun([], limits, 0) && OnTimeRun([s1], limits, 0);
  }
}
