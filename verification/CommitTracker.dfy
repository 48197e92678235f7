/**
 * The per-partition tracker of the keyed Kafka consumer: which offsets are in flight, which are
 * completed, how far the broker position may move, and when the partition is paused.
 * `Tracker` is the tracker's value and the functions on it are its specification;
 * `PartitionTracker` is the mutable object, proved against them.
 */
module CommitTracker {
  import opened Wrappers

  datatype FlowLimits = FlowLimits(maxGap: int, resumeAt: int)

  datatype Tracker = Tracker(
    initialized: bool,
    lastCommitted: int,
    completed: set<int>,
    inflight: set<int>,
    maxSeen: int,
    paused: bool,
    generation: int)

  function Fresh(): Tracker {
    Tracker(false, -1, {}, {}, -1, false, 0)
  }

  // ---------------------------------------------------------------- contiguous runs

  /** `end` closes the longest run of completed offsets that starts right after `last`. */
  ghost predicate IsRunEnd(done: set<int>, last: int, end: int) {
    && last <= end
    && (forall o :: last < o <= end ==> o in done)
    && end + 1 !in done
  }

  function RunEnd(done: set<int>, last: int): (end: int)
    ensures IsRunEnd(done, last, end)
    decreases done
  {
    if last + 1 in done then RunEnd(done - {last + 1}, last + 1) else last
  }

  lemma RunEndUnique(done: set<int>, last: int, e: int, f: int)
    requires IsRunEnd(done, last, e) && IsRunEnd(done, last, f)
    ensures e == f
  {
    assert e < f ==> e + 1 in done;
    assert f < e ==> f + 1 in done;
  }

  /** Only completed offsets above the starting point matter, and any point of the run may serve as start. */
  lemma RunEndFrom(done: set<int>, base: int, done': set<int>, last: int)
    requires base <= last <= RunEnd(done, base)
    requires forall o :: last < o ==> (o in done <==> o in done')
    ensures RunEnd(done', last) == RunEnd(done, base)
  {
    RunEndUnique(done', last, RunEnd(done', last), RunEnd(done, base));
  }

  lemma RunEndMonotone(done: set<int>, done': set<int>, last: int)
    requires forall o :: last < o && o in done ==> o in done'
    ensures RunEnd(done, last) <= RunEnd(done', last)
  {
    var e, f := RunEnd(done, last), RunEnd(done', last);
    assert f < e ==> f + 1 in done;
  }

  // ---------------------------------------------------------------- tracker operations

  function Register(t: Tracker, offset: int): Tracker {
    t.(lastCommitted := if t.initialized then t.lastCommitted else offset - 1,
       initialized := true,
       inflight := t.inflight + {offset},
       maxSeen := if t.maxSeen < offset then offset else t.maxSeen)
  }

  /** The broker position a commit would ask for, if any is due. */
  function CommitRequest(t: Tracker, owned: bool): Option<int> {
    var end := RunEnd(t.completed, t.lastCommitted);
    if owned && t.lastCommitted < end then Some(end + 1) else None
  }

  function Above(done: set<int>, last: int, end: int): set<int> {
    set o | o in done && !(last < o <= end)
  }

  /** A commit that fails, or is not due, leaves the tracker as it was. */
  function Advance(t: Tracker, owned: bool, acked: bool): Tracker {
    var end := RunEnd(t.completed, t.lastCommitted);
    if owned && t.lastCommitted < end && acked
    then t.(lastCommitted := end, completed := Above(t.completed, t.lastCommitted, end))
    else t
  }

  function GapDepth(t: Tracker): int {
    if t.maxSeen < t.lastCommitted then 0 else t.maxSeen - t.lastCommitted
  }

  function AdjustFlow(t: Tracker, owned: bool, callOk: bool, limits: FlowLimits): Tracker {
    if !owned then t
    else if GapDepth(t) > limits.maxGap && !t.paused then t.(paused := callOk)
    else if t.paused && GapDepth(t) <= limits.resumeAt then t.(paused := !callOk)
    else t
  }

  function Finalize(t: Tracker, offset: int, generation: int, handled: bool,
                    owned: bool, acked: bool, callOk: bool, limits: FlowLimits): Tracker {
    var u := t.(inflight := t.inflight - {offset});
    if generation != u.generation then u
    else
      var v := if handled then u.(completed := u.completed + {offset}) else u;
      AdjustFlow(Advance(v, owned, acked), owned, callOk, limits)
  }

  /** The commit a finalize asks for. */
  function FinalizeRequest(t: Tracker, offset: int, generation: int, handled: bool, owned: bool): Option<int> {
    if generation != t.generation then None
    else CommitRequest(t.(completed := if handled then t.completed + {offset} else t.completed), owned)
  }

  /** Rebalance (`resetPause`) or authentication restart: tasks of older generations become stale. */
  function Bump(t: Tracker, resetPause: bool): Tracker {
    t.(generation := t.generation + 1, paused := t.paused && !resetPause)
  }

  // ---------------------------------------------------------------- the two watermarks

  /** After every adjustment the pause flag and the gap agree with the two watermarks. */
  lemma FlowRespectsWatermarks(t: Tracker, limits: FlowLimits)
    ensures var r := AdjustFlow(t, true, true, limits);
            && (r.paused ==> GapDepth(r) > limits.resumeAt || GapDepth(r) > limits.maxGap)
            && (!r.paused ==> GapDepth(r) <= limits.maxGap || GapDepth(r) <= limits.resumeAt)
            && (limits.resumeAt <= limits.maxGap ==>
                  (r.paused ==> GapDepth(r) > limits.resumeAt) && (!r.paused ==> GapDepth(r) <= limits.maxGap))
            && (limits.resumeAt < GapDepth(t) <= limits.maxGap ==> r == t)
    ensures AdjustFlow(t, true, false, limits) == t && AdjustFlow(t, false, true, limits) == t
  {
  }

  // ---------------------------------------------------------------- the mutable object

  class PartitionTracker {
    var initialized: bool
    var lastCommitted: int
    var completed: set<int>
    var inflight: set<int>
    var maxSeen: int
    var paused: bool
    var generation: int

    function Value(): Tracker
      reads this
    {
      Tracker(initialized, lastCommitted, completed, inflight, maxSeen, paused, generation)
    }

    constructor ()
      ensures Value() == Fresh()
    {
      initialized, lastCommitted, completed, inflight := false, -1, {}, {};
      maxSeen, paused, generation := -1, false, 0;
    }

    /** Returns the generation the new task belongs to. */
    method RegisterOffset(offset: int) returns (taskGeneration: int)
      modifies this
      ensures Value() == Register(old(Value()), offset) && taskGeneration == generation
    {
      if !initialized {
        lastCommitted := offset - 1;
        initialized := true;
      }
      inflight := inflight + {offset};
      if maxSeen < offset {
        maxSeen := offset;
      }
      taskGeneration := generation;
    }

    /** `acked` is the broker's answer, used only when a commit is sent. */
    method AdvanceCommit(owned: bool, acked: bool) returns (request: Option<int>)
      modifies this
      ensures Value() == Advance(old(Value()), owned, acked)
      ensures request == CommitRequest(old(Value()), owned)
    {
      if !owned {
        return None;
      }
      var candidate := lastCommitted + 1;
      while candidate in completed
        invariant lastCommitted < candidate
        invariant forall o :: lastCommitted < o < candidate ==> o in completed
        decreases set o | o in completed && candidate <= o
      {
        ghost var before := set o | o in completed && candidate <= o;
        assert candidate in before;
        candidate := candidate + 1;
      }
      var newLast := candidate - 1;
      RunEndUnique(completed, lastCommitted, newLast, RunEnd(completed, lastCommitted));
      if newLast <= lastCommitted {
        return None;
      }
      request := Some(newLast + 1);
      if !acked {
        return;
      }
      var oldLast, was := lastCommitted, completed;
      lastCommitted := newLast;
      for doneOffset := oldLast + 1 to newLast + 1
        invariant completed == Above(was, oldLast, doneOffset - 1)
        invariant Value() == old(Value()).(lastCommitted := newLast, completed := completed)
      {
        completed := completed - {doneOffset};
      }
    }

    method AdjustPartitionFlow(owned: bool, callOk: bool, limits: FlowLimits)
      modifies this
      ensures Value() == AdjustFlow(old(Value()), owned, callOk, limits)
    {
      if !owned {
        return;
      }
      var gapDepth := GapDepth(Value());
      if gapDepth > limits.maxGap && !paused {
        if callOk {
          paused := true;
        }
        return;
      }
      if paused && gapDepth <= limits.resumeAt {
        if callOk {
          paused := false;
        }
      }
    }

    method FinalizeTask(offset: int, taskGeneration: int, handled: bool,
                        owned: bool, acked: bool, callOk: bool, limits: FlowLimits)
      returns (request: Option<int>)
      modifies this
      ensures Value() == Finalize(old(Value()), offset, taskGeneration, handled, owned, acked, callOk, limits)
      ensures request == FinalizeRequest(old(Value()), offset, taskGeneration, handled, owned)
    {
      inflight := inflight - {offset};
      if taskGeneration != generation {
        return None;
      }
      if handled {
        completed := completed + {offset};
      }
      request := AdvanceCommit(owned, acked);
      AdjustPartitionFlow(owned, callOk, limits);
    }

    method BumpGeneration(resetPause: bool)
      modifies this
      ensures Value() == Bump(old(Value()), resetPause)
    {
      generation := generation + 1;
      if resetPause {
        paused := false;
      }
    }
  }
}
