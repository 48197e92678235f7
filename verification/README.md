# Message pipeline model

A Dafny model of the stateful parts of the messaging backend, with proofs of what they keep: the keyed Kafka consumer,
the message coalescer, the reply chunker, the value-history editor, the flow guards of the execution agent and the
event-date extractor. `dafny verify dfyconfig.toml` checks everything.

## What is modelled

**Kafka consumer** (`CommitTracker`, `CommitHistory`, `KeyLocks`, `LockTimes`, `PartitionSlot`, `RecordByRecord`,
`Backpressure`, `Cluster`, `ConversationOrder`, `SoleConsumer`, `FrozenPartition`, `RetryLadder`, `Idempotency`).
`CommitTracker` is the per-partition tracker as a value with its operations, and `PartitionTracker` the mutable object
proved equal to it. `CommitHistory` states the commit position of every run as a function of what has completed.
`KeyLocks` is the per-key lock dictionary with idle eviction, `LockTimes` the same with its time stamps.
`PartitionSlot` is everything one process keeps about one topic-partition, as a state machine whose steps are the code
between two suspension points. `Cluster` runs any number of such processes against one broker: logs are sequences,
each partition has one committed position, and rebalances, authentication restarts, lost commits, lost commit answers,
half-failed publishes and crashes may happen at any moment, two owners of one partition included. A run is any list of
steps; a step that is not enabled changes nothing. `RecordByRecord` holds the building blocks of concrete runs.

**Message coalescer** (`Coalescer`, `CoalescerTiming`, `CombinedText`). One conversation, at the points where its lock
is free. How a callback ends is arbitrary: success, failure, cancelled, or success although cancelled.

**Reply chunker** (`BreakIndex`, `Chunker`, `Text`). The splitting loop is proved for every way of choosing a break
position that stays in range, and the break search is proved to stay in range.

**Value history** (`ValueHistory`). The two-pass edit engine and the applied plan it returns.

**Execution agent** (`ReActGuards`). The bounded reasoning loop; what the language model asks for and what tools do is
an arbitrary list of turns.

**Event dates** (`Calendar`, `EventDates`). Year, weekday and weekend inference over the proleptic Gregorian calendar,
and the list of events built from any list of matches.

`Wrappers` and `StableSort` hold the option type, two integer functions and Python's stable sort; `Text` holds
`str.strip`.

## What the code does that its documentation does not say

- The repository README (line 105) says events that exhaust 6 attempts are parked and nothing is dropped. An always
  failing event is handled 7 times (`AlwaysFailingEvent`), and with the shipped handler a failed event is never
  processed again while its idempotency key lives: the key is set before processing and its retried copies carry the
  same key (`FailedEventIsNotRetried`, `DefaultLadderFitsInTtl`). `NoEventLost` therefore speaks of the handler
  returning.
- asyncio releases a lock before the first waiter runs. An idle eviction in that gap deletes a lock somebody queues
  on; two events of one key are then handled at once and out of order (`EvictionKeepsExclusionIff`). For the shipped
  eviction this takes a full table, a key that nobody looked up for longer than the idle time, and a finalize that has
  to wait for the tracker lock before it stamps the key, or a waiter that takes longer than the idle time to wake. One
  lookup in the gap is enough (`ContendedReleaseBreaksExclusion`, `PromptRunsExclude`).
- An offset whose failure could not be published, or whose finalize came from an older generation, freezes the commit
  position until it is read again. Reading on above it pauses the partition, whatever the marks, and a pause above the
  resume mark lasts until a rebalance or such a re-read (`UnpublishedFailureFreezes`, `UnpublishedFailurePauses`,
  `StaleFinalizeFreezes`, `GapTaskSticksIff`, `StuckPartitionStaysPaused`). The same happens when a partition returns
  after another process committed past this process' tracker, because trackers survive rebalances
  (`TakenOverPartitionSticks`, `ReassignedPartitionSticks`).
- A record that a rebalance makes the client read again before it finishes completes twice, and its offset then stays
  in `completed` for good (`CompletedIsTheRestIff`, `ReadTwiceRepeats`).
- A callback that raises `CancelledError` on its own leaves its messages in the in-flight list of a finished batch;
  the next batch overwrites them; nothing else loses a message (`ConservedIffNeverOverwrites`, `StepConservesIff`,
  `AbandonedBatchIsLost`).
- `active_task` stays set after a batch, so the time of the last dispatch counts as the start of the next batch: a
  first message after a quiet window is not debounced (`DebounceSkippedIff`, `DebounceIsSkipped`).
- A creation time of blanks only is stored as the empty text (`NormalizeIdempotentIff`).
- Blocked matching calls are logged under the tool's name and shut purpose suggestions off
  (`BlockedMatchShutsOffSuggestions`); a tool that raises gets the previous tool's result stored under its name, and a
  successful invitation whose data is no mapping is not stored (`StoredResultsAreSuccessesIff`, `StaleResultIsStored`,
  `StaleInvitationNeedsMapping`, `InvitationWithoutMappingIsNotStored`).
- A date without a year never means last year, so a January mail cannot mention last December (`FirstInWindowIff`,
  `JanuaryMailSkipsLastDecember`); a year written `00` or `0000` counts as no year; on a Sunday "this weekend" is six
  days ahead (`ResolveWeekend`).

## Model

| member | source | states |
|---|---|---|
| CommitHistory.PositionRefinesRun | app/integrations/kafka_pipeline.py:576-604 | over every run of a topic-partition, with registrations, rebalances, restarts, re-reads, unowned and stale finalizes: the position lies on the longest run of completed offsets from the first one registered, and every finalize or drain whose commit goes through puts it at the end of that run |
| CommitHistory.CompletedIsTheRestIff | app/integrations/kafka_pipeline.py:601-604 | above the position `completed` is exactly the completed offsets, and it holds nothing else if and only if no offset was completed again below the position |
| CommitHistory.FinishingOrderIsIrrelevant | app/integrations/kafka_pipeline.py:666-682 | two runs with the same first offset and the same completed offsets end at the same position with the same offsets above it, in whatever order these finished |
| CommitHistory.RepeatsNeedReread | app/integrations/kafka_pipeline.py:601-604 | without a re-read, rebalances and restarts included, no offset is completed again, so `completed` is the rest |
| CommitHistory.ReadTwiceRepeats | app/integrations/kafka_pipeline.py:601-604 | from every position: a record read twice, because a rebalance rewinds the client, and finalized twice is a repeat, and over every later run its offset stays in `completed` |
| CommitTracker.FlowRespectsWatermarks | app/integrations/kafka_pipeline.py:542-574 | after an adjustment paused implies a gap above the resume mark, unpaused a gap of at most the pause mark, and between the marks nothing changes |
| CommitTracker.PartitionTracker.RegisterOffset | app/integrations/kafka_pipeline.py:641-647 | the first offset seen fixes the starting position; the new task gets the current generation |
| CommitTracker.PartitionTracker.AdvanceCommit | app/integrations/kafka_pipeline.py:576-604 | the loop asks for the end of the contiguous run plus one; a failed commit leaves the whole tracker unchanged |
| CommitTracker.PartitionTracker.AdjustPartitionFlow | app/integrations/kafka_pipeline.py:542-574 | the pause flag follows the two watermarks and changes only when the client call succeeds |
| CommitTracker.PartitionTracker.FinalizeTask | app/integrations/kafka_pipeline.py:666-683 | a stale generation only leaves the in-flight set; otherwise complete, commit, adjust, in this order |
| CommitTracker.PartitionTracker.BumpGeneration | app/integrations/kafka_pipeline.py:480-492 | only the generation and the pause flag change on a rebalance; the rest of the tracker survives |
| KeyLocks.EvictionKeepsExclusionIff | app/integrations/kafka_pipeline.py:526-535 | an eviction keeps one holder per key over every later run, none of whose own evictions hits a lock being handed over, if and only if it hits none itself |
| KeyLocks.ExclusionAndOrder | app/integrations/kafka_pipeline.py:514-535 | over every run whose evictions spare locks being handed over: one holder per key, and entry in delivery order per key |
| LockTimes.PromptRunsExclude | app/integrations/kafka_pipeline.py:514-535 | the shipped eviction with its time stamps, for every table size and idle time: one holder per key and delivery order, if no release waits for the tracker lock before its stamp and every waiter wakes within the idle time |
| LockTimes.ContendedReleaseBreaksExclusion | app/integrations/kafka_pipeline.py:666-669 | a timed run with a full table, a handler longer than the idle time, a stamp that waits for the tracker lock and one lookup before the waiter wakes: two holders of one key, and later an event that overtakes an earlier one of its key |
| LockTimes.LookupIsEnabled | app/integrations/kafka_pipeline.py:514-535 | a timed lookup with the shipped eviction can always be taken, so no run drops one silently |
| KeyLocks.KeyLockTable.EvictIdle | app/integrations/kafka_pipeline.py:526-535 | drops exactly the keys unused since the cut-off whose lock is not locked, from both dictionaries |
| KeyLocks.KeyLockTable.GetKeyLock | app/integrations/kafka_pipeline.py:514-524 | an existing lock is returned as it is; a new one may first evict, when the dictionary is full |
| PartitionSlot.KeyedExclusionAndOrder | app/integrations/kafka_pipeline.py:613-683 | over every run of one topic-partition whose evictions spare locks being handed over, rebalances, restarts and re-reads included: one event per key in its handler, and entry in delivery order |
| PartitionSlot.EveryDeliveryAccounted | app/integrations/kafka_pipeline.py:405-421 | over every run of one topic-partition every record handed out is waiting in order, has a task, or has finished, exactly one of these: rebalances, restarts and re-reads drop and repeat none |
| PartitionSlot.StaleIffRebalanced | app/integrations/kafka_pipeline.py:670-682 | over every run a finalize changes nothing but the in-flight set and asks for no commit if a rebalance or restart happened since its record registered; otherwise a handled record is completed |
| PartitionSlot.FinalizeCommitsAndAdjusts | app/integrations/kafka_pipeline.py:679-682 | in every state a current finalize of an assigned partition asks for the end of the run of completed offsets, moves there if and only if the commit was acknowledged, and leaves the pause flag as the marks demand, or alone when the client refuses |
| PartitionSlot.UnownedNeverCommits | app/integrations/kafka_pipeline.py:542-580 | in every state of a partition that is not assigned no step asks for a commit, moves the position or drops a completed offset, and only a rebalance touches the pause flag |
| RecordByRecord.FailsOver | app/integrations/kafka_pipeline.py:661-682 | a record whose handler raises and whose copy is published completes its offset as if the handler had returned |
| ConversationOrder.ConversationsTakeTurns | app/integrations/kafka_pipeline.py:501-512 | over every run of the cluster whose evictions spare locks being handed over: of two events of one conversation, or one record read twice, a process never handles both at once; when one is in its handler all earlier ones are finished; tasks start in delivery order; and two tasks queue on one lock only if they are of one conversation or the same record |
| ConversationOrder.ConversationByFields | app/integrations/kafka_pipeline.py:501-512 | two events are of one conversation if and only if their trimmed partition keys are equal and visible, or, where there is no partition key, their trimmed ids |
| PartitionSlot.StuckForever | app/integrations/kafka_pipeline.py:576-599 | a position whose next offset has no carrier never moves again and never asks for a commit unless that offset is read again |
| PartitionSlot.GapTaskSticksIff | app/integrations/kafka_pipeline.py:666-683 | the last carrier of the next offset leaves the position stuck if and only if its failure was not published or its generation is stale |
| Backpressure.CommitGapBounded | app/integrations/kafka_pipeline.py:391-421 | under a stable assignment the consumer is never further ahead of its position than the pause mark (or the resume mark, if that is larger) plus in-flight limit plus batch size |
| Backpressure.InflightIsUnfinished | app/integrations/kafka_pipeline.py:645-668 | under a stable assignment `inflight` is exactly the offsets between registration and finalize |
| Backpressure.PauseNeedsOutstandingWork | app/integrations/kafka_pipeline.py:542-574 | if every failure is published, then once the last task has finished and committed nothing is uncommitted and the partition is not paused |
| Backpressure.StuckPartitionStaysPaused | app/integrations/kafka_pipeline.py:542-574 | a partition paused over a stuck position stays paused until a rebalance or a re-read of the missing offset |
| Backpressure.StepStaysPausedIff | app/integrations/kafka_pipeline.py:542-574 | a step ends such a pause if and only if it is a rebalance or a re-read of the missing offset or of one before it; a restart does not |
| Cluster.StepKeepsInv | app/integrations/kafka_pipeline.py:613-683 | every step of any process, and every crash, keeps: committed means undecodable, handled or copied, at the broker and in every tracker |
| Cluster.FollowCopies | app/integrations/kafka_pipeline.py:721-757 | following failure copies ends, with the attempts left as the measure, at an uncommitted record, a handled one, or the dead-letter queue |
| Cluster.NoEventLost | app/integrations/kafka_pipeline.py:576-683 | over every run with any number of processes: each offset below a committed position is settled, each copy is what a failure of that record's own handler calls for, each event ever appended is still uncommitted somewhere, handled, or in the dead-letter queue |
| Cluster.HistoriesAreTrue | app/integrations/kafka_pipeline.py:655-664 | over every run a record counts as handled, or as failed with a verdict, if and only if some handler of it returned, or raised with that verdict |
| Cluster.FailedEventIsReplaced | app/integrations/kafka_pipeline.py:721-757 | in every state of the cluster: a handler that raises and whose copy gets published ends as handled, and one event is appended to one log: the same message with one attempt more, in the dead-letter queue if and only if not retryable or out of attempts, else in the 30s, 2m or 10m topic with 30, 120 or 600 seconds of delay |
| Cluster.PublishesReplacement | app/integrations/kafka_pipeline.py:731-750 | each publication of a failing task is exactly that event, also when it is published again, and changes no other log and no position |
| Cluster.TaskKeepsVerdict | app/integrations/kafka_pipeline.py:661-664 | a failing task carries the verdict its own handler raised with |
| SoleConsumer.PositionNeverRetreats | app/integrations/kafka_pipeline.py:576-604 | with one process at a time on each partition the broker position is monotone, through crashes, restarts on the same or another process, rebalances, lost commits and lost answers |
| SoleConsumer.RereadReachesTheGap | app/integrations/kafka_pipeline.py:426-457 | over the same runs a re-read from the broker position never leaves a live process' tracker stuck |
| FrozenPartition.UnpublishedFailureFreezes | app/integrations/kafka_pipeline.py:664-682 | a run from the start in which a failure cannot be published, with a second record in its handler, and the position is stuck, paused if both marks are below 2 |
| FrozenPartition.UnpublishedFailurePauses | app/integrations/kafka_pipeline.py:542-574 | for every pause and resume mark: a stable run from the start with one unpublished failure ends paused over a stuck position with nothing on its way, and, unless the resume mark reaches that gap, stays so over every later run without a rebalance or a re-read |
| FrozenPartition.StaleFinalizeFreezes | app/integrations/kafka_pipeline.py:670-679 | a run from the start in which a handled record finalizes after a rebalance and the position is stuck |
| FrozenPartition.TakenOverPartitionSticks | app/integrations/kafka_pipeline.py:470-492 | a run of two processes, from an empty cluster: the first loses the partition, the second commits its record, and when the first gets it back its position is stuck |
| FrozenPartition.ReassignedPartitionSticks | app/integrations/kafka_pipeline.py:470-492 | in every state of the cluster an emptied partition that comes back is stuck if and only if the broker position is past its missing offset, and then over every later run without a crash or a re-read of that offset |
| FrozenPartition.StepKeepsStuckIff | app/integrations/kafka_pipeline.py:576-599 | a step of the cluster ends a stuck position if and only if its process crashes or reads the missing offset again |
| FrozenPartition.FrozenUntilRescued | app/integrations/kafka_pipeline.py:576-599 | over every later run of the whole cluster a stuck position does not move and its process asks for no commit, until such a step |
| RetryLadder.LadderShape | app/integrations/kafka_pipeline.py:721-757 | every publication replaces the event of the failed run before it: the same message with one attempt more, and the literal topic and delay of that attempt; it goes to the dead-letter queue exactly on a ValueError that is no transport error or out of attempts, and that is the last one |
| RetryLadder.AlwaysFailingEvent | app/integrations/kafka_pipeline.py:731-750 | an event that always fails retryably is published max_attempts times to the retry topics 30s, 2m, 10m, 10m, ... and then once to the dead-letter queue with attempt max_attempts + 1 |
| RetryLadder.AlwaysFailingDelay | app/integrations/kafka_pipeline.py:760-762 | its delays add up to 30 + 120 + 600 (n - 2) seconds |
| Idempotency.KeyInjective | app/integrations/kafka_pipeline.py:193-201 | on non-blank message ids the idempotency keys are equal if and only if the trimmed ids are; development and production never share a key |
| Idempotency.EventKeyIsKeyOfId | app/integrations/kafka_pipeline.py:204-207 | with or without a message id, the producer's key is the one of the event's id, made-up ids included, and the one the key builder makes of the raw message id |
| Idempotency.ProducedKeyInjective | app/integrations/kafka_pipeline.py:193-207 | events of the producer are never dropped as incomplete, and two have one key if and only if they have one id |
| Idempotency.RedisClient.CheckIdempotency | app/utils/redis_client.py:108-131 | set-if-absent with expiry; an error lets the event pass whether or not the command took effect |
| Idempotency.RedisClient.HandleKafkaEvent | app/main.py:609-622 | incomplete events and duplicates are dropped; the key is set before the event is processed |
| Idempotency.StoreRemembersClaims | app/utils/redis_client.py:108-126 | the store holds exactly the keys claimed less than a time-to-live ago |
| Idempotency.SkippedIffRecentlyClaimed | app/main.py:619-622 | with Redis up an event is skipped if and only if its key was claimed less than a time-to-live ago |
| Idempotency.AtMostOncePerTtl | app/main.py:613-622 | with Redis up two processings of one key are at least a time-to-live apart |
| Idempotency.SkippedOnlyIfProcessed | app/main.py:619-622 | whatever Redis does, a skipped event's key was processed within the last time-to-live |
| Idempotency.SkippedIdWasProcessed | app/main.py:609-622 | with events of the producer, message id or not, a skipped event's own id was processed within the last time-to-live |
| Idempotency.MessageProcessedOnce | app/main.py:609-647 | with events of the producer and Redis up, two processings within a time-to-live belong to different event ids |
| Idempotency.FailedEventIsNotRetried | app/main.py:613-622 | the retried copy of an event whose processing raised reaches the coalescer if and only if Redis is unreachable |
| Idempotency.DefaultLadderFitsInTtl | app/config.py:45-56 | the whole default ladder, 2550 seconds, lies within the default key lifetime |
| Coalescer.ProgressSafety | app/services/message_coalescer.py:141-195 | in every reachable state one callback at most, with nothing pending and a live token; pending implies an armed timer; a cancelled batch is a strict prefix of the next |
| Coalescer.StepConservesIff | app/services/message_coalescer.py:250-302 | a step loses messages if and only if an orphaned batch sits in the in-flight list and the step must dispatch: a due timer with messages waiting, a location share, or no debounce time or window left |
| Coalescer.ConservedIffNeverOverwrites | app/services/message_coalescer.py:116-302 | over every run, whatever the outcomes and cancellations: finished batches, in-flight and pending messages together are the arrivals in order if and only if no step had to dispatch over an orphaned batch, and as many are missing as those batches held |
| Coalescer.NoMessageLost | app/services/message_coalescer.py:116-195 | in particular nothing is lost unless a callback raises CancelledError unasked |
| Coalescer.AbandonedBatchIsLost | app/services/message_coalescer.py:292-295 | two location shares of which the first is in no batch that finished, not in flight and not pending |
| Coalescer.ConversationState.EnqueueMessage | app/services/message_coalescer.py:116-195 | cancels running work, takes its messages back in front, appends the message and dispatches or arms the timer: the step the run lemmas speak of |
| Coalescer.ConversationState.ResetDebounceTimer | app/services/message_coalescer.py:197-227 | arms the timer for exactly the debounce time from now, or for the end of the window if that is earlier, and dispatches when none is left |
| Coalescer.ConversationState.ProcessPending | app/services/message_coalescer.py:250-302 | moves pending to in-flight, clears the token, starts one task; nothing when nothing is pending |
| Coalescer.ConversationState.DebounceTimerFired | app/services/message_coalescer.py:229-244 | dispatches what is pending |
| CoalescerTiming.DispatchedWithinWindow | app/services/message_coalescer.py:197-227 | every message is first dispatched within the window of its arrival plus the time a cancelled task takes to end, and a cancelled batch within that time of its canceller |
| CoalescerTiming.OnTimeGoesOn | app/services/message_coalescer.py:207-227 | the timing assumptions never run out: every on-time run goes on with the timer of its waiting messages or with a next message |
| CoalescerTiming.WaitingMessageHasTimer | app/services/message_coalescer.py:207-227 | a waiting message has a timer that is due within the window of its arrival |
| CoalescerTiming.TimerIsExact | app/services/message_coalescer.py:197-227 | over every run, on time or late: while messages wait, the timer is due exactly one debounce time after the latest message settled, or at the end of the window if that is earlier; the window counts from the first waiting message or from the batch that came before |
| CoalescerTiming.EnqueueDispatchesIff | app/services/message_coalescer.py:170-195 | in every reachable state a message starts a batch at once if and only if it is a location share or no debounce time or window is left; the batch ends with it; otherwise it waits last, with that timer |
| CoalescerTiming.TimerDispatchesIff | app/services/message_coalescer.py:229-244 | in every reachable state a timer starts a batch if and only if messages wait: all of them, and never before the debounce time has passed since the latest one or the window is used up |
| CoalescerTiming.DebounceSkippedIff | app/services/message_coalescer.py:170-173 | a message that finds nothing pending or running is dispatched at once if and only if a batch has run and the last dispatch is a window or more ago |
| CoalescerTiming.DebounceIsSkipped | app/services/message_coalescer.py:170-173 | for every positive debounce time and window: a run on time from the start in which a first text after a quiet window starts its batch at once |
| CombinedText.CombineParts | app/services/message_coalescer.py:320-330 | the loop with its `seen` set keeps the first occurrence of each visible content |
| CombinedText.CombineMessages | app/services/message_coalescer.py:307-330 | the combined text is the distinct visible contents of the messages in stable time order, joined by newlines |
| CombinedText.JoinIsLines | app/services/message_coalescer.py:330-330 | cut at the line starts, the joined text gives every part back, each followed by a newline but the last, and nothing else |
| CombinedText.BatchPartsAreFirstArrivals | app/services/message_coalescer.py:307-330 | the parts of every dispatched batch are its distinct visible contents, each once, in order of first arrival |
| CombinedText.CancelledPartsArePrefix | app/services/message_coalescer.py:158-166 | the parts of a cancelled batch are a prefix of those of its re-dispatch, and its text is the beginning of that text, up to a newline |
| StableSort.SortIsStable | app/services/message_coalescer.py:318-318 | the sort used by key keeps the order of equal keys |
| BreakIndex.SearchFindsBest | app/utils/message_chunker.py:35-59 | a window search finds a boundary of the best kind the window has, or nothing when it has none |
| BreakIndex.BreakIsBest | app/utils/message_chunker.py:61-69 | the break is a best boundary of the late window, else of the whole window, else a hard cut |
| BreakIndex.SearchIsLastOfFirst | app/utils/message_chunker.py:35-59 | the search finds the last occurrence of the most preferred separator of the window, and nothing if and only if it has none |
| BreakIndex.BreakIsLastOfFirst | app/utils/message_chunker.py:61-69 | the break is such an occurrence in the late window, else in the whole window, else a hard cut |
| BreakIndex.BreakInRange | app/utils/message_chunker.py:16-69 | the break of an over-long text lies in 1..max_length and splits a word only if the window has no space or newline |
| Chunker.TruncateShape | app/utils/message_chunker.py:72-86 | a text that fits is only trimmed; otherwise a trimmed beginning of it and an ellipsis, within the limit |
| Chunker.TruncateShortens | app/utils/message_chunker.py:72-86 | that beginning is what stands before the break index that leaves room for the ellipsis, up to white space |
| Chunker.SplitOnce | app/utils/message_chunker.py:128-133 | a split gives a non-empty piece that fits and a shorter non-empty rest, dropping only white space, so the empty-piece fallbacks are dead |
| Chunker.SplitLoop | app/utils/message_chunker.py:121-141 | the loop ends; each of its chunks but the last stands before the break of what is left, and the last holds all of that, or its beginning when the number of chunks is used up |
| Chunker.ChunkBounds | app/utils/message_chunker.py:89-141 | every chunk has 1..max_length characters and trimmed ends; there are at most max_chunks |
| Chunker.ChunkingIsLossless | app/utils/message_chunker.py:121-141 | without max_chunks the trimmed message is the chunks with white-space gaps in between |
| Chunker.ChunkingKeepsInk | app/utils/message_chunker.py:89-141 | every visible character of the message is in the chunks, once and in order |
| Chunker.LimitChangesOnlyTheLast | app/utils/message_chunker.py:108-139 | a limit of two or more changes nothing or only the last chunk it allows |
| Chunker.BudgetAgrees | app/utils/message_chunker.py:136-139 | that last chunk is the unlimited one followed by the remaining text, cut to fit |
| Chunker.ChunksEndAtBreaks | app/utils/message_chunker.py:108-141 | for every message and limit the texts left after each chunk: a chunk that is followed by another is the trimmed part before the break of its text, the next text is the trimmed part after it, and the last chunk is all of its text or, when the limit is reached, its shortened beginning |
| Chunker.ChunkMessage | app/utils/message_chunker.py:89-141 | the shipped chunker has the bounds, loses no visible character without a limit, ends every chunk but the last at the break index of what is left, and splits no word unless the next max_length + 1 characters hold no space or newline |
| ValueHistory.IndexOfDecimal | app/utils/demand_value_history.py:83-88 | a number and its decimal text name the same index; negative numbers and texts other than digits name none |
| ValueHistory.ApplyValueHistoryEdits | app/utils/demand_value_history.py:98-170 | the imperative engine computes the two passes, and its result meets the specification of EditsRefineSpec |
| ValueHistory.EditsRefineSpec | app/utils/demand_value_history.py:121-170 | the result is the indices no edit removes, in order, each with its last accepted text and its own creation time, then the visible texts of the append edits, or the visible fallback if no edit can be carried out, each with the trimmed creation time of the call |
| ValueHistory.AppliedPlanIsExact | app/utils/demand_value_history.py:104-170 | the returned plan names what was done: cleared, untouched, fallback appended, or exactly the removals and replacements carried out, in order, followed by the appended texts; a replacement after its removal is dropped |
| ValueHistory.NormalizeKeepsVisible | app/utils/demand_value_history.py:12-32 | normalizing gives one entry for each dictionary or plain text with a visible text, in order, with the trimmed text and the trimmed creation time if that is visible, and nothing else |
| ValueHistory.EditedLength | app/utils/demand_value_history.py:149-164 | its length is items minus distinct removed indices plus appends |
| ValueHistory.NormalizeIdempotentIff | app/utils/demand_value_history.py:12-32 | normalizing an edited history changes nothing if and only if nothing was appended or the creation time is absent or visible |
| ValueHistory.ReplayReproduces | app/utils/demand_value_history.py:98-170 | for every history, plan and fallback, replaying the returned plan on the same history gives the same result |
| ReActGuards.GuardsHold | app/agents/execution/agent.py:125-496 | over every run the guards hold of every log entry and each iteration logs at most one |
| ReActGuards.SafeRun | app/agents/execution/agent.py:200-425 | an executed call: no matching in the purpose flow, no invitation after a successful match, no suggestion after matching without success, CASE A matching with visible demand |
| ReActGuards.CaseAMatching | app/agents/execution/agent.py:256-300 | a CASE A matching call is blocked if and only if neither it nor the instruction has a visible demand; its own visible demand is kept |
| ReActGuards.GuardAllowsIff | app/agents/execution/agent.py:208-425 | a call of any tool is allowed if and only if the rule of that tool holds of the log and the instruction, and then only a missing demand or answer is filled into its parameters |
| ReActGuards.DemandFromPurpose | app/agents/execution/agent.py:505-518 | the demand is the trimmed selected purpose, else the single confirmed one |
| ReActGuards.DemandFromText | app/agents/execution/agent.py:505-518 | without a visible purpose it is the trimmed instruction, unless that is one of the two control words in any case |
| ReActGuards.CallIsLogged | app/agents/execution/agent.py:200-461 | each call is logged once: blocked if and only if its rule forbids it, not found if and only if it is allowed and there is no such tool, else executed |
| ReActGuards.OtherTurnsLogNothing | app/agents/execution/agent.py:130-198 | an iteration that raises early or ends the loop changes neither the log nor the stored results |
| ReActGuards.EndsAtFirstTerminal | app/agents/execution/agent.py:144-198 | a run goes on until its first terminal action, which decides whether it ends completed or waiting |
| ReActGuards.BlockedMatchShutsOffSuggestions | app/agents/execution/agent.py:210-236 | in the purpose flow one matching call, itself blocked, blocks every later suggestion |
| ReActGuards.StepKeepsStoredIff | app/agents/execution/agent.py:446-481 | from stored results that are exactly the successes an iteration keeps them so unless and only unless a tool not stored yet executes and what is stored for it differs from what is logged |
| ReActGuards.MismatchCases | app/agents/execution/agent.py:446-481 | the two ways to differ: a failed call over a storable success in the result variable, and a successful invitation whose data is no mapping |
| ReActGuards.StoredResultsAreSuccessesIff | app/agents/execution/agent.py:446-481 | over every run the stored results are exactly those of the tools that succeeded if and only if the tools with a stale store and those with an unstored success are the same, leaving aside tools with a stored success |
| ReActGuards.StoredResultsAreSuccesses | app/agents/execution/agent.py:463-481 | when every tool returns, they are if and only if no invitation succeeded, or one did with data that is a mapping |
| ReActGuards.StaleResultIsStored | app/agents/execution/agent.py:446-481 | a tool that raises after a success of another tool is stored as if it had succeeded; for an invitation that success must hold a mapping |
| ReActGuards.StaleInvitationNeedsMapping | app/agents/tools/networking.py:1967-1971 | a lookup that succeeds without data, then an invitation that raises: nothing is stored for the invitation and the stored results are the successes |
| ReActGuards.InvitationWithoutMappingIsNotStored | app/agents/execution/agent.py:466-481 | an invitation that succeeds with data that is no mapping is logged as a success and not stored |
| ReActGuards.ExecuteTask | app/agents/execution/agent.py:125-496 | the loop stops at a terminal action or after max_iterations and computes the run the lemmas speak of |
| Calendar.OrdinalCountsDays | app/utils/event_date_extractor.py:289-291 | the day after a valid date has the next day number, over month ends, year ends and leap days |
| Calendar.OrdinalOrder | app/utils/event_date_extractor.py:289-289 | day numbers order valid dates as year, month and day do, and determine them |
| Calendar.DayAfterHasNumber | app/utils/event_date_extractor.py:289-291 | counting day by day from the first of January of year 1 gives, for every number up to the last day of 9999, the valid date with that number |
| Calendar.OrdinalRoundTrip | app/utils/event_date_extractor.py:289-289 | a valid date has a number in range, and counting that far gives the date back |
| Calendar.WeekdaysCycle | app/utils/event_date_extractor.py:310-310 | the weekdays follow each other without a break from a Monday, the first day of the calendar |
| EventDates.YearInference | app/utils/event_date_extractor.py:279-295 | a date without a year keeps month and day, lies from 60 days before to less than 366 days after, and is the first such date of the reference year or later |
| EventDates.FirstInWindowIff | app/utils/event_date_extractor.py:287-295 | it is the first such date not more than 60 days past if and only if last year's is further back |
| EventDates.JanuaryMailSkipsLastDecember | app/utils/event_date_extractor.py:287-295 | on 10 January 2026 a mail's December 20 is the one of 2026, though that of 2025 is 21 days past |
| EventDates.DroppedIff | app/utils/event_date_extractor.py:282-293 | a mention is dropped if and only if the day does not exist this year, or it is stale and it is the 29th of February or the calendar ends; it raises if and only if the day exists and 60 days ago does not |
| EventDates.ResolveWeekday | app/utils/event_date_extractor.py:298-324 | a plain weekday is the one among the next seven days; with "next" the one of the following calendar week |
| EventDates.ResolveWeekend | app/utils/event_date_extractor.py:327-339 | the Saturday among today and the six days after it, with "next" a week later; of this week except on Sundays |
| EventDates.InferredIsNear | app/utils/event_date_extractor.py:142-263 | every match written without a year resolves to 60 days before to less than 366 days after the reference |
| EventDates.FindAllDates | app/utils/event_date_extractor.py:142-263 | the loop collects the mentions; a date outside the calendar's range raises |
| EventDates.MentionsAreTheFound | app/utils/event_date_extractor.py:142-263 | the mentions are exactly the matches that mean a time, in their order, each with its time and place |
| EventDates.WrittenYears | app/utils/event_date_extractor.py:172-200 | a date written with its year means that day or nothing; two-digit years of numeric dates count from 2000 |
| EventDates.UnwrittenYears | app/utils/event_date_extractor.py:147-192 | a date without a year, or with the year 0, means the midnight of the inferred day |
| EventDates.RelativeDays | app/utils/event_date_extractor.py:220-263 | today, tomorrow and in n days are that many days from the reference time, at its time of day; more than 365 days are dropped and days past the calendar raise |
| EventDates.ExtractEventDates | app/utils/event_date_extractor.py:81-139 | the loop with its `seen_dates` set and the sort compute the first mention of each day in time order |
| EventDates.EventsByDay | app/utils/event_date_extractor.py:105-139 | the events lie on strictly increasing days, are exactly the first mentions of their days, and miss no mentioned day |

## Left out

- The non-keyed consumer mode (app/integrations/kafka_pipeline.py:616-636): it commits record by record, so a later commit can pass an earlier failure and the no-loss result does not apply.
- `auto_offset_reset` without a committed position, compacted or transactional gaps in offsets, and commits by other programs: logs are gapless and start at offset 0, and only the modelled processes commit.
- asyncio itself: code between two suspension points is one step. Finalizing is one step including its commit, since the tracker lock is held throughout, and pending lock waiters wake in order.
- The broker client, security, topic creation and shutdown; a shut-down process is a crash, and the drain on shutdown is a step of its own.
- Event fields that no decision reads (`last_error`, `retry_from_topic`, media, trace ids), and the fields `chat_guid` and `from_number` that stand in for a missing partition key, which the model folds into the key.
- The text `offset:topic:partition:offset` that keys a record without routing key: the model keeps such keys apart from all routing keys.
- Content hashes and attempt or delay fields that do not parse as numbers: a hash is any text with visible ends, and decoded events are well formed.
- Backpressure.CommitGapBounded: assumes no rebalance or restart, pause and resume calls that succeed, and a client that returns nothing for a paused partition.
- PartitionSlot.KeyedExclusionAndOrder: assumes that no eviction hits a lock in hand-over, because otherwise it is false (`ContendedReleaseBreaksExclusion`).
- CoalescerTiming.DispatchedWithinWindow: adds the time a cancelled batch takes to end, since the lock is held until it has, and counts from the moment a message gets the conversation's lock, so not the time it queues for that lock behind other messages.
- CoalescerTiming.WaitingMessageHasTimer: counts from the moment a message gets the conversation's lock, for the same reason.
- Several conversations at once in the coalescer: they share nothing. Its `shutdown`, which discards pending work on purpose, and the rest of the combined payload are not modelled either.
- Clocks are integers that do not run backwards; `CoalescerTiming` also assumes that timers fire when due and states the time a cancelled task takes as a parameter.
- BreakIndex.MinIndex: computes 55 percent of the limit in integers, where the code uses a floating-point product that may round differently; the chunking results hold for any start of the window.
- Unicode tables beyond white space: `lower()` is modelled for ASCII letters, which decides the two control words exactly, and `isdigit()` for ASCII digits, where the code raises on other digits that `int` rejects.
- ReActGuards.GuardsHold: takes the flow classification and the decline intent of an instruction as arbitrary inputs, since they come from a language model and from word patterns.
- End-to-end loss: the handler returns once the coalescer holds the message in memory, so a crash after the commit loses it. `Cluster.NoEventLost` ends at the handler and `Coalescer` starts there.
- The texts kept by the `sent_to_names` and `_sent_invitations` bookkeeping of invitations, whose effect on what is stored is modelled; tools that return no `ToolResult`; and the difference between the statuses `complete` and `failed` after a parse error.
- A reference time with a time zone, which makes the comparison with a date of the text raise; the reference is assumed naive, which app/agents/tools/email_zep_sync.py ensures only for texts.
- The regular expressions that find dates, and the event keyword near a date; matches are an arbitrary list.
- Prompts, language-model and vendor clients, database access, rendering and scripts: input and output only.
