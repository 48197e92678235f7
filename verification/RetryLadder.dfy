/** Where a failed event goes next: three retry topics with growing delays, then the dead-letter queue. */
module RetryLadder {

  datatype Topic = Inbound | Retry30s | Retry2m | Retry10m | Dlq

  /** `retryAfter` is the delay a consumer sleeps before handling the copy. */
  datatype Event = Event(id: string, dedupKey: string, partitionKey: string, content: string,
                         attempt: int, retryAfter: int)

  /** A handler exception, by the two class tests the code makes. */
  datatype Failure = Failure(isTransportError: bool, isValueError: bool)

  datatype Publication = Publication(topic: Topic, event: Event)

  predicate Retryable(f: Failure) {
    f.isTransportError || !f.isValueError
  }

  function Rung(attempt: int): (r: nat)
    ensures r < 3
  {
    if attempt <= 1 then 0 else if attempt == 2 then 1 else 2
  }

  function RetryDelaySeconds(attempt: int): int {
    [30, 120, 600][Rung(attempt)]
  }

  function RetryTopic(attempt: int): Topic {
    [Retry30s, Retry2m, Retry10m][Rung(attempt)]
  }

  /** The copy a failed event is replaced by, and the topic it is sent to. */
  function HandleFailure(e: Event, retryable: bool, maxAttempts: int): Publication {
    if retryable && e.attempt < maxAttempts then
      Publication(RetryTopic(e.attempt + 1),
                  e.(attempt := e.attempt + 1, retryAfter := RetryDelaySeconds(e.attempt + 1)))
    else
      Publication(Dlq, e.(attempt := e.attempt + 1, retryAfter := 0))
  }

  predicate SameMessage(e: Event, f: Event) {
    e.id == f.id && e.dedupKey == f.dedupKey && e.partitionKey == f.partitionKey && e.content == f.content
  }

  /** What a failure calls for: the same message with one more attempt, and the topic and delay that go with it. */
  predicate Replaces(p: Publication, e: Event, retryable: bool, maxAttempts: int) {
    && SameMessage(p.event, e)
    && p.event.attempt == e.attempt + 1
    && if !retryable || maxAttempts <= e.attempt then p.topic == Dlq && p.event.retryAfter == 0
       else if e.attempt <= 0 then p.topic == Retry30s && p.event.retryAfter == 30
       else if e.attempt == 1 then p.topic == Retry2m && p.event.retryAfter == 120
       else p.topic == Retry10m && p.event.retryAfter == 600
  }

  /** There is exactly one such publication, and it is the one the failure handler makes. */
  lemma FailureIsReplaced(e: Event, retryable: bool, maxAttempts: int, p: Publication)
    ensures Replaces(p, e, retryable, maxAttempts) <==> p == HandleFailure(e, retryable, maxAttempts)
  {
  }

  /** How many more retries an event may still get. */
  function RetriesLeft(e: Event, maxAttempts: int): nat {
    if e.attempt < maxAttempts then maxAttempts - e.attempt else 0
  }

  /** The publications of an event whose successive handler runs fail as listed; a shorter list ends in a success. */
  function Publications(e: Event, failures: seq<Failure>, maxAttempts: int): seq<Publication>
    decreases failures
  {
    if failures == [] then []
    else
      var p := HandleFailure(e, Retryable(failures[0]), maxAttempts);
      [p] + if p.topic.Dlq? then [] else Publications(p.event, failures[1..], maxAttempts)
  }

  /** A ValueError that is none of the transport errors; every other exception is worth a retry. */
  predicate Hopeless(f: Failure) {
    f.isValueError && !f.isTransportError
  }

  /** The event that run number i of the handler fails on. */
  function FailedEvent(e: Event, ps: seq<Publication>, i: nat): Event
    requires i <= |ps|
  {
    if i == 0 then e else ps[i - 1].event
  }

  /**
   * Every publication replaces the event of the failed run before it; only the last one can go to the dead-letter
   * queue, which it does exactly when its failure is hopeless or the attempts are used up.
   */
  lemma {:induction false} LadderShape(e: Event, failures: seq<Failure>, maxAttempts: int, i: nat)
    requires i < |Publications(e, failures, maxAttempts)|
    ensures var ps := Publications(e, failures, maxAttempts);
            && |ps| <= |failures|
            && Replaces(ps[i], FailedEvent(e, ps, i), !Hopeless(failures[i]), maxAttempts)
            && SameMessage(ps[i].event, e)
            && ps[i].event.attempt == e.attempt + i + 1
            && (ps[i].topic.Dlq? <==> Hopeless(failures[i]) || maxAttempts <= e.attempt + i)
            && (ps[i].topic.Dlq? ==> i == |ps| - 1)
            && (|ps| < |failures| ==> ps[|ps| - 1].topic.Dlq?)
    decreases failures
  {
    var p := HandleFailure(e, Retryable(failures[0]), maxAttempts);
    var ps := Publications(e, failures, maxAttempts);
    FailureIsReplaced(e, Retryable(failures[0]), maxAttempts, p);
    if !p.topic.Dlq? && failures[1..] != [] {
      var rest := Publications(p.event, failures[1..], maxAttempts);
      assert ps == [p] + rest;
      LadderShape(p.event, failures[1..], maxAttempts, if i == 0 then 0 else i - 1);
      if i > 0 {
        assert FailedEvent(e, ps, i) == FailedEvent(p.event, rest, i - 1);
      }
    }
  }

  function Repeat(f: Failure, n: nat): seq<Failure> {
    seq(n, _ => f)
  }

  /**
   * An event that starts at attempt 0 and always fails retryably is handled maxAttempts + 1 times: maxAttempts
   * publications climb the retry topics, the next one parks it in the dead-letter queue.
   */
  lemma AlwaysFailingEvent(e: Event, f: Failure, runs: nat, maxAttempts: nat)
    requires e.attempt == 0 && !Hopeless(f) && maxAttempts < runs
    ensures var ps := Publications(e, Repeat(f, runs), maxAttempts);
            && |ps| == maxAttempts + 1
            && ps[maxAttempts].topic.Dlq? && ps[maxAttempts].event.attempt == maxAttempts + 1
            && (forall i :: 0 <= i < maxAttempts ==>
                  ps[i].topic == (if i == 0 then Retry30s else if i == 1 then Retry2m else Retry10m) &&
                  ps[i].event.retryAfter == if i == 0 then 30 else if i == 1 then 120 else 600)
  {
    var ps := Publications(e, Repeat(f, runs), maxAttempts);
    assert ps != [];
    LadderShape(e, Repeat(f, runs), maxAttempts, |ps| - 1);
    forall i | 0 <= i < |ps|
      ensures ps[i].topic.Dlq? <==> maxAttempts <= i
      ensures !ps[i].topic.Dlq? ==>
                ps[i].topic == RetryTopic(i + 1) && ps[i].event.retryAfter == RetryDelaySeconds(i + 1)
    {
      LadderShape(e, Repeat(f, runs), maxAttempts, i);
    }
    if maxAttempts + 1 < |ps| {
      LadderShape(e, Repeat(f, runs), maxAttempts, maxAttempts);
    }
  }

  function TotalDelay(ps: seq<Publication>): int {
    if ps == [] then 0 else TotalDelay(ps[..|ps| - 1]) + ps[|ps| - 1].event.retryAfter
  }

  lemma {:induction false} DelaysAddUp(ps: seq<Publication>, n: nat)
    requires n <= |ps| && forall i :: 0 <= i < n ==> ps[i].event.retryAfter == RetryDelaySeconds(i + 1)
    ensures TotalDelay(ps[..n]) ==
            if n == 0 then 0 else if n == 1 then 30 else 150 + 600 * (n - 2)
  {
    if n != 0 {
      assert ps[..n][..n - 1] == ps[..n - 1];
      DelaysAddUp(ps, n - 1);
    }
  }

  /** The whole climb takes 30 + 120 + 600 (n - 2) seconds of delay for n >= 2 attempts. */
  lemma AlwaysFailingDelay(e: Event, f: Failure, runs: nat, maxAttempts: nat)
    requires e.attempt == 0 && !Hopeless(f) && 2 <= maxAttempts < runs
    ensures TotalDelay(Publications(e, Repeat(f, runs), maxAttempts)) == 30 + 120 + 600 * (maxAttempts - 2)
  {
    var ps := Publications(e, Repeat(f, runs), maxAttempts);
    AlwaysFailingEvent(e, f, runs, maxAttempts);
    DelaysAddUp(ps, maxAttempts);
    LadderShape(e, Repeat(f, runs), maxAttempts, maxAttempts);
  }
}
