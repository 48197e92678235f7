/**
 * The dedup gate in front of the coalescer: an event's idempotency key is set in Redis, if absent, before the event is
 * processed. This gives at-most-once processing per key and time-to-live - and makes every later retry of an event
 * whose processing failed a duplicate.
 */
module Idempotency {
  import opened RetryLadder
  import Text

  // ---------------------------------------------------------------- keys

  const HASH_PREFIX := "photon_hash:"

  predicate StartsWith(s: string, prefix: string) {
    prefix <= s
  }

  /** The key of an already trimmed message id. */
  function KeyOfId(development: bool, id: string, fallbackHash: string): string {
    var env := if development then "dev_" else "";
    if id != "" && !StartsWith(id, HASH_PREFIX) then env + "photon_msg:" + id
    else if StartsWith(id, HASH_PREFIX) then env + "photon_msg_hash:" + id[|HASH_PREFIX|..]
    else env + "photon_msg_hash:" + fallbackHash
  }

  function BuildIdempotencyKey(development: bool, messageId: string, fallbackHash: string): string {
    KeyOfId(development, Text.Strip(messageId), fallbackHash)
  }

  /** The two kinds of key differ right after their common start. */
  lemma KeyKind(development: bool, id: string, fallbackHash: string)
    requires id != ""
    ensures var k, e := KeyOfId(development, id, fallbackHash), if development then 4 else 0;
            && |k| > e + 10
            && (k[e + 10] == '_' <==> StartsWith(id, HASH_PREFIX))
            && (StartsWith(id, HASH_PREFIX) ==> |k| >= e + 16 && HASH_PREFIX + k[e + 16..] == id)
            && (!StartsWith(id, HASH_PREFIX) ==> |k| >= e + 11 && k[e + 11..] == id)
  {
    var env := if development then "dev_" else "";
    var k := KeyOfId(development, id, fallbackHash);
    if StartsWith(id, HASH_PREFIX) {
      assert k == env + "photon_msg_hash:" + id[|HASH_PREFIX|..];
      assert (env + "photon_msg_hash:")[|env| + 10] == '_';
    } else {
      assert k == env + "photon_msg:" + id;
      assert (env + "photon_msg:")[|env| + 10] == ':';
    }
  }

  lemma KeyStart(development: bool, id: string, fallbackHash: string)
    ensures var k := KeyOfId(development, id, fallbackHash); |k| > 0 && (k[0] == 'd' <==> development)
  {
    var k, env := KeyOfId(development, id, fallbackHash), if development then "dev_" else "";
    assert env + "photon_msg" <= k;
    assert k[0] == (env + "photon_msg")[0];
  }

  lemma KeyOfIdInjective(development: bool, i: string, j: string, f: string, g: string)
    requires i != "" && j != ""
    ensures KeyOfId(development, i, f) == KeyOfId(development, j, g) <==> i == j
  {
    KeyKind(development, i, f);
    KeyKind(development, j, g);
  }

  /** On non-blank message ids the key determines the trimmed id; development and production never share a key. */
  lemma KeyInjective(development: bool, m: string, n: string, f: string, g: string)
    requires Text.Strip(m) != "" && Text.Strip(n) != ""
    ensures BuildIdempotencyKey(development, m, f) == BuildIdempotencyKey(development, n, g)
            <==> Text.Strip(m) == Text.Strip(n)
    ensures BuildIdempotencyKey(true, m, f) != BuildIdempotencyKey(false, n, g)
  {
    KeyOfIdInjective(development, Text.Strip(m), Text.Strip(n), f, g);
    KeyStart(true, Text.Strip(m), f);
    KeyStart(false, Text.Strip(n), g);
  }

  /** Without a message id the producer makes one up from a content hash; the key is then that hash's. */
  lemma MadeUpIdKeepsTheHashKey(development: bool, hash: string)
    ensures KeyOfId(development, HASH_PREFIX + hash, hash) == KeyOfId(development, "", hash)
  {
    assert (HASH_PREFIX + hash)[|HASH_PREFIX|..] == hash;
    assert StartsWith(HASH_PREFIX + hash, HASH_PREFIX);
  }

  // ---------------------------------------------------------------- the producer's ids and keys

  /** The id the producer gives an event; `hash` is the fingerprint of its content. */
  function EventId(messageId: string, hash: string): string {
    var id := Text.Strip(messageId);
    if id != "" then id else HASH_PREFIX + hash
  }

  function EventKey(development: bool, messageId: string, hash: string): string {
    var id := Text.Strip(messageId);
    BuildIdempotencyKey(development, if id != "" then id else EventId(messageId, hash), hash)
  }

  /** Fingerprints are hexadecimal digits; all that matters is that they have visible ends. */
  predicate IsHash(hash: string) {
    hash != "" && Text.IsTrimmed(hash)
  }

  lemma VisibleStarts()
    ensures !Text.IsSpace('p') && !Text.IsSpace('d') && !Text.IsSpace(':')
  {
    Text.InRangesIff('p', Text.SPACES);
    Text.InRangesIff('d', Text.SPACES);
    Text.InRangesIff(':', Text.SPACES);
  }

  lemma TrimmedConcat(a: string, b: string)
    requires a != "" && !Text.IsSpace(a[0]) && !Text.IsSpace(a[|a| - 1]) && (b == "" || !Text.IsSpace(b[|b| - 1]))
    ensures Text.IsTrimmed(a + b)
  {
  }

  lemma EventIdIsTrimmed(messageId: string, hash: string)
    requires IsHash(hash)
    ensures EventId(messageId, hash) != "" && Text.IsTrimmed(EventId(messageId, hash))
  {
    VisibleStarts();
    TrimmedConcat(HASH_PREFIX, hash);
  }

  lemma KeyIsTrimmed(development: bool, id: string, hash: string)
    requires id != "" && Text.IsTrimmed(id)
    ensures KeyOfId(development, id, hash) != "" && Text.IsTrimmed(KeyOfId(development, id, hash))
  {
    VisibleStarts();
    var env := if development then "dev_" else "";
    if StartsWith(id, HASH_PREFIX) {
      TrimmedConcat(env + "photon_msg_hash:", id[|HASH_PREFIX|..]);
    } else {
      TrimmedConcat(env + "photon_msg:", id);
    }
  }

  /** The key is that of the event's id, and also what the key builder makes of the raw message id. */
  lemma EventKeyIsKeyOfId(development: bool, messageId: string, hash: string)
    requires IsHash(hash)
    ensures EventKey(development, messageId, hash) == KeyOfId(development, EventId(messageId, hash), hash)
    ensures EventKey(development, messageId, hash) == BuildIdempotencyKey(development, messageId, hash)
  {
    EventIdIsTrimmed(messageId, hash);
    Text.StripFixpoint(EventId(messageId, hash));
    MadeUpIdKeepsTheHashKey(development, hash);
  }

  /** A delivery of an event built by the producer. */
  predicate Produced(d: Delivery, development: bool, messageId: string, hash: string) {
    && IsHash(hash)
    && d.id == Text.Strip(EventId(messageId, hash))
    && d.key == Text.Strip(EventKey(development, messageId, hash))
  }

  lemma ProducedIsTrimmed(d: Delivery, development: bool, m: string, f: string)
    requires Produced(d, development, m, f)
    ensures d.id == EventId(m, f) && d.key == KeyOfId(development, d.id, f) && Complete(d)
  {
    EventIdIsTrimmed(m, f);
    EventKeyIsKeyOfId(development, m, f);
    KeyIsTrimmed(development, EventId(m, f), f);
    Text.StripFixpoint(EventId(m, f));
    Text.StripFixpoint(EventKey(development, m, f));
  }

  /** Every produced event is complete, and two have one key exactly if they have one id, made up or not. */
  lemma ProducedKeyInjective(d: Delivery, e: Delivery, development: bool, m: string, n: string, f: string, g: string)
    requires Produced(d, development, m, f) && Produced(e, development, n, g)
    ensures Complete(d) && Complete(e) && (d.key == e.key <==> d.id == e.id)
    ensures d.id == EventId(m, f) && e.id == EventId(n, g)
  {
    ProducedIsTrimmed(d, development, m, f);
    ProducedIsTrimmed(e, development, n, g);
    KeyOfIdInjective(development, d.id, e.id, f, g);
  }

  // ---------------------------------------------------------------- the gate

  /** Redis answers, or the call raises - before or after the command took effect. */
  datatype Reply = Up | Down(applied: bool)

  /** One handler run: the event's trimmed id and key, the clock, Redis' reply, and whether the coalescer raised. */
  datatype Delivery = Delivery(id: string, key: string, now: int, reply: Reply, raises: bool)

  datatype Outcome = Incomplete | Duplicate | Processed(raised: bool)

  /** Keys with the time at which they expire. */
  type Store = map<string, int>

  predicate Alive(s: Store, key: string, now: int) {
    key in s && now < s[key]
  }

  /** SET key NX EX ttl. */
  function SetIfAbsent(s: Store, key: string, now: int, ttl: int): Store {
    if Alive(s, key, now) then s else s[key := now + ttl]
  }

  /** True means new; an unreachable Redis lets the operation proceed. */
  predicate IsNew(s: Store, key: string, now: int, reply: Reply) {
    reply.Down? || !Alive(s, key, now)
  }

  function StoreAfterCheck(s: Store, key: string, now: int, ttl: int, reply: Reply): Store {
    if reply.Up? || reply.applied then SetIfAbsent(s, key, now, ttl) else s
  }

  predicate Complete(d: Delivery) {
    d.id != "" && d.key != ""
  }

  function Gate(s: Store, d: Delivery): Outcome {
    if !Complete(d) then Incomplete
    else if !IsNew(s, d.key, d.now, d.reply) then Duplicate
    else Processed(d.raises)
  }

  function StoreAfter(s: Store, d: Delivery, ttl: int): Store {
    if Complete(d) then StoreAfterCheck(s, d.key, d.now, ttl, d.reply) else s
  }

  /** Redis as the handler sees it. */
  class RedisClient {
    var store: Store

    method CheckIdempotency(key: string, now: int, ttl: int, reply: Reply) returns (isNew: bool)
      modifies this
      ensures isNew == IsNew(old(store), key, now, reply)
      ensures store == StoreAfterCheck(old(store), key, now, ttl, reply)
    {
      var absent := !Alive(store, key, now);
      if reply.Up? || reply.applied {
        if absent {
          store := store[key := now + ttl];
        }
      }
      isNew := reply.Down? || absent;
    }

    /** Answers whether the event reached the coalescer; an exception of the coalescer is `Processed(true)`. */
    method HandleKafkaEvent(eventId: string, messageId: string, dedupKey: string,
                            now: int, ttl: int, reply: Reply, raises: bool)
      returns (outcome: Outcome)
      modifies this
      ensures var id := Text.Strip(if eventId != "" then eventId else messageId);
              var d := Delivery(id, Text.Strip(dedupKey), now, reply, raises);
              outcome == Gate(old(store), d) && store == StoreAfter(old(store), d, ttl)
      ensures outcome.Incomplete? <==>
                Text.Strip(dedupKey) == "" || Text.Strip(if eventId != "" then eventId else messageId) == ""
      ensures outcome.Duplicate? ==> reply.Up? && Text.Strip(dedupKey) in old(store)
      ensures outcome.Processed? ==>
                && outcome.raised == raises
                && (reply.Up? ==> Text.Strip(dedupKey) in store && now + ttl == store[Text.Strip(dedupKey)])
    {
      var id := Text.Strip(if eventId != "" then eventId else messageId);
      var idempotencyKey := Text.Strip(dedupKey);
      if id == "" || idempotencyKey == "" {
        return Incomplete;
      }
      var isNew := CheckIdempotency(idempotencyKey, now, ttl, reply);
      if !isNew {
        return Duplicate;
      }
      outcome := Processed(raises);
    }
  }

  // ---------------------------------------------------------------- whole histories

  function StoreBefore(ds: seq<Delivery>, i: nat, ttl: int): Store
    requires i <= |ds|
  {
    if i == 0 then map[] else StoreAfter(StoreBefore(ds, i - 1, ttl), ds[i - 1], ttl)
  }

  function OutcomeOf(ds: seq<Delivery>, i: nat, ttl: int): Outcome
    requires i < |ds|
  {
    Gate(StoreBefore(ds, i, ttl), ds[i])
  }

  ghost predicate ClockRuns(ds: seq<Delivery>) {
    forall i, j :: 0 <= i < j < |ds| ==> ds[i].now <= ds[j].now
  }

  /** The delivery's SET took effect: the key was absent and the command reached Redis. */
  predicate Claims(ds: seq<Delivery>, j: nat, ttl: int)
    requires j < |ds|
  {
    && Complete(ds[j]) && (ds[j].reply.Up? || ds[j].reply.applied)
    && !Alive(StoreBefore(ds, j, ttl), ds[j].key, ds[j].now)
  }

  ghost predicate RecentClaim(ds: seq<Delivery>, i: nat, key: string, now: int, ttl: int)
    requires i <= |ds|
  {
    exists j :: 0 <= j < i && Claims(ds, j, ttl) && ds[j].key == key && now < ds[j].now + ttl
  }

  /** The store is exactly the memory of the claims that have not expired. */
  lemma {:induction false} StoreRemembersClaims(ds: seq<Delivery>, i: nat, key: string, now: int, ttl: int)
    requires i <= |ds| && ClockRuns(ds) && (i > 0 ==> ds[i - 1].now <= now)
    ensures Alive(StoreBefore(ds, i, ttl), key, now) <==> RecentClaim(ds, i, key, now, ttl)
  {
    if i > 0 {
      var d := ds[i - 1];
      var s := StoreBefore(ds, i - 1, ttl);
      StoreRemembersClaims(ds, i - 1, key, now, ttl);
      if Claims(ds, i - 1, ttl) && d.key == key {
        StoreRemembersClaims(ds, i - 1, key, d.now, ttl);
        assert !RecentClaim(ds, i - 1, key, d.now, ttl);
        assert forall j :: 0 <= j < i - 1 && Claims(ds, j, ttl) && ds[j].key == key ==> ds[j].now + ttl <= d.now;
        assert Alive(StoreBefore(ds, i, ttl), key, now) <==> now < d.now + ttl;
      } else {
        assert Alive(StoreBefore(ds, i, ttl), key, now) == Alive(s, key, now);
      }
    }
  }

  /** With Redis up, a complete event is skipped exactly when its key was claimed less than a time-to-live ago. */
  lemma SkippedIffRecentlyClaimed(ds: seq<Delivery>, i: nat, ttl: int)
    requires i < |ds| && ClockRuns(ds) && Complete(ds[i]) && ds[i].reply.Up?
    ensures OutcomeOf(ds, i, ttl).Duplicate? <==> RecentClaim(ds, i, ds[i].key, ds[i].now, ttl)
  {
    StoreRemembersClaims(ds, i, ds[i].key, ds[i].now, ttl);
  }

  /** While Redis is up, two processings of one key are at least a time-to-live apart. */
  lemma AtMostOncePerTtl(ds: seq<Delivery>, i: nat, j: nat, ttl: int)
    requires i < j < |ds| && ClockRuns(ds) && ds[i].reply.Up? && ds[j].reply.Up?
    requires OutcomeOf(ds, i, ttl).Processed? && OutcomeOf(ds, j, ttl).Processed? && ds[i].key == ds[j].key
    ensures ds[i].now + ttl <= ds[j].now
  {
    assert Claims(ds, i, ttl);
    SkippedIffRecentlyClaimed(ds, j, ttl);
  }

  /** Whatever Redis does, an event is skipped only if its key was processed within the last time-to-live. */
  lemma SkippedOnlyIfProcessed(ds: seq<Delivery>, i: nat, ttl: int)
    requires i < |ds| && ClockRuns(ds) && OutcomeOf(ds, i, ttl).Duplicate?
    ensures exists j :: 0 <= j < i && OutcomeOf(ds, j, ttl).Processed? && ds[j].key == ds[i].key &&
                        ds[i].now < ds[j].now + ttl
  {
    SkippedIffRecentlyClaimed(ds, i, ttl);
    var j :| 0 <= j < i && Claims(ds, j, ttl) && ds[j].key == ds[i].key && ds[i].now < ds[j].now + ttl;
    assert OutcomeOf(ds, j, ttl).Processed?;
  }

  /** Produced events, with or without a message id: each event id is processed at most once per time-to-live. */
  lemma MessageProcessedOnce(ds: seq<Delivery>, i: nat, j: nat, ttl: int, development: bool,
                             m: string, n: string, f: string, g: string)
    requires i < j < |ds| && ClockRuns(ds) && ds[i].reply.Up? && ds[j].reply.Up? && ds[j].now < ds[i].now + ttl
    requires OutcomeOf(ds, i, ttl).Processed? && OutcomeOf(ds, j, ttl).Processed?
    requires Produced(ds[i], development, m, f) && Produced(ds[j], development, n, g)
    ensures EventId(m, f) != EventId(n, g)
  {
    ProducedKeyInjective(ds[i], ds[j], development, m, n, f, g);
    if ds[i].key == ds[j].key {
      AtMostOncePerTtl(ds, i, j, ttl);
    }
  }

  /** And a produced event is skipped only if its own id was processed so recently. */
  lemma SkippedIdWasProcessed(ds: seq<Delivery>, i: nat, ttl: int, development: bool,
                              ids: seq<string>, hashes: seq<string>)
    requires i < |ds| == |ids| == |hashes| && ClockRuns(ds) && OutcomeOf(ds, i, ttl).Duplicate?
    requires forall j :: 0 <= j < |ds| ==> Produced(ds[j], development, ids[j], hashes[j])
    ensures exists j :: 0 <= j < i && OutcomeOf(ds, j, ttl).Processed? &&
                        EventId(ids[j], hashes[j]) == EventId(ids[i], hashes[i]) && ds[i].now < ds[j].now + ttl
  {
    SkippedOnlyIfProcessed(ds, i, ttl);
    var j :| 0 <= j < i && OutcomeOf(ds, j, ttl).Processed? && ds[j].key == ds[i].key && ds[i].now < ds[j].now + ttl;
    ProducedKeyInjective(ds[j], ds[i], development, ids[j], ids[i], hashes[j], hashes[i]);
  }

  // ---------------------------------------------------------------- what the gate does to retries

  predicate Delivers(d: Delivery, e: Event) {
    d.id == Text.Strip(e.id) && d.key == Text.Strip(e.dedupKey)
  }

  /**
   * An event whose processing raised is republished with the same key, so within the time-to-live its copy reaches
   * the coalescer exactly when Redis is unreachable: otherwise no rung of the retry ladder retries it.
   */
  lemma FailedEventIsNotRetried(ds: seq<Delivery>, i: nat, j: nat, e: Event, retryable: bool, maxAttempts: int,
                                ttl: int)
    requires i < j < |ds| && ClockRuns(ds) && ds[j].now < ds[i].now + ttl
    requires Delivers(ds[i], e) && ds[i].reply.Up? && OutcomeOf(ds, i, ttl) == Processed(true)
    requires Delivers(ds[j], HandleFailure(e, retryable, maxAttempts).event)
    ensures OutcomeOf(ds, j, ttl).Processed? <==> ds[j].reply.Down?
  {
    assert ds[i].key == ds[j].key && Complete(ds[j]);
    assert Claims(ds, i, ttl);
    if ds[j].reply.Up? {
      SkippedIffRecentlyClaimed(ds, j, ttl);
    }
  }

  /** With the default 6 attempts the whole ladder fits into the default 24 hours, so it cannot outlive the key. */
  lemma DefaultLadderFitsInTtl(e: Event, f: Failure, runs: nat)
    requires e.attempt == 0 && !Hopeless(f) && 6 < runs
    ensures TotalDelay(Publications(e, Repeat(f, runs), 6)) == 2550 < 86400
  {
    AlwaysFailingDelay(e, f, runs, 6);
  }
}
