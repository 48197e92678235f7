/**
 * The per-key locks of one partition tracker: tasks with the same partition key take turns, in delivery order.
 *
 * Lock objects live in `locks` and are only ever added; `table` is the dictionary from key to lock object that
 * lookups read and idle eviction shrinks. An asyncio lock hands over in two steps: `release` clears the locked flag
 * and the first waiter takes the lock when it next runs. In between, `locked()` is false although a task is queued,
 * and the eviction test cannot tell such a lock from an idle one. `Leave` and `Wake` model the two steps.
 */
module KeyLocks {
  import opened Wrappers

  /** Events with a key share a lock by it; any other record gets a lock of its own. */
  datatype Key = Shared(text: string) | PerRecord(offset: nat)

  datatype KeyLock = KeyLock(holder: Option<nat>, waiters: seq<nat>)

  /** What a task between lock lookup and release remembers. */
  datatype Ticket = Ticket(key: Key, lock: nat)

  datatype Entry = Entry(num: nat, key: Key)

  /** `entered` is the history of lock acquisitions; task numbers are delivery numbers. */
  datatype Room = Room(
    next: nat,
    table: map<Key, nat>,
    locks: seq<KeyLock>,
    live: map<nat, Ticket>,
    entered: seq<Entry>)

  datatype RoomStep =
    | Join(num: nat, key: Key, evicted: set<Key>)
    | Wake(lock: nat)
    | Leave(num: nat)

  function Empty(): Room {
    Room(0, map[], [], map[], [])
  }

  predicate Unlocked(r: Room, k: Key) {
    k in r.table && r.table[k] < |r.locks| && r.locks[r.table[k]].holder.None?
  }

  /** Nobody waits on the lock either: it is idle and not being handed over. */
  predicate Idle(r: Room, k: Key) {
    Unlocked(r, k) && r.locks[r.table[k]].waiters == []
  }

  predicate Holds(r: Room, num: nat) {
    num in r.live && r.live[num].lock < |r.locks| && r.locks[r.live[num].lock].holder == Some(num)
  }

  /** A lookup may evict keys whose lock is not locked, and only when its own key is missing. */
  predicate Enabled(r: Room, step: RoomStep) {
    match step
    case Join(num, key, evicted) =>
      && r.next <= num
      && (key in r.table ==> evicted == {} && r.table[key] < |r.locks|)
      && (forall k <- evicted :: Unlocked(r, k))
    case Wake(lock) =>
      lock < |r.locks| && r.locks[lock].holder.None? && r.locks[lock].waiters != [] &&
      r.locks[lock].waiters[0] in r.live
    case Leave(num) => Holds(r, num)
  }

  /** Lock lookup: evict, then create the key's lock if the table has none. */
  function Lookup(r: Room, key: Key, evicted: set<Key>): Room {
    var t := r.table - evicted;
    if key in t then r.(table := t)
    else r.(table := t[key := |r.locks|], locks := r.locks + [KeyLock(None, [])])
  }

  /** The acquire that follows the lookup without a suspension point in between. */
  function Acquire(r: Room, num: nat, key: Key): Room
    requires key in r.table && r.table[key] < |r.locks|
  {
    var l := r.table[key];
    var lock := r.locks[l];
    var s := r.(next := num + 1, live := r.live[num := Ticket(key, l)]);
    if lock.holder.None? && lock.waiters == []
    then s.(locks := r.locks[l := KeyLock(Some(num), [])], entered := r.entered + [Entry(num, key)])
    else s.(locks := r.locks[l := lock.(waiters := lock.waiters + [num])])
  }

  function Next(r: Room, step: RoomStep): Room
    requires Enabled(r, step)
  {
    match step
    case Join(num, key, evicted) =>
      Acquire(Lookup(r, key, evicted), num, key)
    case Wake(l) =>
      var w := r.locks[l].waiters;
      r.(locks := r.locks[l := KeyLock(Some(w[0]), w[1..])],
         entered := r.entered + [Entry(w[0], r.live[w[0]].key)])
    case Leave(num) =>
      var l := r.live[num].lock;
      r.(locks := r.locks[l := r.locks[l].(holder := None)],
         live := map n | n in r.live && n != num :: r.live[n])
  }

  function Apply(r: Room, step: RoomStep): Room {
    if Enabled(r, step) then Next(r, step) else r
  }

  function Run(r: Room, steps: seq<RoomStep>): Room {
    if steps == [] then r else Apply(Run(r, steps[..|steps| - 1]), steps[|steps| - 1])
  }

  // ---------------------------------------------------------------- invariants

  /** The tasks named by one lock object exist, use it, and queue in delivery order behind its holder. */
  ghost predicate QueueOk(live: map<nat, Ticket>, l: nat, q: KeyLock) {
    && (q.holder.Some? ==> q.holder.value in live && live[q.holder.value].lock == l)
    && (forall n <- q.waiters :: n in live && live[n].lock == l)
    && (forall i, j :: 0 <= i < j < |q.waiters| ==> q.waiters[i] < q.waiters[j])
    && (q.holder.Some? ==> forall n <- q.waiters :: q.holder.value < n)
  }

  predicate Queued(r: Room, num: nat)
    requires num in r.live && r.live[num].lock < |r.locks|
  {
    var q := r.locks[r.live[num].lock];
    q.holder == Some(num) || num in q.waiters
  }

  /** Lock objects and tasks agree about who holds and who waits, in delivery order. */
  ghost predicate QueuesAgree(r: Room) {
    && (forall n <- r.live :: n < r.next && r.live[n].lock < |r.locks| && Queued(r, n))
    && (forall l :: 0 <= l < |r.locks| ==> QueueOk(r.live, l, r.locks[l]))
  }

  ghost predicate TableInjective(r: Room) {
    && (forall k <- r.table :: r.table[k] < |r.locks|)
    && (forall j, k :: j in r.table && k in r.table && r.table[j] == r.table[k] ==> j == k)
  }

  /** Every task between lookup and release still uses the lock its key leads to. */
  ghost predicate Anchored(r: Room) {
    forall n <- r.live :: r.live[n].key in r.table && r.table[r.live[n].key] == r.live[n].lock
  }

  predicate Waiting(r: Room, num: nat) {
    num in r.live && r.live[num].lock < |r.locks| && num in r.locks[r.live[num].lock].waiters
  }

  ghost predicate EntryOrder(r: Room) {
    && (forall i, j :: 0 <= i < j < |r.entered| && r.entered[i].key == r.entered[j].key ==>
          r.entered[i].num < r.entered[j].num)
    && (forall i :: 0 <= i < |r.entered| ==> r.entered[i].num < r.next)
    && (forall i, n :: 0 <= i < |r.entered| && Waiting(r, n) && r.live[n].key == r.entered[i].key ==>
          r.entered[i].num < n)
  }

  ghost predicate Core(r: Room) {
    QueuesAgree(r) && TableInjective(r)
  }

  ghost predicate Inv(r: Room) {
    Core(r) && Anchored(r) && EntryOrder(r)
  }

  // ---------------------------------------------------------------- what an eviction must spare

  lemma LookupKeepsCore(r: Room, key: Key, evicted: set<Key>)
    requires Core(r)
    ensures Core(Lookup(r, key, evicted))
  {
  }

  /**
   * Eviction keeps every queued or running task on its key's lock exactly when no evicted lock is being handed over.
   */
  lemma EvictionSafeIffIdle(r: Room, key: Key, evicted: set<Key>)
    requires Core(r) && Anchored(r) && Enabled(r, Join(r.next, key, evicted))
    ensures Anchored(Lookup(r, key, evicted)) <==> forall k <- evicted :: Idle(r, k)
  {
    var s := Lookup(r, key, evicted);
    if k :| k in evicted && !Idle(r, k) {
      var w := r.locks[r.table[k]].waiters[0];
      assert w in r.live && r.live[w].lock == r.table[k];
      assert r.live[w].key == k;
      assert k !in s.table;
      assert !Anchored(s);
    }
    if forall k <- evicted :: Idle(r, k) {
      forall n <- s.live ensures s.live[n].key in s.table && s.table[s.live[n].key] == s.live[n].lock {
        var k := r.live[n].key;
        assert r.table[k] == r.live[n].lock;
        assert k !in evicted;
      }
    }
  }

  // ---------------------------------------------------------------- every step keeps the invariant

  lemma AcquireFreeKeepsQueues(r: Room, num: nat, key: Key)
    requires Inv(r) && r.next <= num && key in r.table
    requires r.locks[r.table[key]] == KeyLock(None, [])
    ensures QueuesAgree(Acquire(r, num, key))
  {
    var s, l := Acquire(r, num, key), r.table[key];
    assert s.locks[l] == KeyLock(Some(num), []);
    forall n <- s.live ensures Queued(s, n) {
      assert n != num ==> Queued(r, n);
    }
    forall k | 0 <= k < |s.locks| && k != l ensures QueueOk(s.live, k, s.locks[k]) {
      assert QueueOk(r.live, k, r.locks[k]);
    }
  }

  lemma QueueAppend(live: map<nat, Ticket>, l: nat, q: KeyLock, num: nat, key: Key)
    requires QueueOk(live, l, q) && forall n <- live :: n < num
    ensures QueueOk(live[num := Ticket(key, l)], l, q.(waiters := q.waiters + [num]))
  {
    forall i | 0 <= i < |q.waiters| ensures q.waiters[i] < num {
      assert q.waiters[i] in q.waiters;
    }
  }

  lemma AcquireBusyKeepsQueues(r: Room, num: nat, key: Key)
    requires Inv(r) && r.next <= num && key in r.table
    requires r.locks[r.table[key]] != KeyLock(None, [])
    ensures QueuesAgree(Acquire(r, num, key))
  {
    var s, l := Acquire(r, num, key), r.table[key];
    assert s.locks[l] == r.locks[l].(waiters := r.locks[l].waiters + [num]);
    forall n <- s.live ensures Queued(s, n) {
      assert n != num ==> Queued(r, n);
    }
    QueueAppend(r.live, l, r.locks[l], num, key);
    forall k | 0 <= k < |s.locks| && k != l ensures QueueOk(s.live, k, s.locks[k]) {
      assert QueueOk(r.live, k, r.locks[k]);
    }
  }

  lemma AcquireKeepsWaiting(r: Room, num: nat, key: Key, n: nat)
    requires Inv(r) && r.next <= num && key in r.table && n != num
    ensures Waiting(Acquire(r, num, key), n) ==> Waiting(r, n)
    ensures Waiting(Acquire(r, num, key), n) && r.locks[r.table[key]] == KeyLock(None, []) ==> r.live[n].key != key
  {
  }

  lemma AcquireKeepsOrder(r: Room, num: nat, key: Key)
    requires Inv(r) && r.next <= num && key in r.table
    ensures EntryOrder(Acquire(r, num, key))
  {
    var s, free := Acquire(r, num, key), r.locks[r.table[key]] == KeyLock(None, []);
    assert s.entered == r.entered + if free then [Entry(num, key)] else [];
    assert free ==> !Waiting(s, num);
    forall i, n | 0 <= i < |s.entered| && Waiting(s, n) && s.live[n].key == s.entered[i].key
      ensures s.entered[i].num < n
    {
      if n != num {
        AcquireKeepsWaiting(r, num, key, n);
      }
    }
  }

  lemma AcquireKeeps(r: Room, num: nat, key: Key)
    requires Inv(r) && r.next <= num && key in r.table
    ensures Inv(Acquire(r, num, key))
  {
    if r.locks[r.table[key]] == KeyLock(None, []) {
      AcquireFreeKeepsQueues(r, num, key);
    } else {
      AcquireBusyKeepsQueues(r, num, key);
    }
    AcquireKeepsOrder(r, num, key);
  }

  /** A new task takes no lock away, and only its own ticket is added. */
  lemma JoinAddsOneTicket(r: Room, num: nat, key: Key, evicted: set<Key>)
    requires Core(r) && Enabled(r, Join(num, key, evicted))
    ensures var s := Next(r, Join(num, key, evicted));
            && s.next == num + 1 && num in s.live && s.live == r.live[num := s.live[num]] && s.live[num].key == key
            && (forall n :: Holds(r, n) ==> Holds(s, n))
  {
    LookupKeepsCore(r, key, evicted);
  }

  lemma JoinKeeps(r: Room, num: nat, key: Key, evicted: set<Key>)
    requires Inv(r) && Enabled(r, Join(num, key, evicted))
    requires forall k <- evicted :: Idle(r, k)
    ensures Inv(Next(r, Join(num, key, evicted)))
  {
    var s := Lookup(r, key, evicted);
    LookupKeepsCore(r, key, evicted);
    EvictionSafeIffIdle(r, key, evicted);
    forall n | Waiting(s, n) ensures Waiting(r, n) {
    }
    assert EntryOrder(s);
    AcquireKeeps(s, num, key);
  }

  lemma WakeKeepsQueues(r: Room, l: nat)
    requires Inv(r) && Enabled(r, Wake(l))
    ensures QueuesAgree(Next(r, Wake(l)))
  {
    var s, w := Next(r, Wake(l)), r.locks[l].waiters;
    assert QueueOk(r.live, l, r.locks[l]);
    assert w == [w[0]] + w[1..];
    forall n <- s.live ensures Queued(s, n) {
      assert Queued(r, n);
    }
    forall n | n in w[1..] ensures w[0] < n && n in w {
      var i :| 0 <= i < |w[1..]| && w[1..][i] == n;
      assert w[i + 1] == n;
    }
    forall k | 0 <= k < |s.locks| ensures QueueOk(s.live, k, s.locks[k]) {
      assert QueueOk(r.live, k, r.locks[k]);
    }
  }

  lemma WakeKeepsOrder(r: Room, l: nat)
    requires Inv(r) && Enabled(r, Wake(l))
    ensures EntryOrder(Next(r, Wake(l)))
  {
    var s, w := Next(r, Wake(l)), r.locks[l].waiters;
    assert Waiting(r, w[0]);
    forall n | Waiting(s, n) ensures Waiting(r, n) && (r.live[n].key == r.live[w[0]].key ==> w[0] < n) {
      if r.live[n].lock == l {
        var i :| 0 <= i < |w[1..]| && w[1..][i] == n;
        assert w[i + 1] == n;
      }
    }
  }

  lemma WakeKeeps(r: Room, l: nat)
    requires Inv(r) && Enabled(r, Wake(l))
    ensures Inv(Next(r, Wake(l)))
  {
    WakeKeepsQueues(r, l);
    WakeKeepsOrder(r, l);
  }

  lemma LeaveKeepsQueues(r: Room, num: nat)
    requires Core(r) && Enabled(r, Leave(num))
    ensures QueuesAgree(Next(r, Leave(num)))
  {
    var s, l := Next(r, Leave(num)), r.live[num].lock;
    assert QueueOk(r.live, l, r.locks[l]);
    forall n <- s.live ensures Queued(s, n) {
      assert Queued(r, n);
    }
    forall k | 0 <= k < |s.locks| ensures QueueOk(s.live, k, s.locks[k]) {
      assert QueueOk(r.live, k, r.locks[k]);
    }
  }

  lemma LeaveKeepsOrder(r: Room, num: nat)
    requires Inv(r) && Enabled(r, Leave(num))
    ensures EntryOrder(Next(r, Leave(num)))
  {
    var s := Next(r, Leave(num));
    forall n | Waiting(s, n) ensures Waiting(r, n) {
    }
  }

  /** Only the releasing task loses its ticket and its lock. */
  lemma LeaveRemovesOneTicket(r: Room, num: nat)
    requires Core(r) && Enabled(r, Leave(num))
    ensures var s := Next(r, Leave(num));
            && s.next == r.next && s.live == r.live - {num}
            && (forall n :: n != num && Holds(r, n) ==> Holds(s, n))
  {
  }

  /** A hand-over gives a lock to a waiter and takes none away. */
  lemma WakeKeepsHolders(r: Room, l: nat)
    requires Enabled(r, Wake(l))
    ensures var s := Next(r, Wake(l));
            s.next == r.next && s.live == r.live && forall n :: Holds(r, n) ==> Holds(s, n)
  {
  }

  lemma LeaveKeeps(r: Room, num: nat)
    requires Inv(r) && Enabled(r, Leave(num))
    ensures Inv(Next(r, Leave(num)))
  {
    LeaveKeepsQueues(r, num);
    LeaveKeepsOrder(r, num);
  }

  /** No eviction of this step hits a lock in hand-over. */
  predicate Clean(r: Room, step: RoomStep) {
    step.Join? ==> forall k <- step.evicted :: Idle(r, k)
  }

  predicate CleanRun(r: Room, steps: seq<RoomStep>) {
    steps == [] || (CleanRun(r, steps[..|steps| - 1]) && Clean(Run(r, steps[..|steps| - 1]), steps[|steps| - 1]))
  }

  lemma StepKeeps(r: Room, step: RoomStep)
    requires Inv(r) && Clean(r, step)
    ensures Inv(Apply(r, step))
  {
    if Enabled(r, step) {
      match step
      case Join(num, key, evicted) => JoinKeeps(r, num, key, evicted);
      case Wake(l) => WakeKeeps(r, l);
      case Leave(num) => LeaveKeeps(r, num);
    }
  }

  lemma {:induction false} RunKeeps(r: Room, steps: seq<RoomStep>)
    requires Inv(r) && CleanRun(r, steps)
    ensures Inv(Run(r, steps))
  {
    if steps != [] {
      RunKeeps(r, steps[..|steps| - 1]);
      StepKeeps(Run(r, steps[..|steps| - 1]), steps[|steps| - 1]);
    }
  }

  /** At most one task per key holds a lock. */
  ghost predicate Exclusive(r: Room) {
    forall m, n :: Holds(r, m) && Holds(r, n) && r.live[m].key == r.live[n].key ==> m == n
  }

  ghost predicate EnteredInOrder(r: Room) {
    forall i, j :: 0 <= i < j < |r.entered| && r.entered[i].key == r.entered[j].key ==>
      r.entered[i].num < r.entered[j].num
  }

  lemma InvExcludes(r: Room)
    requires Inv(r)
    ensures Exclusive(r) && EnteredInOrder(r)
  {
  }

  /**
   * Over every run without such an eviction: at most one task per key holds a lock, and tasks with the same key
   * enter in delivery order.
   */
  lemma ExclusionAndOrder(steps: seq<RoomStep>)
    requires CleanRun(Empty(), steps)
    ensures Exclusive(Run(Empty(), steps)) && EnteredInOrder(Run(Empty(), steps))
  {
    RunKeeps(Empty(), steps);
    InvExcludes(Run(Empty(), steps));
  }

  // ---------------------------------------------------------------- every other eviction can break exclusion

  /** After a lookup that evicts k, the lock that waiters of k queue on is still there, without a holder. */
  lemma EvictedLockSurvives(r: Room, num: nat, key: Key, evicted: set<Key>, k: Key)
    requires Inv(r) && Enabled(r, Join(num, key, evicted)) && k in evicted && !Idle(r, k)
    ensures var s, l := Next(r, Join(num, key, evicted)), r.table[k];
            && s.next == num + 1 && k !in s.table && l < |s.locks| && s.locks[l] == r.locks[l]
            && (forall n <- s.locks[l].waiters :: n in s.live && n < s.next && s.live[n] == Ticket(k, l))
  {
    var s := Lookup(r, key, evicted);
    var l := r.table[k];
    assert s.table[key] == |r.locks|;
    assert QueueOk(r.live, l, r.locks[l]);
    forall n | n in r.locks[l].waiters ensures n in r.live && r.live[n] == Ticket(k, l) && n < r.next {
      assert r.live[n].key in r.table && r.table[r.live[n].key] == l;
    }
  }

  /** From there a new task of k and the first waiter both get in. */
  lemma TwoGetIn(s: Room, k: Key, l: nat)
    requires k !in s.table && l < |s.locks| && s.locks[l].holder.None? && s.locks[l].waiters != []
    requires forall n <- s.locks[l].waiters :: n in s.live && n < s.next && s.live[n] == Ticket(k, l)
    ensures !Exclusive(Apply(Apply(s, Join(s.next, k, {})), Wake(l)))
  {
    var num, w := s.next, s.locks[l].waiters[0];
    assert w in s.locks[l].waiters && w < num;
    var none: set<Key> := {};
    assert s.table - none == s.table;
    var t := Apply(s, Join(num, k, {}));
    assert t.live == s.live[num := Ticket(k, |s.locks|)] && t.locks[l] == s.locks[l];
    assert t.locks[|s.locks|].holder == Some(num);
    var u := Apply(t, Wake(l));
    assert Holds(u, num) && Holds(u, w) && u.live[num].key == k == u.live[w].key && num != w;
  }

  lemma RunTwo(r: Room, a: RoomStep, b: RoomStep)
    ensures Run(r, [a, b]) == Apply(Apply(r, a), b)
    ensures CleanRun(r, [a, b]) <==> Clean(r, a) && Clean(Apply(r, a), b)
  {
    assert [a, b][..1] == [a] && [a][..0] == [] && [a][0] == a;
    assert Run(r, []) == r && CleanRun(r, []);
    assert Run(r, [a]) == Apply(r, a) && (CleanRun(r, [a]) <==> Clean(r, a));
  }

  lemma HandOverEvictionBreaks(r: Room, num: nat, key: Key, evicted: set<Key>, k: Key) returns (later: seq<RoomStep>)
    requires Inv(r) && Enabled(r, Join(num, key, evicted)) && k in evicted && !Idle(r, k)
    ensures var s := Next(r, Join(num, key, evicted)); CleanRun(s, later) && !Exclusive(Run(s, later))
    ensures later == [Join(num + 1, k, {}), Wake(r.table[k])]
  {
    var s := Next(r, Join(num, key, evicted));
    later := [Join(num + 1, k, {}), Wake(r.table[k])];
    EvictedLockSurvives(r, num, key, evicted, k);
    TwoGetIn(s, k, r.table[k]);
    RunTwo(s, Join(num + 1, k, {}), Wake(r.table[k]));
  }

  lemma IdleEvictionKeeps(r: Room, num: nat, key: Key, evicted: set<Key>, later: seq<RoomStep>)
    requires Inv(r) && Enabled(r, Join(num, key, evicted)) && (forall k <- evicted :: Idle(r, k))
    requires CleanRun(Next(r, Join(num, key, evicted)), later)
    ensures Exclusive(Run(Next(r, Join(num, key, evicted)), later))
  {
    JoinKeeps(r, num, key, evicted);
    RunKeeps(Next(r, Join(num, key, evicted)), later);
    InvExcludes(Run(Next(r, Join(num, key, evicted)), later));
  }

  /**
   * A lookup's eviction keeps exclusion over every later run, none of whose own evictions hits a lock in hand-over,
   * exactly when it does not hit one itself.
   */
  lemma EvictionKeepsExclusionIff(r: Room, num: nat, key: Key, evicted: set<Key>)
    requires Inv(r) && Enabled(r, Join(num, key, evicted))
    ensures var s := Next(r, Join(num, key, evicted));
            (forall k <- evicted :: Idle(r, k)) <==>
            (forall later :: CleanRun(s, later) ==> Exclusive(Run(s, later)))
  {
    var s := Next(r, Join(num, key, evicted));
    if k :| k in evicted && !Idle(r, k) {
      var later := HandOverEvictionBreaks(r, num, key, evicted, k);
    } else {
      forall later | CleanRun(s, later) ensures Exclusive(Run(s, later)) {
        IdleEvictionKeeps(r, num, key, evicted, later);
      }
    }
  }

  // ---------------------------------------------------------------- the mutable lock table

  /** The keys idle eviction drops: unused since the cut-off and not locked at this moment. */
  function StaleKeys(table: map<Key, nat>, lastUsed: map<Key, real>, locks: seq<KeyLock>, cutoff: real): set<Key> {
    set k | k in lastUsed && lastUsed[k] < cutoff && k in table && table[k] < |locks| && locks[table[k]].holder.None?
  }

  /** Whatever the times of last use, such a lookup is a `Join` the room allows. */
  lemma StaleEvictionIsEnabled(r: Room, lastUsed: map<Key, real>, num: nat, key: Key, cutoff: real)
    requires key !in r.table && r.next <= num
    ensures Enabled(r, Join(num, key, StaleKeys(r.table, lastUsed, r.locks, cutoff)))
  {
  }

  class KeyLockTable {
    var table: map<Key, nat>
    var lastUsed: map<Key, real>
    var locks: seq<KeyLock>

    constructor ()
      ensures table == map[] && lastUsed == map[] && locks == []
    {
      table, lastUsed, locks := map[], map[], [];
    }

    ghost predicate Valid()
      reads this
    {
      forall k <- table :: table[k] < |locks|
    }

    method EvictIdle(cutoff: real) returns (evicted: set<Key>)
      modifies this
      ensures evicted == StaleKeys(old(table), old(lastUsed), locks, cutoff)
      ensures forall k :: k in evicted <==>
                && k in old(table) && k in old(lastUsed) && old(lastUsed)[k] < cutoff
                && old(table)[k] < |locks| && locks[old(table)[k]].holder.None?
      ensures table == old(table) - evicted && lastUsed == old(lastUsed) - evicted && locks == old(locks)
    {
      evicted := StaleKeys(table, lastUsed, locks, cutoff);
      var toDelete := evicted;
      ghost var gone: set<Key> := {};
      while toDelete != {}
        invariant gone + toDelete == evicted && gone !! toDelete
        invariant table == old(table) - gone && lastUsed == old(lastUsed) - gone && locks == old(locks)
        decreases toDelete
      {
        var k :| k in toDelete;
        table, lastUsed := table - {k}, lastUsed - {k};
        toDelete := toDelete - {k};
        gone := gone + {k};
      }
    }

    /** The time stamp a task leaves when it finalizes, also for a key that has been evicted. */
    method Touch(key: Key, now: real)
      modifies this
      ensures lastUsed == old(lastUsed)[key := now] && table == old(table) && locks == old(locks)
    {
      lastUsed := lastUsed[key := now];
    }

    /** The lookup of a task: evicts only when the key is new and the table is full; the step `Join` models it. */
    method GetKeyLock(key: Key, now: real, idleTtl: real, maxLocks: nat) returns (lock: nat, evicted: set<Key>)
      requires Valid()
      modifies this
      ensures Valid()
      ensures evicted == if key !in old(table) && |old(table)| >= maxLocks
                         then StaleKeys(old(table), old(lastUsed), old(locks), now - idleTtl) else {}
      ensures var after := Lookup(Room(0, old(table), old(locks), map[], []), key, evicted);
              table == after.table && locks == after.locks
      ensures key in table && lock == table[key]
      ensures lastUsed == (old(lastUsed) - evicted)[key := now]
    {
      evicted := {};
      assert table - evicted == table && lastUsed - evicted == lastUsed;
      if key !in table {
        if |table| >= maxLocks {
          evicted := EvictIdle(now - idleTtl);
        }
        assert table == old(table) - evicted && key !in table;
        table := table[key := |locks|];
        locks := locks + [KeyLock(None, [])];
      }
      lock := table[key];
      lastUsed := lastUsed[key := now];
    }
  }
}
