/**
 * The key locks with their times of last use: when idle eviction can hit a lock in hand-over at all. A task stamps its
 * key in the same uninterrupted segment in which it releases the lock, unless it has to wait for the tracker lock in
 * between; only then is the stamp that eviction looks at the one of the lookup.
 */
module LockTimes {
  import opened KeyLocks
  import opened Wrappers

  datatype Limits = Limits(idleTtl: real, maxLocks: nat)

  /** `released` is the history of the last release of each lock. */
  datatype Timed = Timed(room: Room, lastUsed: map<Key, real>, released: map<nat, real>, now: real)

  /** Refresh: the stamp of a release that had to wait for the tracker lock. */
  datatype TimedStep =
    | Lookup(num: nat, key: Key, at: real)
    | HandOver(lock: nat, at: real)
    | Release(num: nat, at: real, contended: bool)
    | Refresh(key: Key, at: real)

  function Start(): Timed {
    Timed(Empty(), map[], map[], 0.0)
  }

  function Evicts(t: Timed, key: Key, at: real, limits: Limits): set<Key> {
    if key in t.room.table || |t.room.table| < limits.maxLocks then {}
    else StaleKeys(t.room.table, t.lastUsed, t.room.locks, at - limits.idleTtl)
  }

  /** What the step does to the room. */
  function RoomStepOf(t: Timed, step: TimedStep, limits: Limits): Option<RoomStep> {
    match step
    case Lookup(num, key, at) => Some(Join(num, key, Evicts(t, key, at, limits)))
    case HandOver(lock, _) => Some(Wake(lock))
    case Release(num, _, _) => Some(Leave(num))
    case Refresh(_, _) => None
  }

  predicate TimedEnabled(t: Timed, step: TimedStep, limits: Limits) {
    var r := RoomStepOf(t, step, limits);
    t.now <= step.at && (r.Some? ==> Enabled(t.room, r.value))
  }

  function TimedNext(t: Timed, step: TimedStep, limits: Limits): Timed
    requires TimedEnabled(t, step, limits)
  {
    match step
    case Lookup(num, key, at) =>
      var evicted := Evicts(t, key, at, limits);
      Timed(Next(t.room, Join(num, key, evicted)), (t.lastUsed - evicted)[key := at], t.released, at)
    case HandOver(lock, at) => Timed(Next(t.room, Wake(lock)), t.lastUsed, t.released, at)
    case Release(num, at, contended) =>
      var ticket := t.room.live[num];
      Timed(Next(t.room, Leave(num)), if contended then t.lastUsed else t.lastUsed[ticket.key := at],
            t.released[ticket.lock := at], at)
    case Refresh(key, at) => t.(lastUsed := t.lastUsed[key := at], now := at)
  }

  function TimedApply(t: Timed, step: TimedStep, limits: Limits): Timed {
    if TimedEnabled(t, step, limits) then TimedNext(t, step, limits) else t
  }

  function TimedRun(t: Timed, steps: seq<TimedStep>, limits: Limits): Timed {
    if steps == [] then t
    else TimedApply(TimedRun(t, steps[..|steps| - 1], limits), steps[|steps| - 1], limits)
  }

  /** The lookup of a newly delivered record always goes through, whatever eviction finds. */
  lemma LookupIsEnabled(t: Timed, num: nat, key: Key, at: real, limits: Limits)
    requires Core(t.room) && t.now <= at && t.room.next <= num
    ensures TimedEnabled(t, Lookup(num, key, at), limits)
  {
    if key !in t.room.table {
      StaleEvictionIsEnabled(t.room, t.lastUsed, num, key, at - limits.idleTtl);
    }
  }

  // ---------------------------------------------------------------- stamped releases and prompt wake-ups are safe

  predicate InHandOver(r: Room, l: nat) {
    l < |r.locks| && r.locks[l].holder.None? && r.locks[l].waiters != []
  }

  /** Every release stamps its key at once, and a released lock is taken by its waiter within the idle time. */
  predicate Prompt(t: Timed, step: TimedStep, limits: Limits) {
    && !(step.Release? && step.contended)
    && (forall l <- t.released :: InHandOver(t.room, l) ==> step.at <= t.released[l] + limits.idleTtl)
  }

  predicate PromptRun(steps: seq<TimedStep>, limits: Limits) {
    steps == [] ||
    (PromptRun(steps[..|steps| - 1], limits) &&
     Prompt(TimedRun(Start(), steps[..|steps| - 1], limits), steps[|steps| - 1], limits))
  }

  /** A key whose lock is being handed over was stamped at the release or later. */
  ghost predicate Stamped(t: Timed) {
    && (forall l <- t.released :: t.released[l] <= t.now)
    && (forall l :: InHandOver(t.room, l) ==> l in t.released)
    && (forall k <- t.room.table :: InHandOver(t.room, t.room.table[k]) ==>
          k in t.lastUsed && t.room.table[k] in t.released && t.released[t.room.table[k]] <= t.lastUsed[k])
  }

  lemma PromptLookupIsClean(t: Timed, key: Key, at: real, limits: Limits)
    requires Inv(t.room) && Stamped(t)
    requires forall l <- t.released :: InHandOver(t.room, l) ==> at <= t.released[l] + limits.idleTtl
    ensures forall k <- Evicts(t, key, at, limits) :: Idle(t.room, k)
  {
    forall k | k in Evicts(t, key, at, limits) ensures Idle(t.room, k) {
      assert Unlocked(t.room, k) && t.lastUsed[k] < at - limits.idleTtl;
    }
  }

  lemma JoinHandsNothingOver(r: Room, num: nat, key: Key, evicted: set<Key>, l: nat)
    requires Inv(r) && Enabled(r, Join(num, key, evicted))
    ensures var s := Next(r, Join(num, key, evicted));
            && (InHandOver(s, l) ==> InHandOver(r, l))
            && (forall k <- s.table :: k !in r.table ==> k == key && s.table[k] == |r.locks|)
            && (forall k <- s.table :: k in r.table && k !in evicted ==> s.table[k] == r.table[k])
  {
  }

  lemma LookupKeepsStamped(t: Timed, step: TimedStep, limits: Limits)
    requires Inv(t.room) && Stamped(t) && step.Lookup? && TimedEnabled(t, step, limits)
    ensures Stamped(TimedNext(t, step, limits))
  {
    var u, evicted := TimedNext(t, step, limits), Evicts(t, step.key, step.at, limits);
    forall l | InHandOver(u.room, l) ensures l in u.released {
      JoinHandsNothingOver(t.room, step.num, step.key, evicted, l);
    }
    forall k | k in u.room.table && InHandOver(u.room, u.room.table[k])
      ensures k in u.lastUsed && u.room.table[k] in u.released && u.released[u.room.table[k]] <= u.lastUsed[k]
    {
      JoinHandsNothingOver(t.room, step.num, step.key, evicted, u.room.table[k]);
      assert k in t.room.table;
    }
  }

  lemma ReleaseKeepsStamped(t: Timed, step: TimedStep, limits: Limits)
    requires Inv(t.room) && Stamped(t) && step.Release? && !step.contended && TimedEnabled(t, step, limits)
    ensures Stamped(TimedNext(t, step, limits))
  {
    var u := TimedNext(t, step, limits);
    var ticket := t.room.live[step.num];
    assert t.room.table[ticket.key] == ticket.lock;
    forall k | k in u.room.table && InHandOver(u.room, u.room.table[k])
      ensures k in u.lastUsed && u.room.table[k] in u.released && u.released[u.room.table[k]] <= u.lastUsed[k]
    {
      if u.room.table[k] == ticket.lock {
        assert k == ticket.key;
      } else {
        assert InHandOver(t.room, t.room.table[k]);
      }
    }
  }

  lemma HandOverKeepsStamped(t: Timed, step: TimedStep, limits: Limits)
    requires Stamped(t) && step.HandOver? && TimedEnabled(t, step, limits)
    ensures Stamped(TimedNext(t, step, limits))
  {
    var u := TimedNext(t, step, limits);
    assert forall l :: InHandOver(u.room, l) ==> InHandOver(t.room, l);
  }

  lemma RefreshKeepsStamped(t: Timed, step: TimedStep, limits: Limits)
    requires Stamped(t) && step.Refresh? && TimedEnabled(t, step, limits)
    ensures Stamped(TimedNext(t, step, limits))
  {
  }

  lemma StepKeepsRoom(t: Timed, step: TimedStep, limits: Limits)
    requires Inv(t.room) && Stamped(t) && Prompt(t, step, limits) && TimedEnabled(t, step, limits)
    ensures Inv(TimedNext(t, step, limits).room)
  {
    match step
    case Lookup(num, key, at) =>
      PromptLookupIsClean(t, key, at, limits);
      JoinKeeps(t.room, num, key, Evicts(t, key, at, limits));
    case HandOver(lock, _) => WakeKeeps(t.room, lock);
    case Release(num, _, _) => LeaveKeeps(t.room, num);
    case Refresh(_, _) =>
  }

  lemma StepKeepsStamped(t: Timed, step: TimedStep, limits: Limits)
    requires Inv(t.room) && Stamped(t) && Prompt(t, step, limits) && TimedEnabled(t, step, limits)
    ensures Stamped(TimedNext(t, step, limits))
  {
    match step
    case Lookup(_, _, _) => LookupKeepsStamped(t, step, limits);
    case HandOver(_, _) => HandOverKeepsStamped(t, step, limits);
    case Release(_, _, _) => ReleaseKeepsStamped(t, step, limits);
    case Refresh(_, _) => RefreshKeepsStamped(t, step, limits);
  }

  lemma {:induction false} RunKeepsStamped(steps: seq<TimedStep>, limits: Limits)
    requires PromptRun(steps, limits)
    ensures var t := TimedRun(Start(), steps, limits); Inv(t.room) && Stamped(t)
  {
    if steps != [] {
      var t, step := TimedRun(Start(), steps[..|steps| - 1], limits), steps[|steps| - 1];
      RunKeepsStamped(steps[..|steps| - 1], limits);
      if TimedEnabled(t, step, limits) {
        StepKeepsRoom(t, step, limits);
        StepKeepsStamped(t, step, limits);
      }
    }
  }

  /**
   * Whatever the table size and the idle time: if no release waits for the tracker lock and every waiter wakes within
   * the idle time, the shipped eviction never breaks exclusion or order.
   */
  lemma PromptRunsExclude(steps: seq<TimedStep>, limits: Limits)
    requires PromptRun(steps, limits)
    ensures var r := TimedRun(Start(), steps, limits).room; Exclusive(r) && EnteredInOrder(r)
  {
    RunKeepsStamped(steps, limits);
    InvExcludes(TimedRun(Start(), steps, limits).room);
  }

  // ---------------------------------------------------------------- the race, with times

  const SMALL := Limits(600.0, 1)
  const A := Shared("a")
  const B := Shared("b")

  /** What a list of steps leads to. */
  predicate Reaches(steps: seq<TimedStep>, t: Timed) {
    TimedRun(Start(), steps, SMALL) == t
  }

  lemma ReachesNext(steps: seq<TimedStep>, t: Timed, step: TimedStep)
    requires Reaches(steps, t)
    ensures Reaches(steps + [step], TimedApply(t, step, SMALL))
  {
    assert (steps + [step])[..|steps|] == steps;
  }

  function Queue(n: nat): Timed
    requires n < 3
  {
    var t := Ticket(A, 0);
    Timed(Room(n + 1, map[A := 0], [KeyLock(Some(0), [1, 2][..n])],
               if n == 0 then map[0 := t] else if n == 1 then map[0 := t, 1 := t] else map[0 := t, 1 := t, 2 := t],
               [Entry(0, A)]),
          map[A := n as real], map[], n as real)
  }

  lemma FirstHolds()
    ensures TimedApply(Start(), Lookup(0, A, 0.0), SMALL) == Queue(0)
  {
    var none: set<Key> := {};
    assert Start().room.table - none == Start().room.table && Start().lastUsed - none == Start().lastUsed;
  }

  lemma OthersQueue(n: nat)
    requires n < 2
    ensures TimedApply(Queue(n), Lookup(n + 1, A, (n + 1) as real), SMALL) == Queue(n + 1)
  {
    var t := Queue(n);
    var none: set<Key> := {};
    assert t.room.table - none == t.room.table && t.lastUsed - none == t.lastUsed;
    assert [1, 2][..n] + [n + 1] == [1, 2][..n + 1];
  }

  function Released(): Timed {
    Timed(Room(3, map[A := 0], [KeyLock(None, [1, 2])], map[1 := Ticket(A, 0), 2 := Ticket(A, 0)], [Entry(0, A)]),
          map[A := 2.0], map[0 := 700.0], 700.0)
  }

  lemma ReleasesLate()
    ensures TimedApply(Queue(2), Release(0, 700.0, true), SMALL) == Released()
  {
    assert [1, 2][..2] == [1, 2];
  }

  function Evicted(): Timed {
    Timed(Room(4, map[B := 1], [KeyLock(None, [1, 2]), KeyLock(Some(3), [])],
               map[1 := Ticket(A, 0), 2 := Ticket(A, 0), 3 := Ticket(B, 1)], [Entry(0, A), Entry(3, B)]),
          map[B := 700.0], map[0 := 700.0], 700.0)
  }

  lemma EvictsDuringHandOver()
    ensures Evicts(Released(), B, 700.0, SMALL) == {A} && !Idle(Released().room, A)
    ensures TimedApply(Released(), Lookup(3, B, 700.0), SMALL) == Evicted()
  {
    var t := Released();
    assert t.room.table.Keys == {A};
    assert StaleKeys(t.room.table, t.lastUsed, t.room.locks, 100.0) == {A};
    assert t.lastUsed - {A} == map[] && t.room.table - {A} == map[];
  }

  function Woken(): Timed {
    Timed(Room(4, map[B := 1], [KeyLock(Some(1), [2]), KeyLock(Some(3), [])],
               map[1 := Ticket(A, 0), 2 := Ticket(A, 0), 3 := Ticket(B, 1)],
               [Entry(0, A), Entry(3, B), Entry(1, A)]),
          map[B := 700.0, A := 700.0], map[0 := 700.0], 700.0)
  }

  lemma WaiterWakes()
    ensures TimedApply(TimedApply(Evicted(), HandOver(0, 700.0), SMALL), Refresh(A, 700.0), SMALL) == Woken()
  {
  }

  function TwoInside(): Timed {
    Timed(Room(5, map[B := 1, A := 2], [KeyLock(Some(1), [2]), KeyLock(Some(3), []), KeyLock(Some(4), [])],
               map[1 := Ticket(A, 0), 2 := Ticket(A, 0), 3 := Ticket(B, 1), 4 := Ticket(A, 2)],
               [Entry(0, A), Entry(3, B), Entry(1, A), Entry(4, A)]),
          map[B := 700.0, A := 700.0], map[0 := 700.0], 700.0)
  }

  lemma NothingStale()
    ensures Evicts(Woken(), A, 700.0, SMALL) == {}
  {
    var t := Woken();
    assert A !in t.room.table && !(t.lastUsed[B] < 100.0);
  }

  lemma SecondGetsIn()
    ensures TimedApply(Woken(), Lookup(4, A, 700.0), SMALL) == TwoInside()
  {
    var t := Woken();
    var none: set<Key> := {};
    NothingStale();
    assert t.room.table - none == t.room.table && t.lastUsed - none == t.lastUsed;
  }

  lemma TwoHold()
    ensures !Exclusive(TwoInside().room)
  {
    var r := TwoInside().room;
    assert Holds(r, 1) && Holds(r, 4) && r.live[1].key == r.live[4].key;
  }

  lemma ThirdComesLate()
    ensures var t := TimedApply(TimedApply(TwoInside(), Release(1, 701.0, false), SMALL), HandOver(0, 701.0), SMALL);
            !EnteredInOrder(t.room)
  {
    var t := TimedApply(TimedApply(TwoInside(), Release(1, 701.0, false), SMALL), HandOver(0, 701.0), SMALL);
    var entered := [Entry(0, A), Entry(3, B), Entry(1, A), Entry(4, A), Entry(2, A)];
    assert t.room.entered == entered;
    assert entered[3].key == entered[4].key && entered[3].num > entered[4].num;
  }

  const QUEUE := [Lookup(0, A, 0.0), Lookup(1, A, 1.0), Lookup(2, A, 2.0)]
  const HAND_OVER := [Release(0, 700.0, true), Lookup(3, B, 700.0), HandOver(0, 700.0), Refresh(A, 700.0)]

  lemma QueueForms()
    ensures Reaches(QUEUE, Queue(2))
  {
    FirstHolds();
    OthersQueue(0);
    OthersQueue(1);
    ReachesNext([], Start(), QUEUE[0]);
    ReachesNext([] + [QUEUE[0]], Queue(0), QUEUE[1]);
    ReachesNext([] + [QUEUE[0]] + [QUEUE[1]], Queue(1), QUEUE[2]);
    assert [] + [QUEUE[0]] + [QUEUE[1]] + [QUEUE[2]] == QUEUE;
  }

  lemma HandOverGoesWrong()
    ensures Reaches(QUEUE + HAND_OVER, Woken())
  {
    var a, b, c, d := HAND_OVER[0], HAND_OVER[1], HAND_OVER[2], HAND_OVER[3];
    QueueForms();
    ReleasesLate();
    ReachesNext(QUEUE, Queue(2), a);
    EvictsDuringHandOver();
    ReachesNext(QUEUE + [a], Released(), b);
    WaiterWakes();
    ReachesNext(QUEUE + [a] + [b], Evicted(), c);
    ReachesNext(QUEUE + [a] + [b] + [c], TimedApply(Evicted(), c, SMALL), d);
    assert QUEUE + [a] + [b] + [c] + [d] == QUEUE + HAND_OVER;
  }

  /**
   * With a table of one lock and ten minutes of idle time: a handler that ran for more than ten minutes with two events
   * of its key queued behind it; its finalize waits for the tracker lock behind the registration of another key, whose
   * lookup runs before the first waiter wakes. The next event of the key, registered after that, gets in at once: two
   * tasks of one key hold a lock. When the first one is done, the second queued event enters after a later delivery.
   */
  lemma ContendedReleaseBreaksExclusion()
    ensures var race := QUEUE + HAND_OVER + [Lookup(4, A, 700.0)];
            && !Exclusive(TimedRun(Start(), race, SMALL).room)
            && var later := race + [Release(1, 701.0, false)] + [HandOver(0, 701.0)];
            && !EnteredInOrder(TimedRun(Start(), later, SMALL).room)
  {
    var race := QUEUE + HAND_OVER + [Lookup(4, A, 700.0)];
    HandOverGoesWrong();
    SecondGetsIn();
    ReachesNext(QUEUE + HAND_OVER, Woken(), Lookup(4, A, 700.0));
    TwoHold();
    ReachesNext(race, TwoInside(), Release(1, 701.0, false));
    ReachesNext(race + [Release(1, 701.0, false)], TimedApply(TwoInside(), Release(1, 701.0, false), SMALL),
                HandOver(0, 701.0));
    ThirdComesLate();
  }
}
