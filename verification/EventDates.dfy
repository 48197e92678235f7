/**
 * The event-date extractor: which day a date mention means, relative to the time the mail was read, and how the
 * mentions of a text become a list of events. What the regular expressions find is an arbitrary list of matches.
 */
module EventDates {
  import opened Calendar
  import StableSort
  import opened Wrappers

  /** A `datetime` as day number and time of day; `Clock` is one with its civil date. */
  datatype Moment = Moment(day: int, micros: int)

  datatype Clock = Clock(date: Date, micros: int)

  /** NoDate: the mention is dropped. RangeError: an OverflowError leaves the extractor. */
  datatype Outcome<+T> = Found(value: T) | NoDate | RangeError

  /** Monday is 0. */
  type Day = d: int | 0 <= d < 7

  datatype Match =
    | MonthDay(month: int, day: int, written: Option<nat>)
    | Numeric(month: int, day: int, written: Option<nat>)
    | Iso(year: nat, month: int, day: int)
    | WeekdayName(target: Day, next: bool)
    | Tomorrow
    | Today
    | Weekend(next: bool)
    | InDays(days: nat)

  /** A resolved match with its place in the text. */
  datatype Mention = Mention(at: Moment, position: nat)

  predicate ValidClock(c: Clock) {
    ValidDate(c.date) && 0 <= c.micros < DAY_MICROS
  }

  function At(c: Clock): Moment
    requires ValidClock(c)
  {
    Moment(Ordinal(c.date), c.micros)
  }

  function Midnight(d: Date): Moment
    requires ValidDate(d)
  {
    Moment(Ordinal(d), 0)
  }

  predicate Earlier(a: Moment, b: Moment) {
    a.day < b.day || (a.day == b.day && a.micros < b.micros)
  }

  function PlusDays(m: Moment, days: int): Outcome<Moment> {
    if 1 <= m.day + days <= LAST_DAY then Found(Moment(m.day + days, m.micros)) else RangeError
  }

  // ---------------------------------------------------------------- month and day, with or without a year

  const MAX_PAST := 60

  function DateOrNone(d: Date): Outcome<Date> {
    if ValidDate(d) then Found(d) else NoDate
  }

  /** More than 60 days before the reference time. */
  predicate Stale(d: Date, now: Clock)
    requires ValidDate(d) && ValidClock(now)
  {
    Earlier(Midnight(d), Moment(Ordinal(now.date) - MAX_PAST, now.micros))
  }

  /** A year written as 0000 or 00 is falsy and counts as not written. */
  function ResolveMonthDay(month: int, day: int, year: Option<nat>, now: Clock): Outcome<Date>
    requires ValidClock(now)
  {
    if year.Some? && year.value != 0 then DateOrNone(Date(year.value, month, day))
    else
      var candidate := Date(now.date.year, month, day);
      if !ValidDate(candidate) then NoDate
      else if PlusDays(At(now), -MAX_PAST).RangeError? then RangeError
      else if Stale(candidate, now) then DateOrNone(candidate.(year := now.date.year + 1))
      else Found(candidate)
  }

  lemma SameYearIsClose(a: Date, b: Date)
    requires ValidDate(a) && ValidDate(b) && a.year == b.year
    ensures -365 <= Ordinal(a) - Ordinal(b) <= 365
  {
    WithinYear(a);
    WithinYear(b);
  }

  /** A stale date of this year comes back next year within the window. */
  lemma NextYearIsNear(d: Date, now: Clock)
    requires ValidDate(d) && ValidClock(now) && Stale(d, now) && ValidDate(d.(year := d.year + 1))
    requires d.year == now.date.year
    ensures var e := d.(year := d.year + 1);
            && !Earlier(Midnight(e), Moment(Ordinal(now.date) - 60, now.micros))
            && Earlier(Midnight(e), Moment(Ordinal(now.date) + 366, now.micros))
  {
    SameYearIsClose(d, now.date);
    SameDayApart(d, 1);
    OrdinalOrder(now.date, d.(year := d.year + 1));
  }

  /** The beginning of that day is more than 60 days before the reference time. */
  predicate LongGone(day: int, now: Clock)
    requires ValidClock(now)
  {
    day + 60 < Ordinal(now.date) || (day + 60 == Ordinal(now.date) && 0 < now.micros)
  }

  /**
   * A date without a year keeps its month and day, lies between 60 days before and less than 366 days after the
   * reference time, and is the first such date of the reference year or later.
   */
  lemma YearInference(month: int, day: int, now: Clock)
    requires ValidClock(now) && ResolveMonthDay(month, day, None, now).Found?
    ensures var d := ResolveMonthDay(month, day, None, now).value;
            && ValidDate(d) && d.month == month && d.day == day
            && !Earlier(Midnight(d), Moment(Ordinal(now.date) - 60, now.micros))
            && Earlier(Midnight(d), Moment(Ordinal(now.date) + 366, now.micros))
            && (forall y :: now.date.year <= y < d.year && ValidDate(d.(year := y)) ==>
                  LongGone(Ordinal(d.(year := y)), now))
  {
    var d := ResolveMonthDay(month, day, None, now).value;
    var candidate := Date(now.date.year, month, day);
    if d != candidate {
      NextYearIsNear(candidate, now);
    } else {
      SameYearIsClose(candidate, now.date);
    }
  }

  /**
   * The inferred date is the first one not more than 60 days past exactly when last year's is further back than that:
   * the year never rolls backwards, so a January mail cannot mean a date of last December.
   */
  lemma FirstInWindowIff(month: int, day: int, now: Clock)
    requires ValidClock(now) && ResolveMonthDay(month, day, None, now).Found?
    ensures var d := ResolveMonthDay(month, day, None, now).value;
            var lastYear := d.(year := now.date.year - 1);
            (forall y :: ValidDate(d.(year := y)) && !Stale(d.(year := y), now) ==> d.year <= y) <==>
            (ValidDate(lastYear) ==> Stale(lastYear, now))
  {
    YearInference(month, day, now);
    var d := ResolveMonthDay(month, day, None, now).value;
    var lastYear := d.(year := now.date.year - 1);
    if ValidDate(lastYear) ==> Stale(lastYear, now) {
      forall y | ValidDate(d.(year := y)) && y < d.year ensures Stale(d.(year := y), now) {
        if y < now.date.year - 1 {
          LongPast(d.(year := y), now);
        }
      }
    }
  }

  /** At noon of 10 January 2026, "December 20" means next December although the last one is only 21 days past. */
  lemma JanuaryMailSkipsLastDecember()
    ensures var now := Clock(Date(2026, 1, 10), DAY_MICROS / 2);
            && ValidClock(now)
            && ResolveMonthDay(12, 20, None, now) == Found(Date(2026, 12, 20))
            && ValidDate(Date(2025, 12, 20)) && !Stale(Date(2025, 12, 20), now)
            && Ordinal(now.date) - Ordinal(Date(2025, 12, 20)) == 21
  {
    var y := 2025;
    assert !IsLeap(y) && !IsLeap(y + 1);
    YearStep(y);
    YearsApart(1, y);
  }

  lemma LongPast(d: Date, now: Clock)
    requires ValidDate(d) && ValidClock(now) && d.year < now.date.year - 1
    ensures Stale(d, now)
  {
    WithinYear(d);
    WithinYear(now.date);
    YearStep(d.year);
    YearsApart(d.year + 1, now.date.year);
    YearsApart(d.year + 2, now.date.year);
    YearStep(d.year + 1);
  }

  /**
   * Exactly when a mention without a year raises, and when it is dropped: the day does not exist in the reference year,
   * or it is stale and next year has no such day, which means the 29th of February or the end of the calendar.
   */
  lemma DroppedIff(month: int, day: int, now: Clock)
    requires ValidClock(now) && 1 <= month <= 12 && 1 <= day <= 31
    ensures ResolveMonthDay(month, day, None, now).RangeError? <==>
              day <= DaysInMonth(now.date.year, month) && Ordinal(now.date) <= 60
    ensures ResolveMonthDay(month, day, None, now).NoDate? <==>
              || (day > DaysInMonth(now.date.year, month))
              || (Ordinal(now.date) > 60 && Stale(Date(now.date.year, month, day), now) &&
                  ((month == 2 && day == 29) || now.date.year == 9999))
  {
    OrdinalRange(now.date);
    var candidate := Date(now.date.year, month, day);
    if ValidDate(candidate) && Stale(candidate, now) {
      var next := candidate.(year := now.date.year + 1);
      assert ValidDate(next) <==> next.year <= 9999 && day <= DaysInMonth(next.year, month);
      if month == 2 && day == 29 {
        LeapYearsApart(now.date.year);
      }
    }
  }

  lemma LeapYearsApart(y: int)
    requires IsLeap(y)
    ensures !IsLeap(y + 1)
  {
  }

  // ---------------------------------------------------------------- weekdays and weekends

  /**
   * A plain weekday is the one such day among the next seven; with "next" it is the one in the calendar week after
   * this one, which is the same day exactly when the weekday is not still to come this week.
   */
  function ResolveWeekday(target: Day, next: bool, now: Moment): (r: Outcome<Moment>)
    ensures !r.NoDate? && (1 <= now.day <= LAST_DAY - 13 ==> r.Found?)
    ensures r.Found? ==> Weekday(r.value.day) == target && r.value.micros == now.micros
    ensures r.Found? && next ==> WeekStart(r.value.day) == WeekStart(now.day) + 7
    ensures r.Found? && next ==> (r.value.day <= now.day + 7 <==> target <= Weekday(now.day))
    ensures r.Found? && !next ==> now.day < r.value.day <= now.day + 7
  {
    var ahead := target - Weekday(now.day);
    var days := if next || ahead <= 0 then ahead + 7 else ahead;
    WeekdayPlus(now.day, days);
    PlusDays(now, days)
  }

  /**
   * The one Saturday among the seven days from today on, and with "next" the one after it. That is the Saturday of
   * this or of next week, except on a Sunday, when even "this weekend" is already six days off.
   */
  function ResolveWeekend(next: bool, now: Moment): (r: Outcome<Moment>)
    ensures !r.NoDate? && (1 <= now.day <= LAST_DAY - 13 ==> r.Found?)
    ensures r.Found? ==>
              var d := if next then r.value.day - 7 else r.value.day;
              && r.value.micros == now.micros && Weekday(d) == 5
              && now.day <= d < now.day + 7
              && (WeekStart(d) == WeekStart(now.day) <==> Weekday(now.day) != 6)
  {
    var ahead := 5 - Weekday(now.day);
    var days := if ahead < 0 then ahead + 7 else ahead;
    WeekdayPlus(now.day, days);
    PlusDays(now, days + if next then 7 else 0)
  }

  // ---------------------------------------------------------------- all mentions of a text

  function ExpandYear(written: Option<nat>): Option<nat> {
    if written.Some? && 0 < written.value < 100 then Some(written.value + 2000) else written
  }

  function ToMidnight(o: Outcome<Date>): Outcome<Moment>
    requires o.Found? ==> ValidDate(o.value)
  {
    match o
    case Found(d) => Found(Midnight(d))
    case NoDate => NoDate
    case RangeError => RangeError
  }

  function ResolveMatch(m: Match, now: Clock): Outcome<Moment>
    requires ValidClock(now)
  {
    match m
    case MonthDay(month, day, year) =>
      if 1 <= day <= 31 then ToMidnight(ResolveMonthDay(month, day, year, now)) else NoDate
    case Numeric(month, day, year) =>
      if 1 <= month <= 12 && 1 <= day <= 31 then ToMidnight(ResolveMonthDay(month, day, ExpandYear(year), now))
      else NoDate
    case Iso(year, month, day) => ToMidnight(DateOrNone(Date(year, month, day)))
    case WeekdayName(target, next) => ResolveWeekday(target, next, At(now))
    case Tomorrow => PlusDays(At(now), 1)
    case Today => Found(At(now))
    case Weekend(next) => ResolveWeekend(next, At(now))
    case InDays(days) => if days <= 365 then PlusDays(At(now), days) else NoDate
  }

  predicate HasYear(m: Match) {
    m.Iso? || ((m.MonthDay? || m.Numeric?) && m.written.Some? && m.written.value != 0)
  }

  /** Whatever is written without a year resolves to a time from 60 days ago to less than 366 days ahead. */
  lemma InferredIsNear(m: Match, now: Clock)
    requires ValidClock(now) && !HasYear(m) && ResolveMatch(m, now).Found?
    ensures var at := ResolveMatch(m, now).value;
            && !Earlier(at, Moment(Ordinal(now.date) - 60, now.micros))
            && Earlier(at, Moment(Ordinal(now.date) + 366, now.micros))
  {
    if m.MonthDay? || m.Numeric? {
      assert ResolveMonthDay(m.month, m.day, m.written, now) == ResolveMonthDay(m.month, m.day, None, now);
      YearInference(m.month, m.day, now);
    }
  }

  /** The midnight of that day, or nothing if there is no such day. */
  ghost predicate IsDateOrNothing(o: Outcome<Moment>, year: int, month: int, day: int) {
    var d := Date(year, month, day);
    if ValidDate(d) then o == Found(Moment(Ordinal(d), 0)) else o == NoDate
  }

  /** A date with its year means that day; two-digit years of numeric dates are in this century. */
  lemma WrittenYears(month: int, day: int, year: nat, now: Clock)
    requires ValidClock(now)
    ensures IsDateOrNothing(ResolveMatch(Iso(year, month, day), now), year, month, day)
    ensures 0 < year ==>
              IsDateOrNothing(ResolveMatch(MonthDay(month, day, Some(year)), now), year, month, day)
    ensures 100 <= year ==>
              IsDateOrNothing(ResolveMatch(Numeric(month, day, Some(year)), now), year, month, day)
    ensures 0 < year < 100 ==>
              IsDateOrNothing(ResolveMatch(Numeric(month, day, Some(year)), now), 2000 + year, month, day)
  {
  }

  /** A date without a year, or with the year 0, means the midnight of the inferred day. */
  lemma UnwrittenYears(m: Match, now: Clock)
    requires ValidClock(now) && (m.MonthDay? || m.Numeric?) && !HasYear(m)
    ensures var o, inferred := ResolveMatch(m, now), ResolveMonthDay(m.month, m.day, None, now);
            if inferred.Found? then o == Found(Midnight(inferred.value))
            else if inferred.RangeError? then o == RangeError
            else o == NoDate
  {
  }

  /** Relative days are counted from the reference time and keep its time of day; at most 365 days ahead. */
  lemma RelativeDays(days: nat, now: Clock)
    requires ValidClock(now)
    ensures ResolveMatch(Today, now) == Found(Moment(Ordinal(now.date), now.micros))
    ensures ResolveMatch(Tomorrow, now) ==
            if Ordinal(now.date) < LAST_DAY then Found(Moment(Ordinal(now.date) + 1, now.micros)) else RangeError
    ensures 365 < days ==> ResolveMatch(InDays(days), now) == NoDate
    ensures days <= 365 ==>
              var day := Ordinal(now.date) + days;
              ResolveMatch(InDays(days), now) ==
              if day <= LAST_DAY then Found(Moment(day, now.micros)) else RangeError
  {
    OrdinalRange(now.date);
  }

  predicate Fits(matches: seq<Match>, now: Clock)
    requires ValidClock(now)
  {
    forall m <- matches :: !ResolveMatch(m, now).RangeError?
  }

  /** The resolved matches in order, each with the index of its match. */
  function Mentions(matches: seq<Match>, now: Clock): seq<Mention>
    requires ValidClock(now)
  {
    if matches == [] then []
    else
      var k := |matches| - 1;
      var o := ResolveMatch(matches[k], now);
      Mentions(matches[..k], now) + if o.Found? then [Mention(o.value, k)] else []
  }

  /** Exactly the matches that mean a time are mentioned, in their order, each with its time and place. */
  lemma {:induction false} MentionsAreTheFound(matches: seq<Match>, now: Clock)
    requires ValidClock(now)
    ensures var ms := Mentions(matches, now);
            && (forall k :: 0 <= k < |ms| ==>
                  ms[k].position < |matches| && ResolveMatch(matches[ms[k].position], now) == Found(ms[k].at))
            && (forall j, k :: 0 <= j < k < |ms| ==> ms[j].position < ms[k].position)
            && (forall i :: 0 <= i < |matches| && ResolveMatch(matches[i], now).Found? ==>
                  exists m <- ms :: m.position == i)
  {
    if matches != [] {
      var n := |matches| - 1;
      MentionsAreTheFound(matches[..n], now);
      var init, ms := Mentions(matches[..n], now), Mentions(matches, now);
      assert forall k :: 0 <= k < |init| ==> ms[k] == init[k];
      forall i | 0 <= i < |matches| && ResolveMatch(matches[i], now).Found? ensures exists m <- ms :: m.position == i {
        if i < n {
          assert matches[..n][i] == matches[i];
          var m :| m in init && m.position == i;
          assert m in ms;
        } else {
          assert ms[|init|] in ms;
        }
      }
    }
  }

  method FindAllDates(matches: seq<Match>, now: Clock) returns (dates: Option<seq<Mention>>)
    requires ValidClock(now)
    ensures dates == if Fits(matches, now) then Some(Mentions(matches, now)) else None
  {
    var found: seq<Mention> := [];
    for i := 0 to |matches|
      invariant Fits(matches[..i], now) && found == Mentions(matches[..i], now)
    {
      assert matches[..i + 1][..i] == matches[..i] && matches[..i + 1] == matches[..i] + [matches[i]];
      match ResolveMatch(matches[i], now)
      case Found(at) => found := found + [Mention(at, i)];
      case NoDate =>
      case RangeError =>
        assert matches[i] in matches;
        return None;
    }
    assert matches[..|matches|] == matches;
    return Some(found);
  }

  // ---------------------------------------------------------------- one event per day, in order

  predicate HasDay(ms: seq<Mention>, day: int) {
    exists m <- ms :: m.at.day == day
  }

  /** The first mention of each day, in order of mention. */
  function FirstOfDays(ms: seq<Mention>): seq<Mention> {
    if ms == [] then []
    else
      var k := |ms| - 1;
      FirstOfDays(ms[..k]) + if HasDay(ms[..k], ms[k].at.day) then [] else [ms[k]]
  }

  function SortKey(m: Mention): int {
    m.at.day * DAY_MICROS + m.at.micros
  }

  lemma HasDaySnoc(ms: seq<Mention>, m: Mention, day: int)
    ensures HasDay(ms + [m], day) <==> HasDay(ms, day) || m.at.day == day
  {
    assert m in ms + [m] && forall n <- ms :: n in ms + [m];
  }

  /** The loop that skips the days it has seen. */
  method SkipSeenDays(ms: seq<Mention>) returns (kept: seq<Mention>)
    ensures kept == FirstOfDays(ms)
  {
    var seen: set<int> := {};
    kept := [];
    for i := 0 to |ms|
      invariant kept == FirstOfDays(ms[..i])
      invariant forall d :: d in seen <==> HasDay(ms[..i], d)
    {
      assert ms[..i + 1][..i] == ms[..i] && ms[..i + 1] == ms[..i] + [ms[i]];
      forall d ensures HasDay(ms[..i + 1], d) <==> HasDay(ms[..i], d) || ms[i].at.day == d {
        HasDaySnoc(ms[..i], ms[i], d);
      }
      if ms[i].at.day !in seen {
        seen := seen + {ms[i].at.day};
        kept := kept + [ms[i]];
      }
    }
    assert ms[..|ms|] == ms;
  }

  method ExtractEventDates(matches: seq<Match>, now: Clock) returns (events: Option<seq<Mention>>)
    requires ValidClock(now)
    ensures events == if Fits(matches, now) then Some(StableSort.Sort(SortKey, FirstOfDays(Mentions(matches, now))))
                      else None
  {
    var dates := FindAllDates(matches, now);
    if dates.None? {
      return None;
    }
    var kept := SkipSeenDays(dates.value);
    return Some(StableSort.Sort(SortKey, kept));
  }

  /** m is the first mention of its day. */
  ghost predicate IsFirst(ms: seq<Mention>, m: Mention) {
    exists i :: 0 <= i < |ms| && ms[i] == m && !HasDay(ms[..i], m.at.day)
  }

  ghost predicate DistinctDays(ms: seq<Mention>) {
    forall i, j :: 0 <= i < j < |ms| ==> ms[i].at.day != ms[j].at.day
  }

  lemma {:induction false} FirstOfDaysFacts(ms: seq<Mention>)
    ensures DistinctDays(FirstOfDays(ms))
    ensures forall m :: m in FirstOfDays(ms) <==> IsFirst(ms, m)
    ensures forall day :: HasDay(FirstOfDays(ms), day) <==> HasDay(ms, day)
  {
    if ms != [] {
      var init, last := ms[..|ms| - 1], ms[|ms| - 1];
      FirstOfDaysFacts(init);
      assert ms == init + [last];
      forall m ensures IsFirst(ms, m) <==> IsFirst(init, m) || (m == last && !HasDay(init, last.at.day)) {
        FirstSnoc(init, last, m);
      }
      forall day ensures HasDay(ms, day) <==> HasDay(init, day) || last.at.day == day {
      }
    }
  }

  lemma FirstSnoc(init: seq<Mention>, last: Mention, m: Mention)
    ensures IsFirst(init + [last], m) <==> IsFirst(init, m) || (m == last && !HasDay(init, last.at.day))
  {
    var ms := init + [last];
    assert ms[..|init|] == init;
    assert forall i :: 0 <= i < |init| ==> ms[..i] == init[..i] && ms[i] == init[i];
    if IsFirst(init, m) {
      var i :| 0 <= i < |init| && init[i] == m && !HasDay(init[..i], m.at.day);
      assert ms[i] == m;
    }
    if m == last && !HasDay(init, last.at.day) {
      assert ms[|init|] == m;
    }
  }

  lemma {:induction false} DistinctOnce(ms: seq<Mention>, m: Mention)
    requires DistinctDays(ms)
    ensures multiset(ms)[m] <= 1
  {
    if ms != [] {
      var init, last := ms[..|ms| - 1], ms[|ms| - 1];
      DistinctOnce(init, m);
      assert ms == init + [last];
      assert last !in init;
    }
  }

  /** Reordering a list of distinct days keeps them distinct. */
  lemma ReorderedStaysDistinct(kept: seq<Mention>, events: seq<Mention>)
    requires DistinctDays(kept) && multiset(events) == multiset(kept)
    ensures DistinctDays(events)
  {
    forall i, j | 0 <= i < j < |events| ensures events[i].at.day != events[j].at.day {
      var a, b := events[i], events[j];
      assert a in multiset(events) && b in multiset(events);
      assert a in kept && b in kept;
      DistinctOnce(kept, a);
      assert events == events[..j] + events[j..];
      assert a in multiset(events[..j]) && b in multiset(events[j..]);
    }
  }

  lemma {:induction false} MentionTimes(matches: seq<Match>, now: Clock)
    requires ValidClock(now)
    ensures forall m <- Mentions(matches, now) :: 0 <= m.at.micros < DAY_MICROS
  {
    if matches != [] {
      MentionTimes(matches[..|matches| - 1], now);
    }
  }

  lemma SortedDaysIncrease(events: seq<Mention>)
    requires StableSort.SortedBy(SortKey, events) && DistinctDays(events)
    requires forall m <- events :: 0 <= m.at.micros < DAY_MICROS
    ensures forall i, j :: 0 <= i < j < |events| ==> events[i].at.day < events[j].at.day
  {
    forall i, j | 0 <= i < j < |events| ensures events[i].at.day < events[j].at.day {
      assert SortKey(events[i]) <= SortKey(events[j]);
    }
  }

  /**
   * The events are on strictly increasing calendar days; they are exactly the first mentions of their days; and no
   * mentioned day is missing.
   */
  lemma EventsByDay(matches: seq<Match>, now: Clock)
    requires ValidClock(now)
    ensures var ms := Mentions(matches, now);
            var events := StableSort.Sort(SortKey, FirstOfDays(ms));
            && (forall i, j :: 0 <= i < j < |events| ==> events[i].at.day < events[j].at.day)
            && (forall m :: m in events <==> IsFirst(ms, m))
            && (forall day :: HasDay(events, day) <==> HasDay(ms, day))
  {
    var ms := Mentions(matches, now);
    var kept := FirstOfDays(ms);
    var events := StableSort.Sort(SortKey, kept);
    FirstOfDaysFacts(ms);
    StableSort.SortSorts(SortKey, kept);
    MentionTimes(matches, now);
    forall m ensures m in events <==> m in kept {
      assert m in events <==> m in multiset(events);
    }
    assert forall m <- kept :: m in ms;
    ReorderedStaysDistinct(kept, events);
    SortedDaysIncrease(events);
  }
}
