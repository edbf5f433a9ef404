/** Concrete inputs on which the automaton departs from its ActiveWindow, and inputs on which it does not. */
module PauseExamples {
  import opened Wrappers
  import opened Time
  import opened Cluster
  import opened Cron
  import opened Windows
  import opened WeeklySchedules
  import opened Pausing
  import opened PauseSafety
  import opened PauseRefinement
  import opened PauseCoherence

  const SUNDAY_AT_8 := "0 8 * * 0"
  const MONDAY_AT_9 := "0 9 * * 1"
  const MONDAY_AT_17 := "0 17 * * 1"
  const SUNDAY_AT_20_15 := "15 20 * * 0"
  const SUNDAY_AT_20_05 := "5 20 * * 0"
  const MONDAY_AT_8 := "0 8 * * 01"
  const NO_SCHEDULE := "61 * * * *"

  /** What the cron expression parser makes of those texts. */
  function ExampleParser(): Parser {
    schedule =>
      if schedule == SUNDAY_AT_8 then Some(Weekly(SUNDAY + 8 * HOUR))
      else if schedule == MONDAY_AT_9 then Some(Weekly(MONDAY + 9 * HOUR))
      else if schedule == MONDAY_AT_17 then Some(Weekly(MONDAY + 17 * HOUR))
      else if schedule == SUNDAY_AT_20_15 then Some(Weekly(SUNDAY + 20 * HOUR + 15 * MINUTE))
      else if schedule == SUNDAY_AT_20_05 then Some(Weekly(SUNDAY + 20 * HOUR + 5 * MINUTE))
      else if schedule == MONDAY_AT_8 then Some(Weekly(MONDAY + 8 * HOUR))
      else None
  }

  lemma TextsDiffer()
    ensures |SUNDAY_AT_8| == |MONDAY_AT_9| == 9 && SUNDAY_AT_8[2] != MONDAY_AT_9[2]
    ensures |MONDAY_AT_17| == |SUNDAY_AT_20_05| == |MONDAY_AT_8| == |NO_SCHEDULE| == 10 && |SUNDAY_AT_20_15| == 11
    ensures MONDAY_AT_17[2] == '1' && MONDAY_AT_8[2] == '8' && SUNDAY_AT_20_05[2] == '2' && NO_SCHEDULE[2] == ' '
  {
  }

  lemma ParsedTexts()
    ensures ExampleParser()(SUNDAY_AT_8) == Some(Weekly(SUNDAY + 8 * HOUR))
    ensures ExampleParser()(MONDAY_AT_9) == Some(Weekly(MONDAY + 9 * HOUR))
    ensures ExampleParser()(MONDAY_AT_17) == Some(Weekly(MONDAY + 17 * HOUR))
    ensures ExampleParser()(SUNDAY_AT_20_15) == Some(Weekly(SUNDAY + 20 * HOUR + 15 * MINUTE))
    ensures ExampleParser()(SUNDAY_AT_20_05) == Some(Weekly(SUNDAY + 20 * HOUR + 5 * MINUTE))
    ensures ExampleParser()(MONDAY_AT_8) == Some(Weekly(MONDAY + 8 * HOUR))
    ensures ExampleParser()(NO_SCHEDULE) == None
  {
    TextsDiffer();
  }

  const IDLE := PauseState(false, None, None, None)

  // One weekly window, one call a minute, two outcomes

  const OFFICE_HOURS := ActiveWindow(MONDAY_AT_9, MONDAY_AT_17)

  function Opening(): Schedule {
    Weekly(MONDAY + 9 * HOUR)
  }

  function Closing(): Schedule {
    Weekly(MONDAY + 17 * HOUR)
  }

  /** A cluster created half a minute before t0. */
  function CreatedFor(t0: int): Environment {
    Environment(ExampleParser(), t0 - 30 * SECOND)
  }

  /** n calls, one a minute, from t0 on. */
  function Minutely(t0: int, n: nat): (calls: seq<int>)
    ensures |calls| == n
  {
    if n == 0 then [] else Minutely(t0, n - 1) + [t0 + (n - 1) * MINUTE]
  }

  lemma MinutelyExtends(t0: int, n: nat)
    requires n > 0
    ensures var calls := Minutely(t0, n);
            && calls[..n - 1] == Minutely(t0, n - 1) && calls[0] == t0 && calls[n - 1] == t0 + (n - 1) * MINUTE
            && (n > 1 ==> calls[n - 1] == calls[n - 2] + MINUTE)
  {
    if n > 1 {
      MinutelyExtends(t0, n - 1);
    }
  }

  lemma MinuteGap(t: int)
    ensures Gap(Opening(), Closing(), t, t + MINUTE)
    ensures FewMissed(Opening(), Closing(), t - 30 * SECOND, t)
  {
    AtMostOneFire(MONDAY + 9 * HOUR, t, t + MINUTE);
    AtMostOneFire(MONDAY + 17 * HOUR, t, t + MINUTE);
    AtMostOneFire(MONDAY + 9 * HOUR, t - 30 * SECOND, t);
    AtMostOneFire(MONDAY + 17 * HOUR, t - 30 * SECOND, t);
  }

  lemma {:induction false} MinutelyGaps(t0: int, n: nat)
    ensures Gaps(Opening(), Closing(), Minutely(t0, n))
  {
    if n > 1 {
      MinutelyExtends(t0, n);
      MinutelyGaps(t0, n - 1);
      MinuteGap(Minutely(t0, n)[n - 2]);
    }
  }

  lemma EarlierOpening(t0: int) returns (g: int)
    ensures IsFire(Opening(), g) && g < t0
  {
    g := Opening().next(t0 - 2 * WEEK);
    NextIsFire(Opening(), t0 - 2 * WEEK);
  }

  lemma OfficeHoursParse(t0: int)
    ensures Parses(OFFICE_HOURS, CreatedFor(t0), Opening(), Closing())
  {
    ParsedTexts();
  }

  lemma OfficeHoursAlternate()
    ensures Alternating(Opening(), Closing())
  {
    WeeklyAlternates(MONDAY + 9 * HOUR, MONDAY + 17 * HOUR);
  }

  lemma MinutelySetting(t0: int, n: nat) returns (g: int)
    requires n > 0
    ensures Setting(IDLE, OFFICE_HOURS, CreatedFor(t0), Opening(), Closing(), g, Minutely(t0, n))
  {
    OfficeHoursParse(t0);
    OfficeHoursAlternate();
    MinutelyExtends(t0, n);
    MinutelyGaps(t0, n);
    MinuteGap(t0);
    g := EarlierOpening(t0);
  }

  /** Half past a minute, when no example schedule fires. */
  predicate BetweenMinutes(t: int) {
    t % MINUTE == 30 * SECOND
  }

  lemma {:induction false} MinutelyBetweenMinutes(t0: int, n: nat)
    requires BetweenMinutes(t0) && n > 0
    ensures BetweenMinutes(Minutely(t0, n)[n - 1])
  {
    MinutelyExtends(t0, n);
    if n > 1 {
      MinutelyBetweenMinutes(t0, n - 1);
      NextMinute(Minutely(t0, n)[n - 2]);
    }
  }

  lemma NotOnAFire(first: int, t: int, now: int)
    requires first % MINUTE == 0 && BetweenMinutes(now)
    ensures now != Weekly(first).next(t)
  {
    NextIsFire(Weekly(first), t);
    FireOnTheMinute(first, Weekly(first).next(t));
  }

  lemma OfficeHoursOnTheMinute()
    ensures (MONDAY + 9 * HOUR) % MINUTE == 0 && (MONDAY + 17 * HOUR) % MINUTE == 0
  {
    MinuteRemainder(MONDAY + 9 * HOUR, 4 * 1440 + 540, 0);
    MinuteRemainder(MONDAY + 17 * HOUR, 4 * 1440 + 1020, 0);
  }

  lemma NextCallMissesFires(last: int)
    requires BetweenMinutes(last)
    ensures last + MINUTE != Opening().next(last) && last + MINUTE != Closing().next(last)
  {
    OfficeHoursOnTheMinute();
    NextMinute(last);
    NotOnAFire(MONDAY + 9 * HOUR, last, last + MINUTE);
    NotOnAFire(MONDAY + 17 * HOUR, last, last + MINUTE);
  }

  lemma MinuteIsShort(last: int)
    requires BetweenMinutes(last)
    ensures ShortGap(Opening(), Closing(), last, last + MINUTE)
  {
    NextCallMissesFires(last);
    forall q | IsFire(Closing(), q)
      ensures MINUTE < Opening().next(q) - q
    {
      WeeklyFire(MONDAY + 17 * HOUR, q);
      PhaseOfOther(MONDAY + 9 * HOUR, MONDAY + 17 * HOUR, q);
    }
  }

  lemma SoonAfterOpening(f: int, now: int)
    requires IsFire(Opening(), f) && f < now < f + MINUTE
    ensures !OpensNext(Opening(), Closing(), now)
  {
    NextsAfterFire(MONDAY + 9 * HOUR, MONDAY + 17 * HOUR, f, now);
  }

  lemma MinuteObservesOpening(last: int)
    requires BetweenMinutes(last)
    ensures !PutInOrder(Opening(), Closing(), last, last + MINUTE)
  {
    NextCallMissesFires(last);
    NextIsFire(Opening(), last);
    if last + MINUTE > Opening().next(last) {
      SoonAfterOpening(Opening().next(last), last + MINUTE);
    }
  }

  lemma {:induction false} MinutelyGapsAreShort(t0: int, n: nat)
    requires BetweenMinutes(t0)
    ensures ShortGaps(Opening(), Closing(), Minutely(t0, n))
  {
    if n > 1 {
      MinutelyExtends(t0, n);
      MinutelyGapsAreShort(t0, n - 1);
      MinutelyBetweenMinutes(t0, n - 1);
      MinuteIsShort(Minutely(t0, n)[n - 2]);
    }
  }

  lemma {:induction false} MinutelyObserves(from: Schedule, to: Schedule, t0: int, n: nat)
    requires BetweenMinutes(t0)
    requires forall last :: BetweenMinutes(last) ==> !PutInOrder(from, to, last, last + MINUTE)
    ensures OpeningsObserved(from, to, Minutely(t0, n))
  {
    if n > 1 {
      MinutelyExtends(t0, n);
      MinutelyObserves(from, to, t0, n - 1);
      MinutelyBetweenMinutes(t0, n - 1);
    }
  }

  lemma MinutelyObservesOpenings(t0: int, n: nat)
    requires BetweenMinutes(t0)
    ensures OpeningsObserved(Opening(), Closing(), Minutely(t0, n))
  {
    forall last | BetweenMinutes(last)
      ensures !PutInOrder(Opening(), Closing(), last, last + MINUTE)
    {
      MinuteObservesOpening(last);
    }
    MinutelyObserves(Opening(), Closing(), t0, n);
  }

  lemma OfficeHoursContain(weeks: nat, t: int)
    requires 9 * HOUR < t - MONDAY - weeks * WEEK < 17 * HOUR
    ensures InWindow(Opening(), Closing(), t)
  {
    var f := MONDAY + 9 * HOUR + weeks * WEEK;
    PhaseOf(MONDAY + 9 * HOUR, weeks, 0);
    WeeklyFire(MONDAY + 9 * HOUR, f);
    WeeklyNext(MONDAY + 17 * HOUR, weeks - 1, f);
    OpenedUntilNextTo(Opening(), Closing(), f, t);
  }

  /** Called every minute, from a time with an opening next, the cluster follows its window for ever. */
  lemma MinutelyFromOutsideAgrees(t0: int, n: nat)
    requires BetweenMinutes(t0) && n > 0 && OpensNext(Opening(), Closing(), t0)
    ensures AgreesThroughout(IDLE, OFFICE_HOURS, CreatedFor(t0), Opening(), Closing(), Minutely(t0, n))
  {
    var g := MinutelySetting(t0, n);
    MinutelyExtends(t0, n);
    MinutelyGapsAreShort(t0, n);
    ShortGapsRefine(IDLE, OFFICE_HOURS, CreatedFor(t0), Opening(), Closing(), g, Minutely(t0, n));
  }

  /** Called every minute, from a time inside a window, the same cluster is paused after every call for ever. */
  lemma MinutelyFromInsideStaysPaused(t0: int, n: nat)
    requires BetweenMinutes(t0) && n > 0 && InWindow(Opening(), Closing(), t0)
    ensures PausedThroughout(IDLE, OFFICE_HOURS, CreatedFor(t0), Minutely(t0, n))
    ensures !AgreesThroughout(IDLE, OFFICE_HOURS, CreatedFor(t0), Opening(), Closing(), Minutely(t0, n))
  {
    var calls := Minutely(t0, n);
    var g := MinutelySetting(t0, n);
    MinutelyExtends(t0, n);
    MinutelyObservesOpenings(t0, n);
    FirstCallInsideNeverOpens(IDLE, OFFICE_HOURS, CreatedFor(t0), Opening(), Closing(), g, calls);
    assert PausedAt(IDLE, OFFICE_HOURS, CreatedFor(t0), calls, 1);
    assert !AgreesAt(IDLE, OFFICE_HOURS, CreatedFor(t0), Opening(), Closing(), calls, 1);
  }

  const BEFORE_OPENING: int := MONDAY + 8 * HOUR + 30 * SECOND
  const INSIDE: int := MONDAY + 11 * HOUR + 30 * SECOND

  lemma StartTimesBetweenMinutes()
    ensures BetweenMinutes(BEFORE_OPENING) && BetweenMinutes(INSIDE)
  {
    MinuteRemainder(BEFORE_OPENING, 4 * 1440 + 480, 30 * SECOND);
    MinuteRemainder(INSIDE, 4 * 1440 + 660, 30 * SECOND);
  }

  lemma OpensAfterEight()
    ensures OpensNext(Opening(), Closing(), BEFORE_OPENING)
  {
    WeeklyNext(MONDAY + 9 * HOUR, -1, BEFORE_OPENING);
    WeeklyNext(MONDAY + 17 * HOUR, -1, BEFORE_OPENING);
  }

  /**
   * Monday nine to five, called every minute: first called an hour before the opening the cluster follows its
   * window for ever, first called two hours after it the cluster is paused for ever, through the windows of
   * every later week.
   */
  lemma FirstCallInsideExample(n: nat)
    requires n > 0
    ensures AgreesThroughout(IDLE, OFFICE_HOURS, CreatedFor(BEFORE_OPENING), Opening(), Closing(),
                             Minutely(BEFORE_OPENING, n))
    ensures PausedThroughout(IDLE, OFFICE_HOURS, CreatedFor(INSIDE), Minutely(INSIDE, n))
    ensures forall weeks: nat :: InWindow(Opening(), Closing(), INSIDE + weeks * WEEK)
  {
    StartTimesBetweenMinutes();
    OpensAfterEight();
    forall weeks: nat
      ensures InWindow(Opening(), Closing(), INSIDE + weeks * WEEK)
    {
      OfficeHoursContain(weeks, INSIDE + weeks * WEEK);
    }
    assert InWindow(Opening(), Closing(), INSIDE + 0 * WEEK);
    MinutelyFromOutsideAgrees(BEFORE_OPENING, n);
    MinutelyFromInsideStaysPaused(INSIDE, n);
  }

  // The closing of an open window

  const AT_TEN: int := MONDAY + 10 * HOUR
  const AT_SEVENTEEN: int := MONDAY + 17 * HOUR

  lemma WeekdayGap(lo: int, hi: int)
    requires lo <= hi <= lo + DAY
    ensures Gap(Opening(), Closing(), lo, hi)
  {
    AtMostOneFire(MONDAY + 9 * HOUR, lo, hi);
    AtMostOneFire(MONDAY + 17 * HOUR, lo, hi);
  }

  lemma ClosesAfterTen()
    ensures Closing().next(BEFORE_OPENING) == Closing().next(AT_TEN) == AT_SEVENTEEN
    ensures OpensNext(Opening(), Closing(), BEFORE_OPENING)
    ensures InWindow(Opening(), Closing(), AT_TEN)
  {
    OpensAfterEight();
    WeeklyNext(MONDAY + 17 * HOUR, -1, BEFORE_OPENING);
    WeeklyNext(MONDAY + 17 * HOUR, -1, AT_TEN);
    OfficeHoursContain(0, AT_TEN);
  }

  const CLOSING_CALLS := [BEFORE_OPENING, AT_TEN, AT_SEVENTEEN]

  lemma ThreeCalls(from: Schedule, to: Schedule, a: int, b: int, c: int)
    requires Gap(from, to, a, b) && Gap(from, to, b, c)
    ensures Gaps(from, to, [a, b, c])
  {
    assert [a, b, c][..2] == [a, b];
    assert Gaps(from, to, [a, b]);
  }

  lemma ClosingCallsGaps()
    ensures Gaps(Opening(), Closing(), CLOSING_CALLS)
  {
    WeekdayGap(BEFORE_OPENING, AT_TEN);
    WeekdayGap(AT_TEN, AT_SEVENTEEN);
    ThreeCalls(Opening(), Closing(), BEFORE_OPENING, AT_TEN, AT_SEVENTEEN);
  }

  lemma ClosingCallsSetting() returns (g: int)
    ensures Setting(IDLE, OFFICE_HOURS, CreatedFor(BEFORE_OPENING), Opening(), Closing(), g, CLOSING_CALLS)
  {
    OfficeHoursParse(BEFORE_OPENING);
    OfficeHoursAlternate();
    MinuteGap(BEFORE_OPENING);
    ClosingCallsGaps();
    g := EarlierOpening(BEFORE_OPENING);
  }

  lemma InOrderAtTen()
    ensures InOrder(Opening(), Closing(), CLOSING_CALLS[..2])
  {
    ClosesAfterTen();
    assert CLOSING_CALLS[..2] == [BEFORE_OPENING, AT_TEN] && CLOSING_CALLS[..2][..1] == [BEFORE_OPENING];
  }

  /** Called before the opening, inside the window and exactly at its closing, the cluster ends unpaused outside it. */
  lemma CallOnClosingExample()
    ensures !Run(IDLE, OFFICE_HOURS, CreatedFor(BEFORE_OPENING), CLOSING_CALLS).paused
    ensures !InWindow(Opening(), Closing(), AT_SEVENTEEN)
  {
    var g := ClosingCallsSetting();
    InOrderAtTen();
    ClosesAfterTen();
    ClosingLiesOutside(Opening(), Closing(), AT_TEN);
    assert OnOwnClosing(Opening(), Closing(), CLOSING_CALLS);
    LastCallUnpausedExactly(IDLE, OFFICE_HOURS, CreatedFor(BEFORE_OPENING), Opening(), Closing(), g, CLOSING_CALLS);
  }

  // Edits of the window

  /** A cluster created at the epoch, first called two and a half days later. */
  const EXAMPLE := Environment(ExampleParser(), 0)
  const NOON: int := SATURDAY + 12 * HOUR

  const SUNDAYS := ActiveWindow(SUNDAY_AT_8, SUNDAY_AT_20_15)
  const SUNDAYS_PAIR := PauseState(true, Some(SUNDAY + 8 * HOUR), Some(SUNDAY + 20 * HOUR + 15 * MINUTE),
                                   Some(WindowHash(SUNDAYS)))

  lemma ExampleRefresh(schedule: string, first: int)
    requires ExampleParser()(schedule) == Some(Weekly(first)) && NOON < first < WEEK
    ensures Refreshed(None, schedule, EXAMPLE, NOON) == Success(first)
  {
    WeeklyNext(first, -1, 0);
    WeeklyNext(first, -1, NOON);
    NoFireBetween(Weekly(first), 0, NOON);
  }

  lemma FirstSundayCall()
    ensures Step(IDLE, SUNDAYS, EXAMPLE, NOON) == SUNDAYS_PAIR
    ensures !ForcedHalfway(Edited(Some(SUNDAYS), IDLE), EXAMPLE, Call(NOON))
  {
    ParsedTexts();
    ExampleRefresh(SUNDAY_AT_8, SUNDAY + 8 * HOUR);
    ExampleRefresh(SUNDAY_AT_20_15, SUNDAY + 20 * HOUR + 15 * MINUTE);
  }

  lemma HistoryOfOneMore(st: Edited, env: Environment, events: seq<PauseCoherence.Event>, e: PauseCoherence.Event)
    ensures History(st, env, events + [e]) == Apply(History(st, env, events), env, e)
    ensures NeverHalfway(st, env, events + [e]) <==>
              NeverHalfway(st, env, events) && !ForcedHalfway(History(st, env, events), env, e)
  {
  }

  lemma HistoryOfThree(st: Edited, env: Environment, a: PauseCoherence.Event, b: PauseCoherence.Event,
                       c: PauseCoherence.Event)
    ensures var st1 := Apply(st, env, a);
            var st2 := Apply(st1, env, b);
            && History(st, env, [a, b, c]) == Apply(st2, env, c)
            && (NeverHalfway(st, env, [a, b, c]) <==>
                  !ForcedHalfway(st, env, a) && !ForcedHalfway(st1, env, b) && !ForcedHalfway(st2, env, c))
  {
    HistoryOfOneMore(st, env, [], a);
    HistoryOfOneMore(st, env, [a], b);
    HistoryOfOneMore(st, env, [a, b], c);
    assert [] + [a] == [a] && [a] + [b] == [a, b] && [a, b] + [c] == [a, b, c];
  }

  const MONDAY_TO_SUNDAY := ActiveWindow(MONDAY_AT_8, SUNDAY_AT_20_05)
  const LATE_SUNDAY: int := SUNDAY + 20 * HOUR + 10 * MINUTE

  lemma JoinedAlike()
    ensures WindowHash(SUNDAYS) == WindowHash(MONDAY_TO_SUNDAY)
  {
    assert MONDAY_AT_8 == SUNDAY_AT_8 + "1" && SUNDAY_AT_20_15 == "1" + SUNDAY_AT_20_05;
    assert SUNDAY_AT_8 + ("1" + SUNDAY_AT_20_05) == (SUNDAY_AT_8 + "1") + SUNDAY_AT_20_05;
  }

  lemma LateSundayIsOutside()
    ensures !InWindow(Weekly(MONDAY + 8 * HOUR), Weekly(SUNDAY + 20 * HOUR + 5 * MINUTE), LATE_SUNDAY)
  {
    var from, to := MONDAY + 8 * HOUR, SUNDAY + 20 * HOUR + 5 * MINUTE;
    WeeklyAlternates(to, from);
    PhaseOf(from, -1, 0);
    WeeklyFire(from, from - WEEK);
    WeeklyNext(from, -1, LATE_SUNDAY);
    WeeklyNext(to, 0, LATE_SUNDAY);
    InWindowIffClosesNext(Weekly(from), Weekly(to), from - WEEK, LATE_SUNDAY);
  }

  lemma SundayIsNotMonday(d: int)
    requires 0 < d < WEEK
    ensures !IsFire(Weekly(SUNDAY + 8 * HOUR), SUNDAY + 8 * HOUR + d)
    ensures !IsFire(Weekly(SUNDAY + 8 * HOUR + d), SUNDAY + 8 * HOUR)
  {
    PhaseOf(SUNDAY + 8 * HOUR, 0, d);
    WeeklyFire(SUNDAY + 8 * HOUR, SUNDAY + 8 * HOUR + d);
    PhaseOf(SUNDAY + 8 * HOUR + d, -1, WEEK - d);
    WeeklyFire(SUNDAY + 8 * HOUR + d, SUNDAY + 8 * HOUR);
  }

  lemma CallAfterHiddenEdit()
    ensures Step(SUNDAYS_PAIR, MONDAY_TO_SUNDAY, EXAMPLE, LATE_SUNDAY) == SUNDAYS_PAIR.(paused := false)
    ensures !ForcedHalfway(Edited(Some(MONDAY_TO_SUNDAY), SUNDAYS_PAIR), EXAMPLE, Call(LATE_SUNDAY))
  {
    JoinedAlike();
  }

  lemma HiddenEditIsIncoherent()
    ensures !CoherentFor(SUNDAYS_PAIR, MONDAY_TO_SUNDAY, EXAMPLE)
  {
    JoinedAlike();
    ParsedTexts();
    SundayIsNotMonday(DAY);
  }

  /**
   * Two windows that join to the same text: the edit goes unnoticed, and the cluster is unpaused by the
   * window it had, outside the one it has.
   */
  lemma EqualJoinsHideAnEdit()
    ensures var st := Edited(Some(SUNDAYS), IDLE);
            var events := [Call(NOON), Edit(Some(MONDAY_TO_SUNDAY)), Call(LATE_SUNDAY)];
            && NeverHalfway(st, EXAMPLE, events)
            && History(st, EXAMPLE, events) == Edited(Some(MONDAY_TO_SUNDAY), SUNDAYS_PAIR.(paused := false))
            && !CoherentFor(SUNDAYS_PAIR, MONDAY_TO_SUNDAY, EXAMPLE)
            && !InActiveWindow(MONDAY_TO_SUNDAY, EXAMPLE, LATE_SUNDAY)
  {
    FirstSundayCall();
    CallAfterHiddenEdit();
    HiddenEditIsIncoherent();
    HistoryOfThree(Edited(Some(SUNDAYS), IDLE), EXAMPLE, Call(NOON), Edit(Some(MONDAY_TO_SUNDAY)), Call(LATE_SUNDAY));
    assert !InActiveWindow(MONDAY_TO_SUNDAY, EXAMPLE, LATE_SUNDAY) by {
      ParsedTexts();
      LateSundayIsOutside();
    }
  }

  const HALF_VALID := ActiveWindow(MONDAY_AT_9, NO_SCHEDULE)
  const HALF := SUNDAYS_PAIR.(nextUnpause := Some(MONDAY + 9 * HOUR), nextPause := None)
  const MIXED := SUNDAYS_PAIR.(nextUnpause := Some(MONDAY + 9 * HOUR))

  lemma JoinedDifferently()
    ensures WindowHash(SUNDAYS) != WindowHash(HALF_VALID)
  {
    TextsDiffer();
    assert WindowHash(SUNDAYS)[2] == SUNDAY_AT_8[2] && WindowHash(HALF_VALID)[2] == MONDAY_AT_9[2];
  }

  lemma HalfwayCall()
    ensures Step(SUNDAYS_PAIR, HALF_VALID, EXAMPLE, NOON) == HALF
    ensures Mixes(Edited(Some(HALF_VALID), SUNDAYS_PAIR), EXAMPLE, Call(NOON), SUNDAYS)
  {
    JoinedDifferently();
    ParsedTexts();
    ExampleRefresh(MONDAY_AT_9, MONDAY + 9 * HOUR);
    SundayIsNotMonday(DAY + HOUR);
  }

  lemma CallBackOnSundays()
    ensures Step(HALF, SUNDAYS, EXAMPLE, NOON) == MIXED
    ensures !CoherentFor(MIXED, SUNDAYS, EXAMPLE)
  {
    ParsedTexts();
    ExampleRefresh(SUNDAY_AT_20_15, SUNDAY + 20 * HOUR + 15 * MINUTE);
    SundayIsNotMonday(DAY + HOUR);
  }

  const FORTH: seq<PauseCoherence.Event> := [Call(NOON), Edit(Some(HALF_VALID)), Call(NOON)]
  const FORTH_AND_BACK: seq<PauseCoherence.Event> := FORTH + [Edit(Some(SUNDAYS))] + [Call(NOON)]

  lemma ForthAndBackDistinct()
    ensures DistinctHashes(Edited(Some(SUNDAYS), IDLE), FORTH_AND_BACK)
  {
    JoinedDifferently();
  }

  /** A forced recalculation that stops halfway: back on the old window, NextUnpause is not one of its fires. */
  lemma ForcedHalfwayMixesWindows()
    ensures DistinctHashes(Edited(Some(SUNDAYS), IDLE), FORTH_AND_BACK)
    ensures Mixes(Edited(Some(HALF_VALID), SUNDAYS_PAIR), EXAMPLE, Call(NOON), SUNDAYS)
    ensures History(Edited(Some(SUNDAYS), IDLE), EXAMPLE, FORTH_AND_BACK) == Edited(Some(SUNDAYS), MIXED)
    ensures !CoherentFor(MIXED, SUNDAYS, EXAMPLE)
  {
    var st := Edited(Some(SUNDAYS), IDLE);
    ForthAndBackDistinct();
    FirstSundayCall();
    HalfwayCall();
    CallBackOnSundays();
    HistoryOfThree(st, EXAMPLE, Call(NOON), Edit(Some(HALF_VALID)), Call(NOON));
    HistoryOfOneMore(st, EXAMPLE, FORTH, Edit(Some(SUNDAYS)));
    HistoryOfOneMore(st, EXAMPLE, FORTH + [Edit(Some(SUNDAYS))], Call(NOON));
  }
}
