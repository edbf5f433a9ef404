/** Cron schedules as seen by the controller: a function from an instant to the next fire. */
module Cron {
  import opened Wrappers

  datatype CronSchedule = CronSchedule(next: int -> int)

  /** The next fire lies strictly later, and nothing fires before it. */
  ghost predicate ValidCron(s: CronSchedule) {
    && (forall t :: s.next(t) > t)
    && (forall t, u :: t <= u < s.next(t) ==> s.next(u) == s.next(t))
  }

  type Schedule = s: CronSchedule | ValidCron(s) witness CronSchedule(t => t + 1)

  /** The cron expression parser: None where the expression does not parse. */
  type Parser = string -> Option<Schedule>

  ghost predicate IsFire(s: Schedule, f: int) {
    s.next(f - 1) == f
  }

  /** Every fire strictly between two instants. */
  ghost function FiresBetween(s: Schedule, lo: int, hi: int): set<int> {
    set f | lo < f < hi && IsFire(s, f)
  }

  lemma NextIsFire(s: Schedule, t: int)
    ensures IsFire(s, s.next(t))
    ensures forall f :: t < f < s.next(t) ==> !IsFire(s, f)
  {
  }

  lemma NextBeforeFire(s: Schedule, t: int, f: int)
    requires t < f && IsFire(s, f)
    ensures s.next(t) <= f
  {
  }

  lemma NextMonotone(s: Schedule, t: int, u: int)
    requires t <= u
    ensures s.next(t) <= s.next(u)
  {
  }

  lemma SubsetSize<T>(a: set<T>, b: set<T>)
    requires a <= b
    ensures |a| <= |b|
  {
    assert |b| == |a| + |b - a| by { assert b == a + (b - a); }
  }

  lemma FewerFires(s: Schedule, lo: int, hi: int, lo': int, hi': int)
    requires forall f :: lo < f < hi && IsFire(s, f) ==> lo' < f < hi'
    ensures |FiresBetween(s, lo, hi)| <= |FiresBetween(s, lo', hi')|
  {
    SubsetSize(FiresBetween(s, lo, hi), FiresBetween(s, lo', hi'));
  }

  /** No fire is missed when the first one after lo is not before hi. */
  lemma NoFireBetween(s: Schedule, lo: int, hi: int)
    requires hi <= s.next(lo)
    ensures |FiresBetween(s, lo, hi)| == 0
  {
  }

  /** Stepping over the fire t counts exactly one more missed start. */
  lemma OneMoreStart(s: Schedule, last: int, t: int)
    requires last < t && IsFire(s, t)
    ensures |FiresBetween(s, last, s.next(t))| == |FiresBetween(s, last, t)| + 1
    ensures forall now :: t < now ==> |FiresBetween(s, last, t)| < |FiresBetween(s, last, now)|
  {
    NextIsFire(s, t);
    var before := FiresBetween(s, last, t);
    assert FiresBetween(s, last, s.next(t)) == before + {t};
    forall now | t < now
      ensures |before| < |FiresBetween(s, last, now)|
    {
      SubsetSize(before + {t}, FiresBetween(s, last, now));
    }
  }

  const MAX_MISSED_STARTS := 100

  datatype ScheduleError = Unparseable | LastRunTimeMissing | TooManyMissedStarts

  /** What getNextScheduleTime is for, said without its loop. */
  ghost function NextStart(parse: Parser, schedule: string, lastRunTime: Option<int>, now: int)
    : (r: Result<int, ScheduleError>)
  {
    match parse(schedule)
    case None => Failure(Unparseable)
    case Some(s) =>
      if lastRunTime.None? then Failure(LastRunTimeMissing)
      else if |FiresBetween(s, lastRunTime.value, now)| > MAX_MISSED_STARTS then Failure(TooManyMissedStarts)
      else Success(s.next(now))
  }

  /** Walks over the missed starts, giving up at the 101st. */
  method GetNextScheduleTime(parse: Parser, schedule: string, lastRunTime: Option<int>, now: int)
    returns (r: Result<int, ScheduleError>)
    ensures r == NextStart(parse, schedule, lastRunTime, now)
    ensures r == Failure(Unparseable) <==> parse(schedule).None?
    ensures r == Failure(LastRunTimeMissing) <==> parse(schedule).Some? && lastRunTime.None?
    ensures r == Failure(TooManyMissedStarts) <==>
              && parse(schedule).Some? && lastRunTime.Some?
              && |FiresBetween(parse(schedule).value, lastRunTime.value, now)| > 100
    ensures r.Success? ==>
              && now < r.value && IsFire(parse(schedule).value, r.value)
              && forall f :: now < f < r.value ==> !IsFire(parse(schedule).value, f)
  {
    var parsed := parse(schedule);
    if parsed.None? {
      return Failure(Unparseable);
    }
    var sched := parsed.value;
    if lastRunTime.None? {
      return Failure(LastRunTimeMissing);
    }
    ghost var last := lastRunTime.value;
    ghost var previous := last;
    var starts := 0;
    var t := sched.next(lastRunTime.value);
    NoFireBetween(sched, last, t);
    while t < now
      invariant last <= previous < t == sched.next(previous)
      invariant previous == last || previous < now
      invariant starts == |FiresBetween(sched, last, t)| <= MAX_MISSED_STARTS
      decreases MAX_MISSED_STARTS - starts
    {
      starts := starts + 1;
      NextIsFire(sched, previous);
      OneMoreStart(sched, last, t);
      if starts > MAX_MISSED_STARTS {
        return Failure(TooManyMissedStarts);
      }
      previous, t := t, sched.next(t);
    }
    NextIsFire(sched, previous);
    FewerFires(sched, last, now, last, t);
    return Success(sched.next(now));
  }
}
