/** Weekly cron schedules and what they fire at. */
module WeeklySchedules {
  import opened Time
  import opened Cron
  import opened Windows

  const HOUR: int := 60 * MINUTE
  const DAY: int := 24 * HOUR
  const WEEK: int := 604_800_000_000_000

  // Offsets in the week of the epoch, which began on a Thursday
  const SATURDAY: int := 2 * DAY
  const SUNDAY: int := 3 * DAY
  const MONDAY: int := 4 * DAY

  /** How far t is past the last instant that lies whole weeks from `first`. */
  function Phase(first: int, t: int): (r: int)
    ensures 0 <= r < WEEK
  {
    (t - first) % WEEK
  }

  lemma PhaseGrows(first: int, t: int, d: int)
    requires 0 <= d < WEEK
    ensures var grown := Phase(first, t) + d;
            Phase(first, t + d) == if grown < WEEK then grown else grown - WEEK
  {
  }

  lemma PhaseOf(first: int, weeks: int, d: int)
    requires 0 <= d < WEEK
    ensures Phase(first, first + weeks * WEEK + d) == d
  {
  }

  lemma PhaseOfOther(a: int, b: int, t: int)
    requires 0 <= b - a < WEEK
    ensures Phase(b, t) == if Phase(a, t) >= b - a then Phase(a, t) - (b - a) else Phase(a, t) - (b - a) + WEEK
  {
  }

  lemma PhaseZeroOnTheMinute(first: int, t: int)
    requires first % MINUTE == 0 && Phase(first, t) == 0
    ensures t % MINUTE == 0
  {
  }

  lemma MinuteRemainder(t: int, minutes: int, r: int)
    requires t == minutes * MINUTE + r && 0 <= r < MINUTE
    ensures t % MINUTE == r
  {
  }

  lemma NextMinute(t: int)
    ensures (t + MINUTE) % MINUTE == t % MINUTE
  {
  }

  lemma WeeklyIsValid(first: int)
    ensures ValidCron(CronSchedule(t => t + WEEK - Phase(first, t)))
  {
    var s := CronSchedule(t => t + WEEK - Phase(first, t));
    forall t, u | t <= u < s.next(t)
      ensures s.next(u) == s.next(t)
    {
      PhaseGrows(first, t, u - t);
    }
  }

  /** Fires once a week, at `first` and whole weeks before and after it. */
  function Weekly(first: int): Schedule {
    WeeklyIsValid(first);
    CronSchedule(t => t + WEEK - Phase(first, t))
  }

  lemma WeeklyFire(first: int, f: int)
    ensures IsFire(Weekly(first), f) <==> Phase(first, f) == 0
  {
    PhaseGrows(first, f - 1, 1);
  }

  lemma WeeklyNext(first: int, weeks: int, t: int)
    requires first + weeks * WEEK <= t < first + weeks * WEEK + WEEK
    ensures Weekly(first).next(t) == first + weeks * WEEK + WEEK
  {
    PhaseOf(first, weeks, t - first - weeks * WEEK);
  }

  lemma WeeklyAlternates(a: int, b: int)
    requires 0 < b - a < WEEK
    ensures Alternating(Weekly(a), Weekly(b)) && Alternating(Weekly(b), Weekly(a))
  {
    forall f | IsFire(Weekly(a), f)
      ensures Weekly(b).next(f) < Weekly(a).next(f)
    {
      WeeklyFire(a, f);
      PhaseOfOther(a, b, f);
    }
    forall q | IsFire(Weekly(b), q)
      ensures Weekly(a).next(q) < Weekly(b).next(q)
    {
      WeeklyFire(b, q);
      PhaseOfOther(a, b, q);
    }
  }

  lemma FireOnTheMinute(first: int, f: int)
    requires first % MINUTE == 0 && IsFire(Weekly(first), f)
    ensures f % MINUTE == 0
  {
    WeeklyFire(first, f);
    PhaseZeroOnTheMinute(first, f);
  }

  /** At most one weekly fire lies strictly within a week. */
  lemma AtMostOneFire(first: int, lo: int, hi: int)
    requires hi <= lo + WEEK
    ensures |FiresBetween(Weekly(first), lo, hi)| <= 1
  {
    var f := Weekly(first).next(lo);
    NextIsFire(Weekly(first), lo);
    WeeklyFire(first, f);
    NextIsFire(Weekly(first), f);
    SubsetSize(FiresBetween(Weekly(first), lo, hi), {f});
  }

  /** After a fire of the one schedule comes the fire of the other, and a week later the next of the first. */
  lemma NextsAfterFire(a: int, b: int, f: int, t: int)
    requires 0 < b - a < WEEK && IsFire(Weekly(a), f) && f <= t < f + (b - a)
    ensures Weekly(a).next(t) == f + WEEK && Weekly(b).next(t) == f + (b - a)
  {
    WeeklyFire(a, f);
    PhaseGrows(a, f, t - f);
    PhaseOfOther(a, b, t);
  }
}
