/** Safety of the automaton with no assumption on the schedules or on when it is called. */
module PauseSafety {
  import opened Wrappers
  import opened Cluster
  import opened Cron
  import opened Windows
  import opened Pausing

  ghost predicate InActiveWindow(w: ActiveWindow, env: Environment, now: int) {
    env.parse(w.from).Some? && env.parse(w.to).Some?
    && InWindow(env.parse(w.from).value, env.parse(w.to).value, now)
  }

  /** A cached time is a fire of its schedule. */
  ghost predicate FireOf(cached: Option<int>, schedule: string, env: Environment) {
    cached.Some? ==> env.parse(schedule).Some? && IsFire(env.parse(schedule).value, cached.value)
  }

  /** It is, and while still pending it is the next one after the last call. */
  ghost predicate CachedFire(cached: Option<int>, schedule: string, env: Environment, last: int) {
    && FireOf(cached, schedule, env)
    && (cached.Some? && cached.value > last ==> env.parse(schedule).value.next(last) == cached.value)
  }

  /** Both cached times are fires, and no To fire separates NextUnpause from a later NextPause. */
  ghost predicate PairOf(s: PauseState, w: ActiveWindow, env: Environment) {
    && FireOf(s.nextUnpause, w.from, env)
    && FireOf(s.nextPause, w.to, env)
    && (s.nextUnpause.Some? && s.nextPause.Some? && s.nextUnpause.value < s.nextPause.value ==>
          env.parse(w.to).value.next(s.nextUnpause.value) == s.nextPause.value)
  }

  ghost predicate CacheInvariant(s: PauseState, w: ActiveWindow, env: Environment, last: int) {
    && PairOf(s, w, env)
    && CachedFire(s.nextUnpause, w.from, env, last)
    && CachedFire(s.nextPause, w.to, env, last)
  }

  /** An unpaused cluster with both times cached: its opening lies before the last call, or no window is pending. */
  ghost predicate OpeningPassed(s: PauseState, last: int) {
    !s.paused && s.nextUnpause.Some? && s.nextPause.Some? ==>
      s.nextUnpause.value < last || s.nextPause.value <= s.nextUnpause.value
  }

  /** A refreshed time is a fire not before now, and the next one unless it is now. */
  lemma RefreshedIsNext(cached: Option<int>, schedule: string, env: Environment, last: int, now: int)
    requires last <= now
    requires CachedFire(cached, schedule, env, last)
    ensures var r := Refreshed(cached, schedule, env, now);
            r.Success? ==>
              && env.parse(schedule).Some?
              && IsFire(env.parse(schedule).value, r.value)
              && r.value >= now
              && (r.value > now ==> env.parse(schedule).value.next(now) == r.value)
  {
  }

  lemma RecalculateKeepsCacheInvariant(s: PauseState, w: ActiveWindow, env: Environment, last: int, now: int)
    requires CacheInvariant(s, w, env, last) && last <= now
    requires s.nextUnpause.Some? && s.nextPause.Some? ==> now >= s.nextUnpause.value && now >= s.nextPause.value
    ensures CacheInvariant(Recalculate(s, w, env, now), w, env, now)
  {
    RefreshedIsNext(s.nextUnpause, w.from, env, last, now);
    RefreshedIsNext(s.nextPause, w.to, env, last, now);
    var u := Refreshed(s.nextUnpause, w.from, env, now);
    var p := Refreshed(s.nextPause, w.to, env, now);
    if u.Success? && p.Success? && u.value < p.value {
      assert env.parse(w.to).value.next(u.value) == p.value;
    }
  }

  /** A pending pair stays as it is until the clock passes a cached time. */
  lemma WaitingKeepsCacheInvariant(s: PauseState, w: ActiveWindow, env: Environment, last: int, now: int)
    requires CacheInvariant(s, w, env, last) && last <= now
    ensures CacheInvariant(s, w, env, now)
  {
  }

  lemma StepKeepsCacheInvariant(s: PauseState, w: ActiveWindow, env: Environment, last: int, now: int)
    requires CacheInvariant(s, w, env, last) && last <= now
    ensures CacheInvariant(Step(s, w, env, now), w, env, now)
  {
    var i := Invalidated(s, w);
    WaitingKeepsCacheInvariant(i, w, env, last, now);
    if i.nextUnpause.None? || i.nextPause.None? || now > i.nextPause.value {
      if i.nextUnpause.None? || i.nextPause.None? || now >= i.nextUnpause.value {
        RecalculateKeepsCacheInvariant(i.(paused := true), w, env, last, now);
      }
    } else if now >= i.nextUnpause.value && now == i.nextPause.value {
      RecalculateKeepsCacheInvariant(i, w, env, last, now);
    }
  }

  lemma StepKeepsOpeningPassed(s: PauseState, w: ActiveWindow, env: Environment, last: int, now: int)
    requires OpeningPassed(s, last) && last <= now
    ensures OpeningPassed(Step(s, w, env, now), now)
  {
  }

  /**
   * A call that leaves the cluster unpaused lies in a window, except exactly on NextPause, where it never
   * does; times kept under another hash are not looked at.
   */
  lemma StepUnpausesExactlyInWindow(s: PauseState, w: ActiveWindow, env: Environment, last: int, now: int)
    requires s.hash == Some(WindowHash(w)) ==> PairOf(s, w, env)
    requires OpeningPassed(s, last) && last <= now
    requires !Step(s, w, env, now).paused
    ensures InActiveWindow(w, env, now) <==> s.nextPause != Some(now)
  {
    var from, to := env.parse(w.from).value, env.parse(w.to).value;
    if s.nextPause == Some(now) {
      assert forall f :: OpenedBy(from, to, f, now) ==> !IsFire(to, now);
    } else {
      OpenedUntilNextTo(from, to, s.nextUnpause.value, now);
      assert OpenedBy(from, to, s.nextUnpause.value, now);
    }
  }

  lemma {:induction false} RunKeepsCacheInvariant(s: PauseState, w: ActiveWindow, env: Environment, calls: seq<int>)
    requires s.nextUnpause.None? && s.nextPause.None?
    requires calls != [] && Ascending(calls)
    ensures CacheInvariant(Run(s, w, env, calls), w, env, calls[|calls| - 1])
  {
    var n := |calls| - 1;
    if n == 0 {
      assert Run(s, w, env, calls[..0]) == s;
      StepKeepsCacheInvariant(s, w, env, calls[0], calls[0]);
    } else {
      RunKeepsCacheInvariant(s, w, env, calls[..n]);
      StepKeepsCacheInvariant(Run(s, w, env, calls[..n]), w, env, calls[n - 1], calls[n]);
    }
  }

  lemma {:induction false} RunKeepsOpeningPassed(s: PauseState, w: ActiveWindow, env: Environment, calls: seq<int>)
    requires s.nextUnpause.None? && s.nextPause.None?
    requires calls != [] && Ascending(calls)
    ensures OpeningPassed(Run(s, w, env, calls), calls[|calls| - 1])
  {
    var n := |calls| - 1;
    if n > 0 {
      RunKeepsOpeningPassed(s, w, env, calls[..n]);
      StepKeepsOpeningPassed(Run(s, w, env, calls[..n]), w, env, calls[n - 1], calls[n]);
    }
  }

  /**
   * Unpause safety over every run, for any schedules and any call times: a call that leaves the cluster
   * unpaused lies in an active window if and only if it does not fall exactly on NextPause.
   */
  lemma UnpauseSafety(s: PauseState, w: ActiveWindow, env: Environment, calls: seq<int>)
    requires s.nextUnpause.None? && s.nextPause.None?
    requires calls != [] && Ascending(calls)
    requires !Run(s, w, env, calls).paused
    ensures var n := |calls| - 1;
            InActiveWindow(w, env, calls[n]) <==> Run(s, w, env, calls[..n]).nextPause != Some(calls[n])
  {
    var n := |calls| - 1;
    if n > 0 {
      RunKeepsCacheInvariant(s, w, env, calls[..n]);
      RunKeepsOpeningPassed(s, w, env, calls[..n]);
      StepUnpausesExactlyInWindow(Run(s, w, env, calls[..n]), w, env, calls[n - 1], calls[n]);
    }
  }
}
