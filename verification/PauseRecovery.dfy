/** When a pair of times that both have to be found anew is found, and when the cluster stays paused for good. */
module PauseRecovery {
  import opened Wrappers
  import opened Cluster
  import opened Cron
  import opened Pausing

  /** The time missed starts are counted from. */
  function CountedFrom(cached: Option<int>, env: Environment): int {
    if cached.Some? then cached.value else env.created
  }

  /** The time is absent or has passed, so a call at `now` has to find the next one. */
  predicate Passed(cached: Option<int>, now: int) {
    cached.None? || cached.value < now
  }

  /** The next time can be found: the schedule parses and at most 100 of its fires were missed. */
  ghost predicate Findable(cached: Option<int>, schedule: string, env: Environment, now: int) {
    && env.parse(schedule).Some?
    && |FiresBetween(env.parse(schedule).value, CountedFrom(cached, env), now)| <= MAX_MISSED_STARTS
  }

  /** Once a passed time cannot be found, it never can be again. */
  lemma UnfindableStays(cached: Option<int>, schedule: string, env: Environment, now: int, later: int)
    requires now <= later && !Findable(cached, schedule, env, now)
    ensures !Findable(cached, schedule, env, later)
  {
    if env.parse(schedule).Some? {
      var lo := CountedFrom(cached, env);
      FewerFires(env.parse(schedule).value, lo, now, lo, later);
    }
  }

  lemma UnfindableFails(cached: Option<int>, schedule: string, env: Environment, now: int)
    requires Passed(cached, now) && !Findable(cached, schedule, env, now)
    ensures Refreshed(cached, schedule, env, now).Failure?
  {
  }

  /** A NextUnpause that cannot be found freezes the pair and keeps the cluster paused. */
  lemma {:induction false} LostUnpauseFreezes(s: PauseState, w: ActiveWindow, env: Environment, calls: seq<int>)
    requires calls != [] && Ascending(calls)
    requires Passed(Invalidated(s, w).nextUnpause, calls[0]) && Passed(Invalidated(s, w).nextPause, calls[0])
    requires !Findable(Invalidated(s, w).nextUnpause, w.from, env, calls[0])
    ensures Run(s, w, env, calls) == Invalidated(s, w).(paused := true)
  {
    var n := |calls| - 1;
    var i := Invalidated(s, w);
    if n > 0 {
      LostUnpauseFreezes(s, w, env, calls[..n]);
      assert calls[0] <= calls[n];
    } else {
      assert Run(s, w, env, calls[..0]) == s;
    }
    UnfindableStays(i.nextUnpause, w.from, env, calls[0], calls[n]);
    UnfindableFails(i.nextUnpause, w.from, env, calls[n]);
  }

  /** A NextPause that cannot be found stays as it is and keeps the cluster paused. */
  lemma {:induction false} LostPauseFreezes(s: PauseState, w: ActiveWindow, env: Environment, calls: seq<int>)
    requires calls != [] && Ascending(calls)
    requires Passed(Invalidated(s, w).nextPause, calls[0])
    requires !Findable(Invalidated(s, w).nextPause, w.to, env, calls[0])
    ensures var r := Run(s, w, env, calls);
            r.paused && r.nextPause == Invalidated(s, w).nextPause && r.hash == s.hash
  {
    var n := |calls| - 1;
    var i := Invalidated(s, w);
    if n > 0 {
      LostPauseFreezes(s, w, env, calls[..n]);
      assert calls[0] <= calls[n];
    } else {
      assert Run(s, w, env, calls[..0]) == s;
    }
    UnfindableStays(i.nextPause, w.to, env, calls[0], calls[n]);
    UnfindableFails(i.nextPause, w.to, env, calls[n]);
  }

  /** Both times are cached under the hash of the window, and lie later than t. */
  ghost predicate FoundAfter(s: PauseState, w: ActiveWindow, t: int) {
    && s.hash == Some(WindowHash(w))
    && s.nextUnpause.Some? && s.nextUnpause.value > t
    && s.nextPause.Some? && s.nextPause.value > t
  }

  lemma FoundAtOnce(s: PauseState, w: ActiveWindow, env: Environment, now: int)
    requires Passed(Invalidated(s, w).nextUnpause, now) && Passed(Invalidated(s, w).nextPause, now)
    requires Findable(Invalidated(s, w).nextUnpause, w.from, env, now)
    requires Findable(Invalidated(s, w).nextPause, w.to, env, now)
    ensures FoundAfter(Step(s, w, env, now), w, now)
  {
  }

  /** A refreshed time never moves back. */
  lemma RefreshedIsLater(cached: Option<int>, schedule: string, env: Environment, t: int, now: int)
    requires cached.Some? && cached.value > t
    ensures var r := Refreshed(cached, schedule, env, now); r.Success? ==> r.value > t
  {
  }

  lemma StepKeepsFound(s: PauseState, w: ActiveWindow, env: Environment, t: int, now: int)
    requires FoundAfter(s, w, t)
    ensures FoundAfter(Step(s, w, env, now), w, t)
  {
    RefreshedIsLater(s.nextUnpause, w.from, env, t, now);
    RefreshedIsLater(s.nextPause, w.to, env, t, now);
  }

  /** Both times found at the first call stay found. */
  lemma {:induction false} FoundPairStays(s: PauseState, w: ActiveWindow, env: Environment, calls: seq<int>)
    requires calls != []
    requires Passed(Invalidated(s, w).nextUnpause, calls[0]) && Passed(Invalidated(s, w).nextPause, calls[0])
    requires Findable(Invalidated(s, w).nextUnpause, w.from, env, calls[0])
    requires Findable(Invalidated(s, w).nextPause, w.to, env, calls[0])
    ensures FoundAfter(Run(s, w, env, calls), w, calls[0])
  {
    var n := |calls| - 1;
    if n > 0 {
      FoundPairStays(s, w, env, calls[..n]);
      StepKeepsFound(Run(s, w, env, calls[..n]), w, env, calls[0], calls[n]);
    } else {
      assert Run(s, w, env, calls[..0]) == s;
      FoundAtOnce(s, w, env, calls[0]);
    }
  }

  /** Whether the pair is found after the k-th call. */
  ghost predicate FoundAt(s: PauseState, w: ActiveWindow, env: Environment, calls: seq<int>, k: int)
    requires 0 < k <= |calls|
  {
    FoundAfter(Run(s, w, env, calls[..k]), w, calls[0])
  }

  /** Whether the cluster is paused after the k-th call, with NextPause still what it was. */
  ghost predicate LostAt(s: PauseState, w: ActiveWindow, env: Environment, calls: seq<int>, k: int)
    requires 0 < k <= |calls|
  {
    var r := Run(s, w, env, calls[..k]);
    r.paused && r.nextPause == Invalidated(s, w).nextPause
  }

  ghost predicate FoundThroughout(s: PauseState, w: ActiveWindow, env: Environment, calls: seq<int>) {
    forall k :: 0 < k <= |calls| ==> FoundAt(s, w, env, calls, k)
  }

  ghost predicate LostThroughout(s: PauseState, w: ActiveWindow, env: Environment, calls: seq<int>) {
    forall k :: 0 < k <= |calls| ==> LostAt(s, w, env, calls, k)
  }

  /** Both next times can be found at this call. */
  ghost predicate BothFindable(i: PauseState, w: ActiveWindow, env: Environment, now: int) {
    Findable(i.nextUnpause, w.from, env, now) && Findable(i.nextPause, w.to, env, now)
  }

  lemma LostPrefix(s: PauseState, w: ActiveWindow, env: Environment, calls: seq<int>, k: int)
    requires 0 < k <= |calls| && Ascending(calls)
    requires Passed(Invalidated(s, w).nextUnpause, calls[0]) && Passed(Invalidated(s, w).nextPause, calls[0])
    requires !BothFindable(Invalidated(s, w), w, env, calls[0])
    ensures LostAt(s, w, env, calls, k)
  {
    if !Findable(Invalidated(s, w).nextUnpause, w.from, env, calls[0]) {
      LostUnpauseFreezes(s, w, env, calls[..k]);
    } else {
      LostPauseFreezes(s, w, env, calls[..k]);
    }
  }

  /**
   * Recovery from any state whose two times are both absent or past at the first call, over every run
   * from there: the pair is found, and stays found, if and only if both schedules parse and at most 100
   * fires of each were missed at that first call; otherwise the cluster is paused after every call and
   * NextPause never moves.
   */
  lemma RecoversExactlyWhenFewMissed(s: PauseState, w: ActiveWindow, env: Environment, calls: seq<int>)
    requires calls != [] && Ascending(calls)
    requires Passed(Invalidated(s, w).nextUnpause, calls[0]) && Passed(Invalidated(s, w).nextPause, calls[0])
    ensures FoundThroughout(s, w, env, calls) <==> BothFindable(Invalidated(s, w), w, env, calls[0])
    ensures LostThroughout(s, w, env, calls) <==> !BothFindable(Invalidated(s, w), w, env, calls[0])
  {
    forall k | 0 < k <= |calls|
      ensures BothFindable(Invalidated(s, w), w, env, calls[0]) ==> FoundAt(s, w, env, calls, k)
      ensures !BothFindable(Invalidated(s, w), w, env, calls[0]) ==> LostAt(s, w, env, calls, k)
    {
      if BothFindable(Invalidated(s, w), w, env, calls[0]) {
        FoundPairStays(s, w, env, calls[..k]);
      } else {
        LostPrefix(s, w, env, calls, k);
      }
    }
    FoundIsNotLost(s, w, env, calls);
  }

  lemma FoundIsNotLost(s: PauseState, w: ActiveWindow, env: Environment, calls: seq<int>)
    requires calls != [] && Passed(Invalidated(s, w).nextPause, calls[0])
    ensures !FoundAt(s, w, env, calls, 1) || !LostAt(s, w, env, calls, 1)
  {
  }

  /** Both times are cached after every call. */
  ghost predicate CachedThroughout(s: PauseState, w: ActiveWindow, env: Environment, calls: seq<int>) {
    forall k :: 0 < k <= |calls| ==> CachedAt(s, w, env, calls, k)
  }

  ghost predicate CachedAt(s: PauseState, w: ActiveWindow, env: Environment, calls: seq<int>, k: int)
    requires 0 < k <= |calls|
  {
    var r := Run(s, w, env, calls[..k]);
    r.nextUnpause.Some? && r.nextPause.Some?
  }

  /** A cluster without cached times gets both exactly when few fires were missed since its creation. */
  lemma FirstPairAppearsExactlyWhenFewMissed(s: PauseState, w: ActiveWindow, env: Environment, calls: seq<int>)
    requires s.nextUnpause.None? && s.nextPause.None?
    requires calls != [] && Ascending(calls)
    ensures CachedThroughout(s, w, env, calls) <==>
              Findable(None, w.from, env, calls[0]) && Findable(None, w.to, env, calls[0])
  {
    assert Invalidated(s, w) == s;
    RecoversExactlyWhenFewMissed(s, w, env, calls);
    if BothFindable(s, w, env, calls[0]) {
      assert forall k :: 0 < k <= |calls| && FoundAt(s, w, env, calls, k) ==> CachedAt(s, w, env, calls, k);
    } else {
      assert LostAt(s, w, env, calls, 1) && !CachedAt(s, w, env, calls, 1);
    }
  }

  /** More than 100 fires of either schedule missed since creation keep the cluster paused for good. */
  lemma TooManyMissedStaysPaused(s: PauseState, w: ActiveWindow, env: Environment, calls: seq<int>)
    requires s.nextUnpause.None? && s.nextPause.None?
    requires calls != [] && Ascending(calls)
    requires !Findable(None, w.from, env, calls[0]) || !Findable(None, w.to, env, calls[0])
    ensures var r := Run(s, w, env, calls);
            && r.paused && r.nextPause.None?
            && (!Findable(None, w.from, env, calls[0]) ==> r.nextUnpause.None?)
  {
    if !Findable(None, w.from, env, calls[0]) {
      LostUnpauseFreezes(s, w, env, calls);
    } else {
      LostPauseFreezes(s, w, env, calls);
    }
  }
}
