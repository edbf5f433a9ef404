/** Why the controller's own pause patches do not keep it awake. */
module PauseQuiescence {
  import opened Wrappers
  import opened Cluster
  import opened Cron
  import opened Pausing
  import opened PauseSafety
  import opened SveltosClusterPredicates

  /** The call falls exactly on the closing of a window that is still open in Spec.Paused. */
  ghost predicate OnOpenClosing(s: PauseState, w: ActiveWindow, env: Environment, now: int) {
    && s.hash == Some(WindowHash(w))
    && !s.paused
    && s.nextPause == Some(now)
    && s.nextUnpause.Some? && s.nextUnpause.value < now
    && Refreshed(s.nextUnpause, w.from, env, now).Success?
  }

  /**
   * At a fixed clock reading a second call changes nothing, except on the closing of an open window:
   * there the first call keeps Paused and the second sets it.
   */
  lemma IdempotentExactlyOffOpenClosing(s: PauseState, w: ActiveWindow, env: Environment, now: int)
    ensures Step(Step(s, w, env, now), w, env, now) == Step(s, w, env, now) <==> !OnOpenClosing(s, w, env, now)
    ensures OnOpenClosing(s, w, env, now) ==>
              !Step(s, w, env, now).paused && Step(Step(s, w, env, now), w, env, now).paused
  {
  }

  lemma HandleSettlesInTwo(s: PauseState, window: Option<ActiveWindow>, env: Environment, now: int)
    ensures var s1 := Handle(s, window, env, now);
            var s2 := Handle(s1, window, env, now);
            Handle(s2, window, env, now) == s2 && (s1.paused == s.paused || s2 == s1)
  {
    if window.Some? {
      var w := window.value;
      IdempotentExactlyOffOpenClosing(s, w, env, now);
      IdempotentExactlyOffOpenClosing(Step(s, w, env, now), w, env, now);
    }
  }

  /** A reconcile's effect on the pause state at a fixed clock reading. */
  type Call = PauseState -> PauseState

  /** k calls in a row at the same clock reading. */
  ghost function Repeat(call: Call, s: PauseState, k: nat): PauseState {
    if k == 0 then s else call(Repeat(call, s, k - 1))
  }

  /** Whether the patch from one pause state to the next passes the event filter. */
  predicate Passes(spec: ClusterSpec, deletion: Option<int>, before: PauseState, after: PauseState) {
    UpdateFunc(Some(Snapshot(deletion, spec.(paused := before.paused))),
               Snapshot(deletion, spec.(paused := after.paused)))
  }

  lemma PassesExactlyWhenPausedChanges(spec: ClusterSpec, deletion: Option<int>, before: PauseState, after: PauseState)
    ensures Passes(spec, deletion, before, after) <==> before.paused != after.paused
  {
  }

  /** How many of those k calls leave a patch the event filter lets through. */
  ghost function PassingPatches(spec: ClusterSpec, deletion: Option<int>, call: Call, s: PauseState, k: nat): nat {
    if k == 0 then 0
    else
      PassingPatches(spec, deletion, call, s, k - 1)
      + (if Passes(spec, deletion, Repeat(call, s, k - 1), Repeat(call, s, k)) then 1 else 0)
  }

  /** The call changes Paused at most in one of two repetitions, and the third changes nothing. */
  ghost predicate SettlesInTwo(call: Call, s: PauseState) {
    && call(call(call(s))) == call(call(s))
    && (call(s).paused == s.paused || call(call(s)) == call(s))
  }

  lemma {:induction false} RepeatSettles(call: Call, s: PauseState, k: nat)
    requires SettlesInTwo(call, s) && k >= 2
    ensures Repeat(call, s, k) == call(call(s))
  {
    if k == 2 {
      assert Repeat(call, s, 1) == call(Repeat(call, s, 0));
    } else {
      RepeatSettles(call, s, k - 1);
    }
  }

  lemma {:induction false} SettlingPassesOnce(spec: ClusterSpec, deletion: Option<int>, call: Call, s: PauseState,
        k: nat)
    requires SettlesInTwo(call, s)
    ensures PassingPatches(spec, deletion, call, s, k) <= 1
    ensures k >= 2 ==> PassingPatches(spec, deletion, call, s, k) == PassingPatches(spec, deletion, call, s, 2)
  {
    if k >= 3 {
      SettlingPassesOnce(spec, deletion, call, s, k - 1);
      RepeatSettles(call, s, k - 1);
      RepeatSettles(call, s, k);
      PassesExactlyWhenPausedChanges(spec, deletion, Repeat(call, s, k - 1), Repeat(call, s, k));
    } else {
      assert Repeat(call, s, 0) == s && Repeat(call, s, 1) == call(s) && Repeat(call, s, 2) == call(call(s));
      PassesExactlyWhenPausedChanges(spec, deletion, s, call(s));
      PassesExactlyWhenPausedChanges(spec, deletion, call(s), call(call(s)));
      assert PassingPatches(spec, deletion, call, s, 1) == if Passes(spec, deletion, s, call(s)) then 1 else 0;
    }
  }

  /**
   * Pause patches cannot feed on themselves: from any state, however often the call repeats at one
   * clock reading, at most one of its patches passes the event filter.
   */
  lemma PatchesPassAtMostOnce(spec: ClusterSpec, deletion: Option<int>, s: PauseState, window: Option<ActiveWindow>,
                              env: Environment, now: int, k: nat)
    ensures PassingPatches(spec, deletion, (x: PauseState) => Handle(x, window, env, now), s, k) <= 1
  {
    var call := (x: PauseState) => Handle(x, window, env, now);
    assert SettlesInTwo(call, s) by { HandleSettlesInTwo(s, window, env, now); }
    SettlingPassesOnce(spec, deletion, call, s, k);
  }

  // A moving clock

  /** What a call at `last` leaves: unpaused strictly inside the cached window, and nowhere past it. */
  ghost predicate SettledAt(s: PauseState, w: ActiveWindow, last: int) {
    var cached := s.nextUnpause.Some? && s.nextPause.Some?;
    && (cached && s.nextUnpause.value < last < s.nextPause.value ==> !s.paused)
    && (!s.paused ==>
          && cached && s.hash == Some(WindowHash(w))
          && last <= s.nextPause.value && (s.nextUnpause.value <= last || s.nextPause.value == last))
  }

  lemma StepSettles(s: PauseState, w: ActiveWindow, env: Environment, last: int)
    ensures SettledAt(Step(s, w, env, last), w, last)
  {
  }

  /** The next call unpauses only across the cached opening, and pauses only across the cached closing. */
  lemma ChangeCrossesCachedTime(s: PauseState, w: ActiveWindow, env: Environment, last: int, now: int)
    requires SettledAt(s, w, last) && last <= now
    ensures s.paused && !Step(s, w, env, now).paused ==>
              s.nextUnpause.Some? && last <= s.nextUnpause.value < now
    ensures !s.paused && Step(s, w, env, now).paused ==>
              s.nextPause.Some? && last <= s.nextPause.value <= now
  {
  }

  /**
   * Paused moves only across a fire: over every run from nil times, for any schedules, a call that unpauses has a
   * From fire between the call before and itself, and a call that pauses a To fire.
   */
  lemma PausedMovesOnlyAcrossFires(s: PauseState, w: ActiveWindow, env: Environment, calls: seq<int>)
    requires s.nextUnpause.None? && s.nextPause.None?
    requires |calls| > 1 && Ascending(calls)
    ensures var n := |calls| - 1;
            var before := Run(s, w, env, calls[..n]);
            && (before.paused && !Run(s, w, env, calls).paused ==>
                  && before.nextUnpause.Some? && calls[n - 1] <= before.nextUnpause.value < calls[n]
                  && env.parse(w.from).Some? && IsFire(env.parse(w.from).value, before.nextUnpause.value))
            && (!before.paused && Run(s, w, env, calls).paused ==>
                  && before.nextPause.Some? && calls[n - 1] <= before.nextPause.value <= calls[n]
                  && env.parse(w.to).Some? && IsFire(env.parse(w.to).value, before.nextPause.value))
  {
    var n := |calls| - 1;
    var before := Run(s, w, env, calls[..n]);
    RunKeepsCacheInvariant(s, w, env, calls[..n]);
    StepSettles(Run(s, w, env, calls[..n - 1]), w, env, calls[n - 1]);
    assert calls[..n][..n - 1] == calls[..n - 1];
    ChangeCrossesCachedTime(before, w, env, calls[n - 1], calls[n]);
  }

  /** The From fires from `lo` on and before `hi`. */
  ghost function OpeningsBetween(w: ActiveWindow, env: Environment, lo: int, hi: int): set<int> {
    if env.parse(w.from).None? then {} else FiresBetween(env.parse(w.from).value, lo - 1, hi)
  }

  lemma OpeningsGrow(w: ActiveWindow, env: Environment, lo: int, last: int, now: int)
    requires last <= now
    ensures |OpeningsBetween(w, env, lo, last)| <= |OpeningsBetween(w, env, lo, now)|
  {
    SubsetSize(OpeningsBetween(w, env, lo, last), OpeningsBetween(w, env, lo, now));
  }

  lemma OneMoreOpening(w: ActiveWindow, env: Environment, lo: int, last: int, f: int, now: int)
    requires lo <= last <= f < now && env.parse(w.from).Some? && IsFire(env.parse(w.from).value, f)
    ensures |OpeningsBetween(w, env, lo, last)| + 1 <= |OpeningsBetween(w, env, lo, now)|
  {
    SubsetSize(OpeningsBetween(w, env, lo, last) + {f}, OpeningsBetween(w, env, lo, now));
  }

  /** How many pause patches of a run pass the event filter. */
  ghost function PassingOfRun(spec: ClusterSpec, deletion: Option<int>, s: PauseState, w: ActiveWindow,
                              env: Environment, calls: seq<int>): nat {
    if calls == [] then 0
    else
      var before := calls[..|calls| - 1];
      PassingOfRun(spec, deletion, s, w, env, before)
      + (if Passes(spec, deletion, Run(s, w, env, before), Run(s, w, env, calls)) then 1 else 0)
  }

  lemma {:induction false} PassingBoundedByOpenings(spec: ClusterSpec, deletion: Option<int>, s: PauseState,
        w: ActiveWindow, env: Environment, calls: seq<int>)
    requires s.nextUnpause.None? && s.nextPause.None?
    requires calls != [] && Ascending(calls)
    ensures PassingOfRun(spec, deletion, s, w, env, calls) <=
              2 * |OpeningsBetween(w, env, calls[0], calls[|calls| - 1])|
              + (if Run(s, w, env, calls).paused then 1 else 0)
  {
    var n := |calls| - 1;
    var before, after := Run(s, w, env, calls[..n]), Run(s, w, env, calls);
    PassesExactlyWhenPausedChanges(spec, deletion, before, after);
    if n == 0 {
      assert calls[..0] == [] && PassingOfRun(spec, deletion, s, w, env, calls[..0]) == 0;
    } else {
      PassingBoundedByOpenings(spec, deletion, s, w, env, calls[..n]);
      PausedMovesOnlyAcrossFires(s, w, env, calls);
      OpeningsGrow(w, env, calls[0], calls[n - 1], calls[n]);
      if before.paused && !after.paused {
        OneMoreOpening(w, env, calls[0], calls[n - 1], before.nextUnpause.value, calls[n]);
      }
    }
  }

  /**
   * The controller wakes itself through Paused at most twice per opening: however many calls a run has, the pause
   * patches of it that pass the event filter number at most one more than twice the From fires in its span.
   */
  lemma PatchesPassTwicePerOpening(spec: ClusterSpec, deletion: Option<int>, s: PauseState, w: ActiveWindow,
                                   env: Environment, calls: seq<int>)
    requires s.nextUnpause.None? && s.nextPause.None?
    requires calls != [] && Ascending(calls)
    ensures PassingOfRun(spec, deletion, s, w, env, calls) <=
              2 * |OpeningsBetween(w, env, calls[0], calls[|calls| - 1])| + 1
  {
    PassingBoundedByOpenings(spec, deletion, s, w, env, calls);
  }
}
