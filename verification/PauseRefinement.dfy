/** When the cached automaton agrees with the definition of an active window, and when it never opens one. */
module PauseRefinement {
  import opened Wrappers
  import opened Cluster
  import opened Cron
  import opened Windows
  import opened Pausing
  import opened PauseRecovery

  ghost predicate Parses(w: ActiveWindow, env: Environment, from: Schedule, to: Schedule) {
    env.parse(w.from) == Some(from) && env.parse(w.to) == Some(to)
  }

  /** Both times are cached, under the hash of w. */
  ghost predicate Cached(s: PauseState, w: ActiveWindow) {
    s.nextUnpause.Some? && s.nextPause.Some? && s.hash == Some(WindowHash(w))
  }

  /** After a call at t the pair delimits the window t lies in, or else the next one. */
  ghost predicate Tracking(s: PauseState, w: ActiveWindow, from: Schedule, to: Schedule, t: int) {
    && Cached(s, w)
    && Delimits(from, to, s.nextUnpause.value, s.nextPause.value, t)
    && s.paused == !(s.nextUnpause.value < t < s.nextPause.value)
  }

  ghost predicate Delimits(from: Schedule, to: Schedule, u: int, p: int, t: int) {
    && IsFire(from, u) && to.next(u) == p
    && ((t < u && from.next(t) == u && to.next(t) == p) || u <= t < p)
  }

  /** After a call at t NextPause precedes NextUnpause, with no window to open between them. */
  ghost predicate Reversed(s: PauseState, w: ActiveWindow, from: Schedule, to: Schedule, t: int) {
    && Cached(s, w)
    && IsFire(to, s.nextPause.value)
    && from.next(s.nextPause.value) == s.nextUnpause.value == from.next(t)
  }

  ghost predicate FewMissed(from: Schedule, to: Schedule, lo: int, hi: int) {
    |FiresBetween(from, lo, hi)| <= MAX_MISSED_STARTS && |FiresBetween(to, lo, hi)| <= MAX_MISSED_STARTS
  }

  // One call

  /**
   * A call that finds both times anew pauses the cluster, and leaves them in order exactly when the next
   * fire is an opening, reversed exactly when it is a closing.
   */
  lemma FreshPair(s: PauseState, w: ActiveWindow, env: Environment, from: Schedule, to: Schedule, now: int)
    requires Parses(w, env, from, to)
    requires Passed(Invalidated(s, w).nextUnpause, now) && Passed(Invalidated(s, w).nextPause, now)
    requires Findable(Invalidated(s, w).nextUnpause, w.from, env, now)
    requires Findable(Invalidated(s, w).nextPause, w.to, env, now)
    ensures Step(s, w, env, now).paused
    ensures Tracking(Step(s, w, env, now), w, from, to, now) <==> OpensNext(from, to, now)
    ensures Reversed(Step(s, w, env, now), w, from, to, now) <==> to.next(now) < from.next(now)
  {
    assert Step(s, w, env, now) == PauseState(true, Some(from.next(now)), Some(to.next(now)), Some(WindowHash(w)));
  }

  /** Before the cached NextPause a call keeps tracking. */
  lemma TrackingBeforePause(s: PauseState, w: ActiveWindow, env: Environment, from: Schedule, to: Schedule, last: int,
                            now: int)
    requires Tracking(s, w, from, to, last)
    requires last <= now < s.nextPause.value
    ensures Tracking(Step(s, w, env, now), w, from, to, now)
  {
  }

  /** A call exactly at the cached NextPause writes nothing to Paused and reverses the pair. */
  lemma CallAtNextPauseReverses(s: PauseState, w: ActiveWindow, env: Environment, from: Schedule, to: Schedule,
                                last: int)
    requires Parses(w, env, from, to) && Alternating(from, to)
    requires Tracking(s, w, from, to, last)
    ensures var now := to.next(last);
            && Step(s, w, env, now).paused == s.paused
            && Reversed(Step(s, w, env, now), w, from, to, now)
  {
  }

  /** Past the cached NextPause a call finds both times anew. */
  lemma TrackingAfterPause(s: PauseState, w: ActiveWindow, env: Environment, from: Schedule, to: Schedule, last: int,
                           now: int)
    requires Parses(w, env, from, to) && Alternating(from, to)
    requires Tracking(s, w, from, to, last)
    requires last <= now && now > s.nextPause.value
    requires FewMissed(from, to, last, now)
    ensures Step(s, w, env, now).paused
    ensures Tracking(Step(s, w, env, now), w, from, to, now) <==> OpensNext(from, to, now)
    ensures Reversed(Step(s, w, env, now), w, from, to, now) <==> to.next(now) < from.next(now)
  {
    var u, p := s.nextUnpause.value, s.nextPause.value;
    NextIsFire(from, u);
    FewerFires(from, u, now, last, now);
    FewerFires(to, p, now, last, now);
    FreshPair(s, w, env, from, to, now);
  }

  lemma TrackedNextPause(s: PauseState, w: ActiveWindow, from: Schedule, to: Schedule, t: int)
    requires Tracking(s, w, from, to, t)
    ensures s.nextPause == Some(to.next(t))
  {
  }

  /** While tracking, Paused is false exactly inside a window. */
  lemma TrackingAgrees(s: PauseState, w: ActiveWindow, from: Schedule, to: Schedule, g: int, t: int)
    requires Alternating(from, to) && g < t && IsFire(from, g)
    requires Tracking(s, w, from, to, t)
    ensures s.paused == !InWindow(from, to, t)
  {
    var u, p := s.nextUnpause.value, s.nextPause.value;
    InWindowIffClosesNext(from, to, g, t);
    if u <= t {
      NextMonotone(from, u, t);
    }
  }

  /** A pair in order at `last` stays so at `now`: the closing is still ahead, or it is past and an opening next. */
  ghost predicate StaysInOrder(from: Schedule, to: Schedule, last: int, now: int) {
    now < to.next(last) || (now > to.next(last) && OpensNext(from, to, now))
  }

  lemma CallOnTrackingPair(s: PauseState, w: ActiveWindow, env: Environment, from: Schedule, to: Schedule, last: int,
                           now: int)
    requires Parses(w, env, from, to) && Alternating(from, to)
    requires Tracking(s, w, from, to, last) && last <= now && FewMissed(from, to, last, now)
    ensures StaysInOrder(from, to, last, now) ==> Tracking(Step(s, w, env, now), w, from, to, now)
    ensures !StaysInOrder(from, to, last, now) ==>
              && Reversed(Step(s, w, env, now), w, from, to, now)
              && Step(s, w, env, now).paused == (now == to.next(last) ==> s.paused)
  {
    TrackedNextPause(s, w, from, to, last);
    if now < to.next(last) {
      TrackingBeforePause(s, w, env, from, to, last, now);
    } else if now == to.next(last) {
      CallAtNextPauseReverses(s, w, env, from, to, last);
    } else {
      NextsDiffer(from, to, now);
      TrackingAfterPause(s, w, env, from, to, last, now);
    }
  }

  /** A reversed pair pauses the cluster until a call reaches its NextUnpause. */
  lemma ReversedBeforeUnpause(s: PauseState, w: ActiveWindow, env: Environment, from: Schedule, to: Schedule, last: int,
                              now: int)
    requires Reversed(s, w, from, to, last) && last <= now < from.next(last)
    ensures Step(s, w, env, now).paused && Reversed(Step(s, w, env, now), w, from, to, now)
  {
  }

  /** A call exactly at the cached NextUnpause ends the reversal. */
  lemma ReversalEndsAtFromFire(s: PauseState, w: ActiveWindow, env: Environment, from: Schedule, to: Schedule,
                               last: int)
    requires Parses(w, env, from, to) && Alternating(from, to)
    requires Reversed(s, w, from, to, last)
    ensures Step(s, w, env, from.next(last)).paused
    ensures Tracking(Step(s, w, env, from.next(last)), w, from, to, from.next(last))
  {
  }

  lemma ReversedAfterUnpause(s: PauseState, w: ActiveWindow, env: Environment, from: Schedule, to: Schedule, last: int,
                             now: int)
    requires Parses(w, env, from, to) && Alternating(from, to)
    requires Reversed(s, w, from, to, last) && last <= now && now > from.next(last)
    requires FewMissed(from, to, last, now)
    ensures Step(s, w, env, now).paused
    ensures Tracking(Step(s, w, env, now), w, from, to, now) <==> OpensNext(from, to, now)
    ensures Reversed(Step(s, w, env, now), w, from, to, now) <==> to.next(now) < from.next(now)
  {
    var u, p := s.nextUnpause.value, s.nextPause.value;
    NextIsFire(to, p);
    FewerFires(from, u, now, last, now);
    FewerFires(to, p, now, last, now);
    FreshPair(s, w, env, from, to, now);
  }

  /**
   * A reversed pair found anew past its NextUnpause is in order again exactly when the call lies outside
   * any window and not on an opening; otherwise it is reversed once more.
   */
  lemma ReversalEndsExactlyOutside(s: PauseState, w: ActiveWindow, env: Environment, from: Schedule, to: Schedule,
                                   g: int, last: int, now: int)
    requires Parses(w, env, from, to) && Alternating(from, to)
    requires Reversed(s, w, from, to, last) && last <= now && now > from.next(last)
    requires g < now && IsFire(from, g)
    requires FewMissed(from, to, last, now)
    ensures Step(s, w, env, now).paused
    ensures Tracking(Step(s, w, env, now), w, from, to, now) <==> !InWindow(from, to, now) && !IsFire(from, now)
    ensures Reversed(Step(s, w, env, now), w, from, to, now) <==> InWindow(from, to, now) || IsFire(from, now)
  {
    ReversedAfterUnpause(s, w, env, from, to, last, now);
    InWindowIffClosesNext(from, to, g, now);
    NextsDiffer(from, to, now);
    NextIsFire(to, now - 1);
  }

  /** A reversed pair is put in order: by a call on the opening it waits for, or past it with an opening next. */
  ghost predicate PutInOrder(from: Schedule, to: Schedule, last: int, now: int) {
    now == from.next(last) || (now > from.next(last) && OpensNext(from, to, now))
  }

  lemma CallOnReversedPair(s: PauseState, w: ActiveWindow, env: Environment, from: Schedule, to: Schedule, last: int,
                           now: int)
    requires Parses(w, env, from, to) && Alternating(from, to)
    requires Reversed(s, w, from, to, last) && last <= now && FewMissed(from, to, last, now)
    ensures Step(s, w, env, now).paused
    ensures PutInOrder(from, to, last, now) ==> Tracking(Step(s, w, env, now), w, from, to, now)
    ensures !PutInOrder(from, to, last, now) ==> Reversed(Step(s, w, env, now), w, from, to, now)
  {
    if now < from.next(last) {
      ReversedBeforeUnpause(s, w, env, from, to, last, now);
    } else if now == from.next(last) {
      ReversalEndsAtFromFire(s, w, env, from, to, last);
    } else {
      NextsDiffer(from, to, now);
      ReversedAfterUnpause(s, w, env, from, to, last, now);
    }
  }

  // Every run

  /** A run under one alternating ActiveWindow, started from nil times after the opening g. */
  ghost predicate Setting(s: PauseState, w: ActiveWindow, env: Environment, from: Schedule, to: Schedule, g: int,
                          calls: seq<int>) {
    && Parses(w, env, from, to) && Alternating(from, to)
    && s.nextUnpause.None? && s.nextPause.None?
    && calls != []
    && IsFire(from, g) && g < calls[0]
    && FewMissed(from, to, env.created, calls[0])
    && Gaps(from, to, calls)
  }

  ghost predicate Gap(from: Schedule, to: Schedule, last: int, now: int) {
    last <= now && FewMissed(from, to, last, now)
  }

  /** Gap holds of every two consecutive calls. */
  ghost predicate Gaps(from: Schedule, to: Schedule, calls: seq<int>) {
    var n := |calls| - 1;
    n > 0 ==> Gaps(from, to, calls[..n]) && Gap(from, to, calls[n - 1], calls[n])
  }

  /** Whether the pair is in order after the last of these calls, by the fires and the call times alone. */
  ghost predicate InOrder(from: Schedule, to: Schedule, calls: seq<int>)
    requires calls != []
  {
    var n := |calls| - 1;
    if n == 0 then OpensNext(from, to, calls[0])
    else if InOrder(from, to, calls[..n]) then StaysInOrder(from, to, calls[n - 1], calls[n])
    else PutInOrder(from, to, calls[n - 1], calls[n])
  }

  /** The last call falls exactly on the closing of the window that the call before it opened or kept open. */
  ghost predicate OnOwnClosing(from: Schedule, to: Schedule, calls: seq<int>)
    requires calls != []
  {
    var n := |calls| - 1;
    && n > 0 && InOrder(from, to, calls[..n])
    && InWindow(from, to, calls[n - 1]) && calls[n] == to.next(calls[n - 1])
  }

  lemma {:induction false} FirstIsEarliest(from: Schedule, to: Schedule, calls: seq<int>)
    requires calls != [] && Gaps(from, to, calls)
    ensures calls[0] <= calls[|calls| - 1]
  {
    if |calls| > 1 {
      FirstIsEarliest(from, to, calls[..|calls| - 1]);
    }
  }

  lemma RunOne(s: PauseState, w: ActiveWindow, env: Environment, calls: seq<int>)
    requires |calls| == 1
    ensures Run(s, w, env, calls) == Step(s, w, env, calls[0])
  {
  }

  lemma FirstCall(s: PauseState, w: ActiveWindow, env: Environment, from: Schedule, to: Schedule, g: int,
                  calls: seq<int>)
    requires Setting(s, w, env, from, to, g, calls) && |calls| == 1
    ensures Run(s, w, env, calls).paused
    ensures InOrder(from, to, calls) ==> Tracking(Run(s, w, env, calls), w, from, to, calls[0])
    ensures !InOrder(from, to, calls) ==> Reversed(Run(s, w, env, calls), w, from, to, calls[0])
  {
    RunOne(s, w, env, calls);
    NextsDiffer(from, to, calls[0]);
    FreshPair(s, w, env, from, to, calls[0]);
  }

  lemma {:induction false} LastCallTracksExactlyInOrder(s: PauseState, w: ActiveWindow, env: Environment,
        from: Schedule, to: Schedule, g: int, calls: seq<int>)
    requires Setting(s, w, env, from, to, g, calls)
    ensures InOrder(from, to, calls) ==> Tracking(Run(s, w, env, calls), w, from, to, calls[|calls| - 1])
    ensures !InOrder(from, to, calls) ==> Reversed(Run(s, w, env, calls), w, from, to, calls[|calls| - 1])
  {
    var n := |calls| - 1;
    if n == 0 {
      FirstCall(s, w, env, from, to, g, calls);
    } else {
      LastCallTracksExactlyInOrder(s, w, env, from, to, g, calls[..n]);
      if InOrder(from, to, calls[..n]) {
        CallOnTrackingPair(Run(s, w, env, calls[..n]), w, env, from, to, calls[n - 1], calls[n]);
      } else {
        CallOnReversedPair(Run(s, w, env, calls[..n]), w, env, from, to, calls[n - 1], calls[n]);
      }
    }
  }

  /** The last call falls inside a window with the pair in order, or on the closing of a window left open. */
  ghost predicate LeavesUnpaused(from: Schedule, to: Schedule, calls: seq<int>)
    requires calls != []
  {
    (InOrder(from, to, calls) && InWindow(from, to, calls[|calls| - 1])) || OnOwnClosing(from, to, calls)
  }

  lemma LastCallUnpausedExactly(s: PauseState, w: ActiveWindow, env: Environment, from: Schedule, to: Schedule, g: int,
                           calls: seq<int>)
    requires Setting(s, w, env, from, to, g, calls)
    ensures !Run(s, w, env, calls).paused <==> LeavesUnpaused(from, to, calls)
  {
    var n := |calls| - 1;
    FirstIsEarliest(from, to, calls);
    LastCallTracksExactlyInOrder(s, w, env, from, to, g, calls);
    if InOrder(from, to, calls) {
      TrackingAgrees(Run(s, w, env, calls), w, from, to, g, calls[n]);
    } else if n == 0 {
      FirstCall(s, w, env, from, to, g, calls);
    } else {
      LastCallTracksExactlyInOrder(s, w, env, from, to, g, calls[..n]);
      var before := Run(s, w, env, calls[..n]);
      if InOrder(from, to, calls[..n]) {
        FirstIsEarliest(from, to, calls[..n]);
        TrackingAgrees(before, w, from, to, g, calls[n - 1]);
        CallOnTrackingPair(before, w, env, from, to, calls[n - 1], calls[n]);
      } else {
        CallOnReversedPair(before, w, env, from, to, calls[n - 1], calls[n]);
      }
    }
  }

  lemma {:induction false} GapsPrefix(from: Schedule, to: Schedule, calls: seq<int>, k: int)
    requires 0 < k <= |calls| && Gaps(from, to, calls)
    ensures Gaps(from, to, calls[..k])
  {
    var n := |calls| - 1;
    if k <= n {
      GapsPrefix(from, to, calls[..n], k);
      assert calls[..n][..k] == calls[..k];
    } else {
      assert calls[..k] == calls;
    }
  }

  /** After the k-th call the pair delimits the current or the next window if it is in order, else it is reversed. */
  ghost predicate FollowsOrderAt(s: PauseState, w: ActiveWindow, env: Environment, from: Schedule, to: Schedule,
                                 calls: seq<int>, k: int)
    requires 0 < k <= |calls|
  {
    if InOrder(from, to, calls[..k]) then Tracking(Run(s, w, env, calls[..k]), w, from, to, calls[k - 1])
    else Reversed(Run(s, w, env, calls[..k]), w, from, to, calls[k - 1])
  }

  ghost predicate UnpausedExactlyAt(s: PauseState, w: ActiveWindow, env: Environment, from: Schedule, to: Schedule,
                                    calls: seq<int>, k: int)
    requires 0 < k <= |calls|
  {
    !Run(s, w, env, calls[..k]).paused <==> LeavesUnpaused(from, to, calls[..k])
  }

  ghost predicate FollowsOrder(s: PauseState, w: ActiveWindow, env: Environment, from: Schedule, to: Schedule,
                               calls: seq<int>) {
    forall k :: 0 < k <= |calls| ==> FollowsOrderAt(s, w, env, from, to, calls, k)
  }

  ghost predicate UnpausedExactly(s: PauseState, w: ActiveWindow, env: Environment, from: Schedule, to: Schedule,
                                  calls: seq<int>) {
    forall k :: 0 < k <= |calls| ==> UnpausedExactlyAt(s, w, env, from, to, calls, k)
  }

  /** After every call of every run the cached pair is the one its order says. */
  lemma RunFollowsOrder(s: PauseState, w: ActiveWindow, env: Environment, from: Schedule, to: Schedule, g: int,
                        calls: seq<int>)
    requires Setting(s, w, env, from, to, g, calls)
    ensures FollowsOrder(s, w, env, from, to, calls)
  {
    forall k | 0 < k <= |calls|
      ensures FollowsOrderAt(s, w, env, from, to, calls, k)
    {
      GapsPrefix(from, to, calls, k);
      LastCallTracksExactlyInOrder(s, w, env, from, to, g, calls[..k]);
    }
  }

  /**
   * Paused over every run, told from the fires and the call times alone: after every call the cluster is unpaused
   * exactly inside a window with the pair in order, or on the closing of a window left open.
   */
  lemma RunUnpausedExactly(s: PauseState, w: ActiveWindow, env: Environment, from: Schedule, to: Schedule, g: int,
                           calls: seq<int>)
    requires Setting(s, w, env, from, to, g, calls)
    ensures UnpausedExactly(s, w, env, from, to, calls)
  {
    forall k | 0 < k <= |calls|
      ensures UnpausedExactlyAt(s, w, env, from, to, calls, k)
    {
      GapsPrefix(from, to, calls, k);
      LastCallUnpausedExactly(s, w, env, from, to, g, calls[..k]);
    }
  }

  // The refinement theorem

  ghost predicate AgreesAt(s: PauseState, w: ActiveWindow, env: Environment, from: Schedule, to: Schedule,
                           calls: seq<int>, k: int)
    requires 0 < k <= |calls|
  {
    Run(s, w, env, calls[..k]).paused == !InWindow(from, to, calls[k - 1])
  }

  ghost predicate AgreesThroughout(s: PauseState, w: ActiveWindow, env: Environment, from: Schedule, to: Schedule,
                                   calls: seq<int>) {
    forall k :: 0 < k <= |calls| ==> AgreesAt(s, w, env, from, to, calls, k)
  }

  lemma AgreesThroughoutPrefix(s: PauseState, w: ActiveWindow, env: Environment, from: Schedule, to: Schedule,
                               calls: seq<int>)
    requires calls != []
    ensures var n := |calls| - 1;
            AgreesThroughout(s, w, env, from, to, calls) <==>
              AgreesThroughout(s, w, env, from, to, calls[..n])
              && Run(s, w, env, calls).paused == !InWindow(from, to, calls[n])
  {
    var n := |calls| - 1;
    assert calls[..n + 1] == calls;
    assert AgreesAt(s, w, env, from, to, calls, n + 1) <==>
             Run(s, w, env, calls).paused == !InWindow(from, to, calls[n]);
    forall k | 0 < k <= n
      ensures AgreesAt(s, w, env, from, to, calls, k) == AgreesAt(s, w, env, from, to, calls[..n], k)
    {
      assert calls[..n][..k] == calls[..k];
    }
  }

  /** At every call inside a window the pair is in order, and no call falls on the closing of a window left open. */
  ghost predicate Observed(from: Schedule, to: Schedule, calls: seq<int>)
    requires calls != []
  {
    var n := |calls| - 1;
    && (n > 0 ==> Observed(from, to, calls[..n]))
    && (InWindow(from, to, calls[n]) ==> InOrder(from, to, calls))
    && !OnOwnClosing(from, to, calls)
  }

  lemma ClosingLiesOutside(from: Schedule, to: Schedule, t: int)
    ensures !InWindow(from, to, to.next(t))
  {
    NextIsFire(to, t);
    assert forall f :: OpenedBy(from, to, f, to.next(t)) ==> !IsFire(to, to.next(t));
  }

  /**
   * The cached automaton refines the definition of an active window exactly on observed runs: after every
   * call of a run Paused is false if and only if the call lies in a window, precisely when every call inside
   * a window finds the pair in order and none falls on the closing of a window left open.
   */
  lemma {:induction false} RefinementExactlyWhenObserved(s: PauseState, w: ActiveWindow, env: Environment,
        from: Schedule, to: Schedule, g: int, calls: seq<int>)
    requires Setting(s, w, env, from, to, g, calls)
    ensures AgreesThroughout(s, w, env, from, to, calls) <==> Observed(from, to, calls)
  {
    var n := |calls| - 1;
    AgreesThroughoutPrefix(s, w, env, from, to, calls);
    LastCallUnpausedExactly(s, w, env, from, to, g, calls);
    if n > 0 {
      RefinementExactlyWhenObserved(s, w, env, from, to, g, calls[..n]);
      ClosingLiesOutside(from, to, calls[n - 1]);
    }
  }

  // Runs off the fires

  ghost predicate OffFires(from: Schedule, to: Schedule, t: int) {
    !IsFire(from, t) && !IsFire(to, t)
  }

  ghost predicate AllOffFires(from: Schedule, to: Schedule, calls: seq<int>) {
    var n := |calls| - 1;
    n >= 0 ==> AllOffFires(from, to, calls[..n]) && OffFires(from, to, calls[n])
  }

  /** The first call finds an opening next, and so does the first call after every closing. */
  ghost predicate PausesObserved(from: Schedule, to: Schedule, calls: seq<int>)
    requires calls != []
  {
    var n := |calls| - 1;
    if n == 0 then OpensNext(from, to, calls[0])
    else
      && PausesObserved(from, to, calls[..n])
      && (to.next(calls[n - 1]) < calls[n] ==> OpensNext(from, to, calls[n]))
  }

  lemma {:induction false} ObservedOffFires(from: Schedule, to: Schedule, g: int, calls: seq<int>)
    requires Alternating(from, to) && calls != [] && IsFire(from, g) && g < calls[0]
    requires Gaps(from, to, calls) && AllOffFires(from, to, calls)
    ensures Observed(from, to, calls) <==> PausesObserved(from, to, calls)
    ensures PausesObserved(from, to, calls) ==> InOrder(from, to, calls)
  {
    var n := |calls| - 1;
    FirstIsEarliest(from, to, calls);
    InWindowIffClosesNext(from, to, g, calls[n]);
    if n > 0 {
      ObservedOffFires(from, to, g, calls[..n]);
      NextIsFire(to, calls[n - 1]);
    }
  }

  /**
   * For runs with no call on a fire the condition is short: the automaton agrees with the definition after
   * every call exactly when the first call, and the first call after each closing, falls outside any window.
   */
  lemma RefinementOffFires(s: PauseState, w: ActiveWindow, env: Environment, from: Schedule, to: Schedule, g: int,
                           calls: seq<int>)
    requires Setting(s, w, env, from, to, g, calls) && AllOffFires(from, to, calls)
    ensures AgreesThroughout(s, w, env, from, to, calls) <==> PausesObserved(from, to, calls)
  {
    RefinementExactlyWhenObserved(s, w, env, from, to, g, calls);
    ObservedOffFires(from, to, g, calls);
  }

  // Runs with short gaps

  /** The second call comes sooner than any pause interval lasts, and not on the closing pending at the first. */
  ghost predicate ShortGap(from: Schedule, to: Schedule, last: int, now: int) {
    && now != to.next(last)
    && forall q {:trigger IsFire(to, q)} :: IsFire(to, q) ==> now - last < from.next(q) - q
  }

  lemma ShortGapStaysInOrder(from: Schedule, to: Schedule, last: int, now: int)
    requires Alternating(from, to) && last <= now && ShortGap(from, to, last, now)
    ensures StaysInOrder(from, to, last, now)
  {
    var q := to.next(last);
    NextIsFire(to, last);
    if q < now {
      assert from.next(now) == from.next(q);
      NextMonotone(to, q, now);
    }
  }

  /** ShortGap holds of every two consecutive calls. */
  ghost predicate ShortGaps(from: Schedule, to: Schedule, calls: seq<int>) {
    var n := |calls| - 1;
    n > 0 ==> ShortGaps(from, to, calls[..n]) && ShortGap(from, to, calls[n - 1], calls[n])
  }

  lemma {:induction false} ShortGapsAreObserved(from: Schedule, to: Schedule, calls: seq<int>)
    requires Alternating(from, to) && calls != [] && Gaps(from, to, calls)
    requires OpensNext(from, to, calls[0]) && ShortGaps(from, to, calls)
    ensures InOrder(from, to, calls) && Observed(from, to, calls)
  {
    var n := |calls| - 1;
    if n > 0 {
      ShortGapsAreObserved(from, to, calls[..n]);
      ShortGapStaysInOrder(from, to, calls[n - 1], calls[n]);
    }
  }

  /**
   * The cadence that suffices: first called with an opening next, and then at gaps shorter than every pause
   * interval and never on the pending closing, the automaton agrees with the definition after every call.
   */
  lemma ShortGapsRefine(s: PauseState, w: ActiveWindow, env: Environment, from: Schedule, to: Schedule, g: int,
                        calls: seq<int>)
    requires Setting(s, w, env, from, to, g, calls)
    requires OpensNext(from, to, calls[0]) && ShortGaps(from, to, calls)
    ensures AgreesThroughout(s, w, env, from, to, calls)
  {
    ShortGapsAreObserved(from, to, calls);
    RefinementExactlyWhenObserved(s, w, env, from, to, g, calls);
  }

  // Clusters that are never unpaused

  ghost predicate PausedAt(s: PauseState, w: ActiveWindow, env: Environment, calls: seq<int>, k: int)
    requires 0 < k <= |calls|
  {
    Run(s, w, env, calls[..k]).paused
  }

  ghost predicate PausedThroughout(s: PauseState, w: ActiveWindow, env: Environment, calls: seq<int>) {
    forall k :: 0 < k <= |calls| ==> PausedAt(s, w, env, calls, k)
  }

  lemma PausedThroughoutExtends(s: PauseState, w: ActiveWindow, env: Environment, calls: seq<int>)
    requires calls != [] && PausedThroughout(s, w, env, calls[..|calls| - 1]) && Run(s, w, env, calls).paused
    ensures PausedThroughout(s, w, env, calls)
  {
    var n := |calls| - 1;
    assert calls[..n + 1] == calls;
    forall k | 0 < k <= n
      ensures PausedAt(s, w, env, calls, k)
    {
      assert calls[..n][..k] == calls[..k];
      assert PausedAt(s, w, env, calls[..n], k);
    }
  }

  /** No call would put a reversed pair in order: the first one after an opening comes later, with a closing next. */
  ghost predicate OpeningsObserved(from: Schedule, to: Schedule, calls: seq<int>) {
    var n := |calls| - 1;
    n > 0 ==> OpeningsObserved(from, to, calls[..n]) && !PutInOrder(from, to, calls[n - 1], calls[n])
  }

  lemma {:induction false} ReversedRun(s: PauseState, w: ActiveWindow, env: Environment, from: Schedule, to: Schedule,
                                       last: int, calls: seq<int>)
    requires Parses(w, env, from, to) && Alternating(from, to)
    requires Reversed(s, w, from, to, last)
    requires calls != [] && Gaps(from, to, [last] + calls) && OpeningsObserved(from, to, [last] + calls)
    ensures PausedThroughout(s, w, env, calls)
    ensures Reversed(Run(s, w, env, calls), w, from, to, calls[|calls| - 1])
  {
    var n := |calls| - 1;
    assert ([last] + calls)[..n + 1] == [last] + calls[..n];
    if n == 0 {
      RunOne(s, w, env, calls);
      CallOnReversedPair(s, w, env, from, to, last, calls[0]);
    } else {
      ReversedRun(s, w, env, from, to, last, calls[..n]);
      CallOnReversedPair(Run(s, w, env, calls[..n]), w, env, from, to, calls[n - 1], calls[n]);
    }
    PausedThroughoutExtends(s, w, env, calls);
  }

  /** Once reversed, however it came about, the pair never opens a window while every opening is observed. */
  lemma ReversedNeverOpens(s: PauseState, w: ActiveWindow, env: Environment, from: Schedule, to: Schedule, last: int,
                           calls: seq<int>)
    requires Parses(w, env, from, to) && Alternating(from, to)
    requires Reversed(s, w, from, to, last)
    requires calls != [] && Gaps(from, to, [last] + calls) && OpeningsObserved(from, to, [last] + calls)
    ensures PausedThroughout(s, w, env, calls)
  {
    ReversedRun(s, w, env, from, to, last, calls);
  }

  lemma {:induction false} NeverInOrder(from: Schedule, to: Schedule, calls: seq<int>)
    requires calls != [] && !OpensNext(from, to, calls[0]) && OpeningsObserved(from, to, calls)
    ensures !InOrder(from, to, calls) && !OnOwnClosing(from, to, calls)
  {
    if |calls| > 1 {
      NeverInOrder(from, to, calls[..|calls| - 1]);
    }
  }

  /**
   * A cluster whose first call falls inside a window, or on its opening, is paused after every call for as
   * long as every opening is observed: it is never unpaused in any window.
   */
  lemma {:induction false} FirstCallInsideNeverOpens(s: PauseState, w: ActiveWindow, env: Environment, from: Schedule,
        to: Schedule, g: int, calls: seq<int>)
    requires Setting(s, w, env, from, to, g, calls)
    requires InWindow(from, to, calls[0]) || IsFire(from, calls[0])
    requires OpeningsObserved(from, to, calls)
    ensures PausedThroughout(s, w, env, calls)
  {
    var n := |calls| - 1;
    InWindowIffClosesNext(from, to, g, calls[0]);
    NeverInOrder(from, to, calls);
    LastCallUnpausedExactly(s, w, env, from, to, g, calls);
    if n > 0 {
      FirstCallInsideNeverOpens(s, w, env, from, to, g, calls[..n]);
    }
    PausedThroughoutExtends(s, w, env, calls);
  }
}
