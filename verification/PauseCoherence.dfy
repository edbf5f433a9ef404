/** The cached pair under edits of the ActiveWindow. */
module PauseCoherence {
  import opened Wrappers
  import opened Cluster
  import opened Cron
  import opened Pausing
  import opened PauseSafety

  datatype Event = Edit(window: Option<ActiveWindow>) | Call(now: int)

  datatype Edited = Edited(window: Option<ActiveWindow>, pause: PauseState)

  ghost function Apply(st: Edited, env: Environment, e: Event): Edited {
    match e
    case Edit(window) => st.(window := window)
    case Call(now) => st.(pause := Handle(st.pause, st.window, env, now))
  }

  ghost function History(st: Edited, env: Environment, events: seq<Event>): Edited {
    if events == [] then st
    else Apply(History(st, env, events[..|events| - 1]), env, events[|events| - 1])
  }

  ghost predicate Used(st: Edited, events: seq<Event>, w: ActiveWindow) {
    st.window == Some(w) || Edit(Some(w)) in events
  }

  /** Different windows of the run have different joined schedules. */
  ghost predicate DistinctHashes(st: Edited, events: seq<Event>) {
    forall a, b :: Used(st, events, a) && Used(st, events, b) && WindowHash(a) == WindowHash(b) ==> a == b
  }

  /** The call was forced by a changed hash, refreshed NextUnpause, and then failed on NextPause. */
  ghost predicate ForcedHalfway(st: Edited, env: Environment, e: Event) {
    && e.Call? && st.window.Some?
    && st.pause.hash != Some(WindowHash(st.window.value))
    && Refreshed(None, st.window.value.from, env, e.now).Success?
    && Refreshed(None, st.window.value.to, env, e.now).Failure?
  }

  ghost predicate NeverHalfway(st: Edited, env: Environment, events: seq<Event>) {
    var n := |events| - 1;
    events != [] ==>
      NeverHalfway(st, env, events[..n]) && !ForcedHalfway(History(st, env, events[..n]), env, events[n])
  }

  /** If the stored hash is that of w, the cached times are fires of w. */
  ghost predicate CoherentFor(pause: PauseState, w: ActiveWindow, env: Environment) {
    pause.hash == Some(WindowHash(w)) ==> FireOf(pause.nextUnpause, w.from, env) && FireOf(pause.nextPause, w.to, env)
  }

  /** A call halfway under another window, with the hash of w still stored, and a NextUnpause that is no fire of w. */
  ghost predicate Mixes(st: Edited, env: Environment, e: Event, w: ActiveWindow) {
    && ForcedHalfway(st, env, e)
    && st.pause.hash == Some(WindowHash(w))
    && !FireOf(Some(Refreshed(None, st.window.value.from, env, e.now).value), w.from, env)
  }

  /** No event mixes the fires of another window into those of a window used in the whole run. */
  ghost predicate NeverMixes(st: Edited, env: Environment, all: seq<Event>, events: seq<Event>) {
    var n := |events| - 1;
    events != [] ==>
      && NeverMixes(st, env, all, events[..n])
      && forall w :: Used(st, all, w) ==> !Mixes(History(st, env, events[..n]), env, events[n], w)
  }

  /** After every prefix the cached times are fires of the window whose hash is stored, whichever used one that is. */
  ghost predicate CoherentThroughout(st: Edited, env: Environment, all: seq<Event>, events: seq<Event>) {
    && (events != [] ==> CoherentThroughout(st, env, all, events[..|events| - 1]))
    && forall w :: Used(st, all, w) ==> CoherentFor(History(st, env, events).pause, w, env)
  }

  lemma RefreshedIsFire(cached: Option<int>, schedule: string, env: Environment, now: int)
    requires FireOf(cached, schedule, env)
    ensures var r := Refreshed(cached, schedule, env, now); r.Success? ==> FireOf(Some(r.value), schedule, env)
  {
  }

  /** One call: the times kept under the hash of w stay fires of w exactly when the call does not mix. */
  lemma CallCoherentExactlyUnmixed(st: Edited, env: Environment, now: int, w: ActiveWindow)
    requires CoherentFor(st.pause, w, env)
    requires st.window.Some? && WindowHash(st.window.value) == WindowHash(w) ==> st.window == Some(w)
    ensures CoherentFor(Handle(st.pause, st.window, env, now), w, env) <==> !Mixes(st, env, Call(now), w)
  {
    if st.window == Some(w) {
      var i := Invalidated(st.pause, w);
      RefreshedIsFire(i.nextUnpause, w.from, env, now);
      RefreshedIsFire(i.nextPause, w.to, env, now);
    }
  }

  lemma {:induction false} WindowIsUsed(st: Edited, env: Environment, events: seq<Event>)
    ensures var window := History(st, env, events).window; window.Some? ==> Used(st, events, window.value)
  {
    if events != [] {
      WindowIsUsed(st, env, events[..|events| - 1]);
    }
  }

  lemma EventCoherentExactlyUnmixed(st: Edited, env: Environment, all: seq<Event>, events: seq<Event>, w: ActiveWindow)
    requires events != [] && events <= all && DistinctHashes(st, all) && Used(st, all, w)
    requires CoherentFor(History(st, env, events[..|events| - 1]).pause, w, env)
    ensures CoherentFor(History(st, env, events).pause, w, env) <==>
              !Mixes(History(st, env, events[..|events| - 1]), env, events[|events| - 1], w)
  {
    var n := |events| - 1;
    var before := History(st, env, events[..n]);
    WindowIsUsed(st, env, events[..n]);
    if events[n].Call? {
      assert before.window.Some? ==> Used(st, all, before.window.value);
      CallCoherentExactlyUnmixed(before, env, events[n].now, w);
    }
  }

  /**
   * Coherence over every run of edits and calls between windows that join to different text: whenever the
   * stored hash is that of some window of the run the cached times are its fires, if and only if no call
   * stops halfway under another window with a NextUnpause that is no fire of the window it had.
   */
  lemma {:induction false} CoherentExactlyWhenNeverMixed(st: Edited, env: Environment, all: seq<Event>,
        events: seq<Event>)
    requires st.pause.nextUnpause.None? && st.pause.nextPause.None?
    requires events <= all && DistinctHashes(st, all)
    ensures CoherentThroughout(st, env, all, events) <==> NeverMixes(st, env, all, events)
    decreases |events|
  {
    if events != [] {
      var n := |events| - 1;
      CoherentExactlyWhenNeverMixed(st, env, all, events[..n]);
      if CoherentThroughout(st, env, all, events[..n]) {
        forall w | Used(st, all, w)
          ensures CoherentFor(History(st, env, events).pause, w, env) <==>
                    !Mixes(History(st, env, events[..n]), env, events[n], w)
        {
          EventCoherentExactlyUnmixed(st, env, all, events, w);
        }
      }
    }
  }

  lemma {:induction false} NeverHalfwayNeverMixes(st: Edited, env: Environment, all: seq<Event>, events: seq<Event>)
    requires NeverHalfway(st, env, events)
    ensures NeverMixes(st, env, all, events)
  {
    if events != [] {
      NeverHalfwayNeverMixes(st, env, all, events[..|events| - 1]);
    }
  }

  /** In particular, whenever the stored hash is the current one, both cached times are fires of the current window. */
  lemma EditsKeepCoherence(st: Edited, env: Environment, events: seq<Event>)
    requires st.pause.nextUnpause.None? && st.pause.nextPause.None?
    requires DistinctHashes(st, events) && NeverMixes(st, env, events, events)
    ensures var end := History(st, env, events);
            end.window.Some? && end.pause.hash == Some(WindowHash(end.window.value)) ==>
              && FireOf(end.pause.nextUnpause, end.window.value.from, env)
              && FireOf(end.pause.nextPause, end.window.value.to, env)
  {
    WindowIsUsed(st, env, events);
    CoherentExactlyWhenNeverMixed(st, env, events, events);
    var end := History(st, env, events);
    assert end.window.Some? ==> CoherentFor(end.pause, end.window.value, env);
  }

  /** So it is when no forced recalculation stopped halfway, whatever the windows fire at. */
  lemma EditsWithoutHalfwayKeepCoherence(st: Edited, env: Environment, events: seq<Event>)
    requires st.pause.nextUnpause.None? && st.pause.nextPause.None?
    requires DistinctHashes(st, events) && NeverHalfway(st, env, events)
    ensures var end := History(st, env, events);
            end.window.Some? && end.pause.hash == Some(WindowHash(end.window.value)) ==>
              && FireOf(end.pause.nextUnpause, end.window.value.from, env)
              && FireOf(end.pause.nextPause, end.window.value.to, env)
  {
    NeverHalfwayNeverMixes(st, env, events, events);
    EditsKeepCoherence(st, env, events);
  }

  /**
   * An edit of the window is noticed exactly when the joined texts differ. Noticed, the next call starts
   * from nothing; unnoticed, it acts as under the old window until the cached NextPause. Two From texts of
   * one length never hide an edit.
   */
  lemma EditNoticedExactlyWhenJoinsDiffer(s: PauseState, old': ActiveWindow, new': ActiveWindow, env: Environment,
                                          now: int)
    requires s.hash == Some(WindowHash(old')) && s.nextUnpause.Some? && s.nextPause.Some?
    ensures Invalidated(s, new') != s <==> old'.from + old'.to != new'.from + new'.to
    ensures Invalidated(s, new') != s ==>
              Step(s, new', env, now) == Step(s.(nextUnpause := None, nextPause := None), new', env, now)
    ensures Invalidated(s, new') == s && now < s.nextPause.value ==> Step(s, new', env, now) == Step(s, old', env, now)
    ensures |old'.from| == |new'.from| ==> (Invalidated(s, new') != s <==> old' != new')
  {
    if |old'.from| == |new'.from| {
      var n := |old'.from|;
      assert WindowHash(old')[..n] == old'.from && WindowHash(old')[n..] == old'.to;
      assert WindowHash(new')[..n] == new'.from && WindowHash(new')[n..] == new'.to;
    }
  }

  // Calls without a window

  /** The event is a call with an ActiveWindow in force. */
  ghost predicate CallsUnderWindow(st: Edited, e: Event) {
    e.Call? && st.window.Some?
  }

  /** Any other event leaves Paused and the hash as they were; a call without a window also clears both times. */
  lemma NoWindowKeepsPaused(st: Edited, env: Environment, e: Event)
    requires !CallsUnderWindow(st, e)
    ensures var after := Apply(st, env, e).pause;
            && after.paused == st.pause.paused && after.hash == st.pause.hash
            && (e.Call? ==> after.nextUnpause.None? && after.nextPause.None?)
            && (e.Edit? ==> after == st.pause)
  {
  }

  /** Whether the i-th event is a call under a window that moves Paused. */
  ghost predicate MovesPausedAt(st: Edited, env: Environment, events: seq<Event>, i: int)
    requires 0 <= i < |events|
  {
    && CallsUnderWindow(History(st, env, events[..i]), events[i])
    && History(st, env, events[..i + 1]).pause.paused != History(st, env, events[..i]).pause.paused
  }

  /** Over every run of edits and calls, Paused moves only at calls under a window. */
  lemma {:induction false} PausedMovesOnlyUnderWindow(st: Edited, env: Environment, events: seq<Event>)
    requires History(st, env, events).pause.paused != st.pause.paused
    ensures exists i :: 0 <= i < |events| && MovesPausedAt(st, env, events, i)
  {
    if events != [] {
      var n := |events| - 1;
      var before := History(st, env, events[..n]);
      assert events[..n + 1] == events;
      if before.pause.paused != st.pause.paused {
        PausedMovesOnlyUnderWindow(st, env, events[..n]);
        var i :| 0 <= i < n && MovesPausedAt(st, env, events[..n], i);
        assert events[..n][..i] == events[..i] && events[..n][..i + 1] == events[..i + 1];
        assert MovesPausedAt(st, env, events, i);
      } else {
        if !CallsUnderWindow(before, events[n]) {
          NoWindowKeepsPaused(before, env, events[n]);
        }
        assert MovesPausedAt(st, env, events, n);
      }
    }
  }

  // Safety through edits

  /** No call of the run is later than t. */
  ghost predicate NoneLater(events: seq<Event>, t: int) {
    forall i :: 0 <= i < |events| && events[i].Call? ==> events[i].now <= t
  }

  ghost predicate Ordered(events: seq<Event>) {
    var n := |events| - 1;
    events != [] ==> Ordered(events[..n]) && (events[n].Call? ==> NoneLater(events[..n], events[n].now))
  }

  /** NextPause is never cached alone, and if the stored hash is that of w, the times are a pair of w. */
  ghost predicate SafeFor(pause: PauseState, w: ActiveWindow, env: Environment) {
    && (pause.nextPause.Some? ==> pause.nextUnpause.Some?)
    && (pause.hash == Some(WindowHash(w)) ==> PairOf(pause, w, env))
  }

  /** A refreshed time is a fire not before now, and the next one unless it is now. */
  lemma RefreshedIsNow(cached: Option<int>, schedule: string, env: Environment, now: int)
    requires FireOf(cached, schedule, env) && (cached.Some? ==> cached.value <= now)
    ensures var r := Refreshed(cached, schedule, env, now);
            r.Success? ==>
              && FireOf(Some(r.value), schedule, env) && r.value >= now
              && (r.value > now ==> env.parse(schedule).value.next(now) == r.value)
  {
  }

  lemma OwnCallKeepsSafety(pause: PauseState, env: Environment, now: int, w: ActiveWindow)
    requires SafeFor(pause, w, env)
    ensures SafeFor(Step(pause, w, env, now), w, env)
  {
    var i := Invalidated(pause, w);
    RefreshedIsFire(i.nextUnpause, w.from, env, now);
    if i.nextPause.None? || i.nextPause.value <= now {
      RefreshedIsNow(i.nextPause, w.to, env, now);
    }
  }

  lemma ForeignCallKeepsSafety(pause: PauseState, v: ActiveWindow, env: Environment, now: int, w: ActiveWindow)
    requires !Mixes(Edited(Some(v), pause), env, Call(now), w)
    requires WindowHash(v) != WindowHash(w) && SafeFor(pause, w, env)
    ensures SafeFor(Step(pause, v, env, now), w, env)
  {
  }

  lemma {:induction false} SafeForUsed(st: Edited, env: Environment, all: seq<Event>, events: seq<Event>,
                                       w: ActiveWindow)
    requires st.pause.nextUnpause.None? && st.pause.nextPause.None?
    requires events <= all && DistinctHashes(st, all) && NeverMixes(st, env, all, events)
    requires Used(st, all, w)
    ensures SafeFor(History(st, env, events).pause, w, env)
    decreases |events|
  {
    if events != [] {
      var n := |events| - 1;
      var before := History(st, env, events[..n]);
      SafeForUsed(st, env, all, events[..n], w);
      WindowIsUsed(st, env, events[..n]);
      if events[n].Call? && before.window.Some? {
        var v := before.window.value;
        assert Used(st, all, v);
        if v == w {
          OwnCallKeepsSafety(before.pause, env, events[n].now, w);
        } else {
          ForeignCallKeepsSafety(before.pause, v, env, events[n].now, w);
        }
      }
    }
  }

  lemma {:induction false} EditsKeepOpeningPassed(st: Edited, env: Environment, events: seq<Event>, t: int)
    requires st.pause.nextUnpause.None? && st.pause.nextPause.None?
    requires Ordered(events) && NoneLater(events, t)
    ensures OpeningPassed(History(st, env, events).pause, t)
  {
    if events != [] {
      var n := |events| - 1;
      var before := History(st, env, events[..n]);
      if events[n].Call? {
        EditsKeepOpeningPassed(st, env, events[..n], events[n].now);
        if before.window.Some? {
          StepKeepsOpeningPassed(before.pause, before.window.value, env, events[n].now, events[n].now);
        }
      } else {
        EditsKeepOpeningPassed(st, env, events[..n], t);
      }
    }
  }

  /**
   * Unpause safety through edits: under the same two conditions, a call that leaves the cluster unpaused
   * lies in a window of the ActiveWindow then in force if and only if it does not fall exactly on NextPause.
   */
  lemma EditsKeepUnpauseSafety(st: Edited, env: Environment, events: seq<Event>, now: int)
    requires st.pause.nextUnpause.None? && st.pause.nextPause.None?
    requires DistinctHashes(st, events) && NeverMixes(st, env, events, events)
    requires Ordered(events) && NoneLater(events, now)
    requires History(st, env, events).window.Some?
    ensures var before := History(st, env, events);
            !Apply(before, env, Call(now)).pause.paused ==>
              (InActiveWindow(before.window.value, env, now) <==> before.pause.nextPause != Some(now))
  {
    WindowIsUsed(st, env, events);
    var before := History(st, env, events);
    SafeForUsed(st, env, events, events, before.window.value);
    EditsKeepOpeningPassed(st, env, events, now);
    if !Apply(before, env, Call(now)).pause.paused {
      StepUnpausesExactlyInWindow(before.pause, before.window.value, env, now, now);
    }
  }
}
