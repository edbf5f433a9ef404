/** The automaton that pauses and unpauses a cluster from its ActiveWindow. */
module Pausing {
  import opened Wrappers
  import opened Cluster
  import opened Cron

  /** What the automaton reads and writes. */
  datatype PauseState = PauseState(
    paused: bool,
    nextUnpause: Option<int>,
    nextPause: Option<int>,
    hash: Option<string>)

  /** What stays fixed while the automaton runs. */
  datatype Environment = Environment(parse: Parser, created: int)

  /** SHA-256 over the two schedules joined, taken as injective on the joined text and on nothing finer. */
  function WindowHash(w: ActiveWindow): string {
    w.from + w.to
  }

  ghost function PauseOf(cluster: SveltosCluster): PauseState
    reads cluster
  {
    PauseState(cluster.spec.paused, cluster.status.nextUnpause, cluster.status.nextPause,
               cluster.status.activeWindowHash)
  }

  /** A cached time once refreshed: kept until the clock has passed it. */
  ghost function Refreshed(cached: Option<int>, schedule: string, env: Environment, now: int)
    : Result<int, ScheduleError>
  {
    if cached.None? then NextStart(env.parse, schedule, Some(env.created), now)
    else if now > cached.value then NextStart(env.parse, schedule, Some(cached.value), now)
    else Success(cached.value)
  }

  ghost function Recalculate(s: PauseState, w: ActiveWindow, env: Environment, now: int): PauseState {
    match Refreshed(s.nextUnpause, w.from, env, now)
    case Failure(_) => s
    case Success(u) =>
      match Refreshed(s.nextPause, w.to, env, now)
      case Failure(_) => s.(nextUnpause := Some(u))
      case Success(p) => PauseState(s.paused, Some(u), Some(p), Some(WindowHash(w)))
  }

  ghost function Invalidated(s: PauseState, w: ActiveWindow): PauseState {
    if s.hash == Some(WindowHash(w)) then s else s.(nextUnpause := None, nextPause := None)
  }

  /** One call of the automaton on a cluster with an ActiveWindow. */
  ghost function Step(s0: PauseState, w: ActiveWindow, env: Environment, now: int): PauseState {
    var s := Invalidated(s0, w);
    if s.nextUnpause.None? || s.nextPause.None? then
      Recalculate(s.(paused := true), w, env, now)
    else
      var u, p := s.nextUnpause.value, s.nextPause.value;
      if u < now < p then s.(paused := false)
      else if now < u then s.(paused := true)
      else if now > p then Recalculate(s.(paused := true), w, env, now)
      else if now < p then s
      else Recalculate(s, w, env, now)
  }

  ghost function Handle(s: PauseState, window: Option<ActiveWindow>, env: Environment, now: int): PauseState {
    match window
    case None => s.(nextUnpause := None, nextPause := None)
    case Some(w) => Step(s, w, env, now)
  }

  /** The state after a sequence of calls under one ActiveWindow. */
  ghost function Run(s: PauseState, w: ActiveWindow, env: Environment, calls: seq<int>): PauseState {
    if calls == [] then s
    else Step(Run(s, w, env, calls[..|calls| - 1]), w, env, calls[|calls| - 1])
  }

  ghost predicate Ascending(calls: seq<int>) {
    forall i, j :: 0 <= i < j < |calls| ==> calls[i] <= calls[j]
  }

  /** The part of a cluster the automaton may write, and nothing else. */
  twostate predicate OnlyPauseChanged(cluster: SveltosCluster)
    reads cluster
  {
    && cluster.spec == old(cluster.spec).(paused := cluster.spec.paused)
    && cluster.status == old(cluster.status).(
         nextUnpause := cluster.status.nextUnpause,
         nextPause := cluster.status.nextPause,
         activeWindowHash := cluster.status.activeWindowHash)
  }

  method RecalculateNextUnpause(cluster: SveltosCluster, w: ActiveWindow, parse: Parser, now: int)
    returns (ok: bool)
    modifies cluster`status
    ensures var env := Environment(parse, cluster.creationTimestamp);
            var r := Refreshed(old(cluster.status.nextUnpause), w.from, env, now);
            && ok == r.Success?
            && cluster.status == if ok then old(cluster.status).(nextUnpause := Some(r.value))
                                 else old(cluster.status)
  {
    if cluster.status.nextUnpause.None? || now > cluster.status.nextUnpause.value {
      var lastRunTime := cluster.creationTimestamp;
      if cluster.status.nextUnpause.Some? {
        lastRunTime := cluster.status.nextUnpause.value;
      }
      var nextFromTime := GetNextScheduleTime(parse, w.from, Some(lastRunTime), now);
      if nextFromTime.Failure? {
        return false;
      }
      cluster.status := cluster.status.(nextUnpause := Some(nextFromTime.value));
    }
    return true;
  }

  method RecalculateNextPause(cluster: SveltosCluster, w: ActiveWindow, parse: Parser, now: int)
    returns (ok: bool)
    modifies cluster`status
    ensures var env := Environment(parse, cluster.creationTimestamp);
            var r := Refreshed(old(cluster.status.nextPause), w.to, env, now);
            && ok == r.Success?
            && cluster.status == if ok then old(cluster.status).(nextPause := Some(r.value))
                                 else old(cluster.status)
  {
    if cluster.status.nextPause.None? || now > cluster.status.nextPause.value {
      var lastRunTime := cluster.creationTimestamp;
      if cluster.status.nextPause.Some? {
        lastRunTime := cluster.status.nextPause.value;
      }
      var nextToTime := GetNextScheduleTime(parse, w.to, Some(lastRunTime), now);
      if nextToTime.Failure? {
        return false;
      }
      cluster.status := cluster.status.(nextPause := Some(nextToTime.value));
    }
    return true;
  }

  method HandleAutomaticPauseUnPause(cluster: SveltosCluster, parse: Parser, now: int)
    modifies cluster`spec, cluster`status
    ensures PauseOf(cluster) == Handle(old(PauseOf(cluster)), old(cluster.spec.activeWindow),
                                       Environment(parse, cluster.creationTimestamp), now)
    ensures OnlyPauseChanged(cluster)
    ensures old(cluster.spec.activeWindow).None? ==>
              && cluster.spec == old(cluster.spec)
              && cluster.status == old(cluster.status).(nextUnpause := None, nextPause := None)
  {
    if cluster.spec.activeWindow.None? {
      cluster.status := cluster.status.(nextUnpause := None, nextPause := None);
      return;
    }
    var w := cluster.spec.activeWindow.value;
    var currentHash := WindowHash(w);

    var forceRecalculate := false;
    if cluster.status.activeWindowHash != Some(currentHash) {
      cluster.status := cluster.status.(nextUnpause := None, nextPause := None);
      forceRecalculate := true;
    }

    if cluster.status.nextPause.Some? && cluster.status.nextUnpause.Some? {
      var nextUnpause, nextPause := cluster.status.nextUnpause.value, cluster.status.nextPause.value;
      if now > nextUnpause && now < nextPause {
        cluster.spec := cluster.spec.(paused := false);
        return;
      } else if now < nextUnpause {
        cluster.spec := cluster.spec.(paused := true);
        return;
      } else if now > nextPause {
        cluster.spec := cluster.spec.(paused := true);
      } else if now < nextPause {
        if !forceRecalculate {
          return;
        }
      }
    } else {
      cluster.spec := cluster.spec.(paused := true);
    }

    var ok := RecalculateNextUnpause(cluster, w, parse, now);
    if !ok {
      return;
    }
    ok := RecalculateNextPause(cluster, w, parse, now);
    if !ok {
      return;
    }
    if cluster.status.nextUnpause.Some? && cluster.status.nextPause.Some? {
      cluster.status := cluster.status.(activeWindowHash := Some(currentHash));
    }
  }
}
