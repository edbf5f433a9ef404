/** The connection status machine and the events it raises. */
module Connection {
  import opened Wrappers
  import opened Cluster

  datatype EventType = Warning | Normal

  datatype Reason = ClusterUnreachable | AgentUnhealthy | ClusterRecovered

  datatype Event = Event(eventType: EventType, reason: Reason, note: string)

  class EventRecorder {
    var log: seq<Event>

    constructor ()
      ensures log == []
    {
      log := [];
    }
  }

  function GetFailureMessage(failure: Option<FailureMessage>): string {
    match failure
    case None => "unknown failure"
    case Some(AgentHeartbeatTimeout) => "agent has not reported for longer than the maximum allowed time"
    case Some(Message(text)) => text
  }

  function Note(namespace: string, name: string, message: string): string {
    "cluster " + namespace + "/" + name + ": " + message
  }

  /** What one observation of the cluster carries. */
  datatype Observation = Observation(
    failure: Option<FailureMessage>,
    threshold: int,
    pullMode: bool,
    namespace: string,
    name: string)

  /** The part of the status the machine reads and writes. */
  datatype ConnectionState = ConnectionState(status: ConnectionStatus, failures: int)

  ghost function ConnectionOf(cluster: SveltosCluster): ConnectionState
    reads cluster
  {
    ConnectionState(cluster.status.connectionStatus, cluster.status.connectionFailures)
  }

  ghost function ObservationOf(cluster: SveltosCluster): Observation
    reads cluster
  {
    Observation(cluster.status.failureMessage, cluster.spec.consecutiveFailureThreshold, cluster.spec.pullMode,
                cluster.namespace, cluster.name)
  }

  function Step(s: ConnectionState, o: Observation): ConnectionState {
    if o.failure.Some? then
      ConnectionState(if s.failures + 1 >= o.threshold then Down else s.status, s.failures + 1)
    else ConnectionState(Healthy, 0)
  }

  /** The events of one transition: none while the status stays on the same side of Down. */
  function Transition(previous: ConnectionStatus, current: ConnectionStatus, o: Observation): seq<Event> {
    if previous != Down && current == Down then
      [Event(Warning, if o.pullMode then AgentUnhealthy else ClusterUnreachable,
             Note(o.namespace, o.name, GetFailureMessage(o.failure)))]
    else if previous == Down && current != Down then
      [Event(Normal, ClusterRecovered,
             Note(o.namespace, o.name,
                  if o.pullMode then "agent is reporting again" else "connection is healthy again"))]
    else []
  }

  /** The one event of entering or leaving Down, in either mode, with the note of either. */
  lemma TransitionTold(previous: ConnectionStatus, current: ConnectionStatus, o: Observation, text: string)
    ensures var cluster := "cluster " + o.namespace + "/" + o.name + ": ";
            && (previous != Down && current == Down && o.failure == Some(Message(text)) ==>
                  Transition(previous, current, o) ==
                    [Event(Warning, if o.pullMode then AgentUnhealthy else ClusterUnreachable, cluster + text)])
            && (previous != Down && current == Down && o.failure == Some(AgentHeartbeatTimeout) && o.pullMode ==>
                  Transition(previous, current, o) ==
                    [Event(Warning, AgentUnhealthy,
                           cluster + "agent has not reported for longer than the maximum allowed time")])
            && (previous != Down && current == Down && o.failure == None ==>
                  Transition(previous, current, o) ==
                    [Event(Warning, if o.pullMode then AgentUnhealthy else ClusterUnreachable,
                           cluster + "unknown failure")])
            && (previous == Down && current != Down && o.pullMode ==>
                  Transition(previous, current, o) ==
                    [Event(Normal, ClusterRecovered, cluster + "agent is reporting again")])
            && (previous == Down && current != Down && !o.pullMode ==>
                  Transition(previous, current, o) ==
                    [Event(Normal, ClusterRecovered, cluster + "connection is healthy again")])
            && ((previous == Down) == (current == Down) ==> Transition(previous, current, o) == [])
  {
  }

  method RecordEventf(recorder: EventRecorder?, event: Event)
    modifies recorder
    ensures recorder != null ==> recorder.log == old(recorder.log) + [event]
  {
    if recorder == null {
      return;
    }
    recorder.log := recorder.log + [event];
  }

  method RecordConnectionTransition(cluster: SveltosCluster, recorder: EventRecorder?, previousStatus: ConnectionStatus)
    modifies recorder
    ensures recorder != null ==>
              recorder.log == old(recorder.log)
                + Transition(previousStatus, cluster.status.connectionStatus, ObservationOf(cluster))
  {
    var currentStatus := cluster.status.connectionStatus;
    if previousStatus != Down && currentStatus == Down {
      var reason := ClusterUnreachable;
      if cluster.spec.pullMode {
        reason := AgentUnhealthy;
      }
      var message := GetFailureMessage(cluster.status.failureMessage);
      RecordEventf(recorder, Event(Warning, reason, Note(cluster.namespace, cluster.name, message)));
    } else if previousStatus == Down && currentStatus != Down {
      var message := "connection is healthy again";
      if cluster.spec.pullMode {
        message := "agent is reporting again";
      }
      RecordEventf(recorder, Event(Normal, ClusterRecovered, Note(cluster.namespace, cluster.name, message)));
    }
  }

  method UpdateConnectionStatus(cluster: SveltosCluster, recorder: EventRecorder?)
    modifies cluster`status, recorder
    ensures ConnectionOf(cluster) == Step(old(ConnectionOf(cluster)), old(ObservationOf(cluster)))
    ensures old(cluster.status.failureMessage).None? ==> ConnectionOf(cluster) == ConnectionState(Healthy, 0)
    ensures old(cluster.status.failureMessage).Some? ==>
              && cluster.status.connectionFailures == old(cluster.status.connectionFailures) + 1
              && cluster.status.connectionStatus ==
                   if cluster.status.connectionFailures >= cluster.spec.consecutiveFailureThreshold then Down
                   else old(cluster.status.connectionStatus)
    ensures cluster.status == old(cluster.status).(connectionStatus := cluster.status.connectionStatus,
                                                   connectionFailures := cluster.status.connectionFailures)
    ensures recorder != null ==>
              recorder.log == old(recorder.log)
                + Transition(old(cluster.status.connectionStatus), cluster.status.connectionStatus,
                             old(ObservationOf(cluster)))
  {
    var previousStatus := cluster.status.connectionStatus;
    if cluster.status.failureMessage.Some? {
      cluster.status := cluster.status.(connectionFailures := cluster.status.connectionFailures + 1);
      if cluster.status.connectionFailures >= cluster.spec.consecutiveFailureThreshold {
        cluster.status := cluster.status.(connectionStatus := Down);
      }
    } else {
      cluster.status := cluster.status.(connectionStatus := Healthy);
      cluster.status := cluster.status.(connectionFailures := 0);
    }
    RecordConnectionTransition(cluster, recorder, previousStatus);
  }
}

/** What the connection machine means over whole runs of observations. */
module ConnectionHistory {
  import opened Wrappers
  import opened Cluster
  import opened Connection

  function Run(s: ConnectionState, obs: seq<Observation>): ConnectionState {
    if obs == [] then s else Step(Run(s, obs[..|obs| - 1]), obs[|obs| - 1])
  }

  /** The events recorded along a run; the previous status of each step is the one persisted by the step before. */
  function Log(s: ConnectionState, obs: seq<Observation>): seq<Event> {
    if obs == [] then []
    else
      var n := |obs| - 1;
      Log(s, obs[..n]) + Transition(Run(s, obs[..n]).status, Run(s, obs).status, obs[n])
  }

  /** k is the length of the run of failures the observations end with. */
  ghost predicate TrailingFailures(obs: seq<Observation>, k: int) {
    && 0 <= k <= |obs|
    && (forall i :: |obs| - k <= i < |obs| ==> obs[i].failure.Some?)
    && (k < |obs| ==> obs[|obs| - k - 1].failure.None?)
  }

  /** Some failure since the last success reached the threshold then in force. */
  ghost predicate ReachedThreshold(obs: seq<Observation>, k: int)
    requires TrailingFailures(obs, k)
  {
    exists i :: |obs| - k <= i < |obs| && i + 1 - (|obs| - k) >= obs[i].threshold
  }

  ghost predicate HoldsSuccess(obs: seq<Observation>) {
    exists i :: 0 <= i < |obs| && obs[i].failure.None?
  }

  lemma OneMoreObservation(obs: seq<Observation>)
    requires obs != []
    ensures HoldsSuccess(obs) <==> HoldsSuccess(obs[..|obs| - 1]) || obs[|obs| - 1].failure.None?
  {
    var n := |obs| - 1;
    assert forall i :: 0 <= i < n ==> obs[..n][i] == obs[i];
  }

  lemma FailureExtendsStreak(obs: seq<Observation>, k: int)
    requires obs != [] && obs[|obs| - 1].failure.Some?
    requires TrailingFailures(obs[..|obs| - 1], k)
    ensures TrailingFailures(obs, k + 1)
    ensures ReachedThreshold(obs, k + 1) <==> ReachedThreshold(obs[..|obs| - 1], k) || k + 1 >= obs[|obs| - 1].threshold
  {
  }

  /**
   * Streak counting over every run from zero failures and a status that is not Down: the counter is the
   * length of the trailing run of failures, and the status is Down exactly when some failure since the
   * last success reached the threshold then in force. Otherwise it is Healthy once the run holds a success,
   * and until then what it was.
   */
  lemma {:induction false} StreakCounting(s: ConnectionState, obs: seq<Observation>)
    requires s.failures == 0 && s.status != Down
    ensures TrailingFailures(obs, Run(s, obs).failures)
    ensures Run(s, obs).status == Down <==> ReachedThreshold(obs, Run(s, obs).failures)
    ensures Run(s, obs).status == Down
            || Run(s, obs).status == if HoldsSuccess(obs) then Healthy else s.status
  {
    if obs != [] {
      var n := |obs| - 1;
      StreakCounting(s, obs[..n]);
      OneMoreObservation(obs);
      if obs[n].failure.Some? {
        FailureExtendsStreak(obs, Run(s, obs[..n]).failures);
      }
    }
  }

  lemma TrailingFailuresUnique(obs: seq<Observation>, k: int, k': int)
    requires TrailingFailures(obs, k) && TrailingFailures(obs, k')
    ensures k == k'
  {
  }

  /** With one threshold of at least 1, Down means that the trailing run of failures has reached it. */
  lemma DownExactlyAtThreshold(s: ConnectionState, obs: seq<Observation>, threshold: int, k: int)
    requires s.failures == 0 && s.status != Down && threshold >= 1
    requires forall i :: 0 <= i < |obs| ==> obs[i].threshold == threshold
    requires TrailingFailures(obs, k)
    ensures Run(s, obs) == ConnectionState(Run(s, obs).status, k)
    ensures Run(s, obs).status == Down <==> k >= threshold
  {
    StreakCounting(s, obs);
    TrailingFailuresUnique(obs, k, Run(s, obs).failures);
    if k >= threshold {
      var last := |obs| - 1;
      assert last + 1 - (|obs| - k) >= obs[last].threshold;
    }
  }

  predicate IsFailure(e: Event) {
    e.eventType == Warning && e.reason != ClusterRecovered
  }

  predicate IsRecovery(e: Event) {
    e.eventType == Normal && e.reason == ClusterRecovered
  }

  function Count(log: seq<Event>, failures: bool): nat {
    if log == [] then 0
    else Count(log[..|log| - 1], failures) + (if IsFailure(log[|log| - 1]) == failures then 1 else 0)
  }

  /** Failures and recoveries take turns, from a status that is Down or not to one that is Down or not. */
  ghost predicate TakeTurns(log: seq<Event>, startsDown: bool, endsDown: bool) {
    && (forall i :: 0 <= i < |log| ==> IsFailure(log[i]) || IsRecovery(log[i]))
    && (forall i, j :: 0 <= i && j == i + 1 && j < |log| ==> IsFailure(log[i]) != IsFailure(log[j]))
    && (log == [] ==> startsDown == endsDown)
    && (log != [] ==> IsFailure(log[0]) != startsDown && IsFailure(log[|log| - 1]) == endsDown)
  }

  lemma TransitionTurns(log: seq<Event>, startsDown: bool, previous: ConnectionStatus, current: ConnectionStatus,
                        o: Observation)
    requires TakeTurns(log, startsDown, previous == Down)
    ensures TakeTurns(log + Transition(previous, current, o), startsDown, current == Down)
  {
    var t := Transition(previous, current, o);
    if t == [] {
      assert log + t == log;
    } else {
      assert IsFailure(t[0]) == (current == Down) != (previous == Down);
      assert forall i :: 0 <= i < |log| ==> (log + t)[i] == log[i];
    }
  }

  /**
   * Event conservation over every run: failure and recovery events strictly alternate, the first one is
   * a failure exactly when the run does not start Down, and the last one tells the final status.
   */
  lemma {:induction false} EventsAlternate(s: ConnectionState, obs: seq<Observation>)
    ensures TakeTurns(Log(s, obs), s.status == Down, Run(s, obs).status == Down)
  {
    if obs != [] {
      var n := |obs| - 1;
      EventsAlternate(s, obs[..n]);
      TransitionTurns(Log(s, obs[..n]), s.status == Down, Run(s, obs[..n]).status, Run(s, obs).status, obs[n]);
    }
  }

  /** Failures minus recoveries of a log. */
  function Balance(log: seq<Event>): int {
    Count(log, true) - Count(log, false)
  }

  lemma BalanceOneMore(log: seq<Event>, t: seq<Event>)
    requires |t| <= 1
    ensures Balance(log + t) == Balance(log) + (if t == [] then 0 else if IsFailure(t[0]) then 1 else -1)
  {
    if t == [] {
      assert log + t == log;
    } else {
      assert (log + t)[..|log|] == log;
    }
  }

  lemma TransitionBalance(log: seq<Event>, previous: ConnectionStatus, current: ConnectionStatus, o: Observation)
    ensures Balance(log + Transition(previous, current, o)) ==
              Balance(log) + (if current == Down then 1 else 0) - (if previous == Down then 1 else 0)
  {
    BalanceOneMore(log, Transition(previous, current, o));
  }

  /** Failures minus recoveries is the change of being Down: a lasting outage raises one event, restarts included. */
  lemma {:induction false} FailuresMinusRecoveries(s: ConnectionState, obs: seq<Observation>)
    ensures Count(Log(s, obs), true) - Count(Log(s, obs), false)
              == (if Run(s, obs).status == Down then 1 else 0) - (if s.status == Down then 1 else 0)
  {
    if obs != [] {
      var n := |obs| - 1;
      FailuresMinusRecoveries(s, obs[..n]);
      TransitionBalance(Log(s, obs[..n]), Run(s, obs[..n]).status, Run(s, obs).status, obs[n]);
    }
  }
}
