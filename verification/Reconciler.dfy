/** One reconcile of a cluster: every machine of the controller driven in the order of the source. */
module Reconciler {
  import opened Wrappers
  import opened Time
  import opened Cluster
  import opened Cron
  import Pausing
  import opened TokenRenewal
  import opened Connection
  import opened ClusterChecks
  import Metrics

  const PERIODIC_REQUEUE_AFTER: int := MINUTE
  const DELETE_REQUEUE_AFTER: int := MINUTE
  const MAX_HEARTBEAT_AGE: int := 10 * MINUTE
  const CLUSTER_TYPE := "Sveltos"
  const VERSION_LABEL := "projectsveltos.io/k8s-version"
  const PULL_MODE_KUBECONFIG_SECRET_KEY := "kubeconfig"

  function KeyOf(cluster: SveltosCluster): (key: Metrics.ClusterKey)
    ensures key.clusterType == "Sveltos" && key.namespace == cluster.namespace && key.name == cluster.name
  {
    Metrics.ClusterKey(CLUSTER_TYPE, cluster.namespace, cluster.name)
  }

  /** What a reconcile may change of a cluster and of its gauges. */
  datatype World = World(spec: ClusterSpec, status: ClusterStatus, labels: map<string, string>, tables: Metrics.Tables)

  ghost function WorldOf(cluster: SveltosCluster, gauges: Metrics.Gauges): World
    reads cluster, gauges
  {
    World(cluster.spec, cluster.status, cluster.labels, gauges.Contents())
  }

  /** Both connection gauges set to this state. */
  function Published(t: Metrics.Tables, key: Metrics.ClusterKey, c: ConnectionState): Metrics.Tables {
    Metrics.Apply(Metrics.Apply(t, key, Metrics.SetConnectivity(c.status)), key, Metrics.SetFailures(c.failures))
  }

  /** The connection state put into the status, and into the gauges when it is published. */
  function WithConnection(w: World, key: Metrics.ClusterKey, publish: bool, c: ConnectionState): World {
    w.(status := w.status.(connectionStatus := c.status, connectionFailures := c.failures),
       tables := if publish then Published(w.tables, key, c) else w.tables)
  }

  /** The connection gauges of the cluster show its status. */
  ghost predicate GaugesShow(t: Metrics.Tables, key: Metrics.ClusterKey, s: ConnectionState) {
    && key in t.connectivity && t.connectivity[key] == (if s.status == Healthy then 0.0 else 1.0)
    && key in t.failures && t.failures[key] == s.failures as real
  }

  method PublishConnection(cluster: SveltosCluster, gauges: Metrics.Gauges)
    modifies gauges
    ensures gauges.Contents() == Published(old(gauges.Contents()), KeyOf(cluster), ConnectionOf(cluster))
    ensures GaugesShow(gauges.Contents(), KeyOf(cluster), ConnectionOf(cluster))
  {
    gauges.UpdateClusterConnectionStatusMetric(KeyOf(cluster), cluster.status.connectionStatus);
    gauges.UpdateConnectionFailuresMetric(KeyOf(cluster), cluster.status.connectionFailures);
  }

  predicate RenewalDue(spec: ClusterSpec, status: ClusterStatus, created: int, now: int) {
    ShouldRenewTokenRequest(spec.tokenRequestRenewalOption, status.lastReconciledTokenRequestAt, created, now)
  }

  /** The renewal option once these contexts were tried. */
  function OptionAfter(opt: Option<RenewalOption>, tried: seq<Context>): Option<RenewalOption> {
    if opt.None? then None else Some(AdjustedBy(opt.value, tried))
  }

  /** The renewal fields of a cluster once these contexts were tried: untouched when there were none. */
  ghost predicate TokenFieldsAfter(spec: ClusterSpec, status: ClusterStatus, tried: seq<Context>, spec': ClusterSpec,
                                   status': ClusterStatus) {
    && spec'.tokenRequestRenewalOption == OptionAfter(spec.tokenRequestRenewalOption, tried)
    && status'.lastReconciledTokenRequestAt == LastRecorded(Stored(tried), status.lastReconciledTokenRequestAt)
  }

  // Push mode

  /** What the outside world answers during a push-mode reconcile. */
  datatype PushInputs = PushInputs(
    configError: Option<string>,
    version: Result<string, string>,
    semver: Option<string>,
    renewalCheck: int,
    renewal: RenewalInputs,
    eval: Evaluation)

  /** The error a due renewal reports; failures of single contexts are only logged. */
  function RenewalError(opt: RenewalOption, inputs: RenewalInputs): Option<string> {
    if inputs.secret.Failure? then Some(inputs.secret.error)
    else if inputs.secret.value.Failure? then Some(inputs.secret.value.error)
    else
      var details := GetServiceAccountDetails(opt, inputs.whoami);
      if details.Failure? then Some(details.error) else None
  }

  predicate Answers(inputs: PushInputs) {
    inputs.configError.None? && inputs.version.Success?
  }

  /** A renewal is due and can start: the Secret is readable and an account is found. */
  predicate Renews(spec: ClusterSpec, status: ClusterStatus, created: int, inputs: PushInputs) {
    && RenewalDue(spec, status, created, inputs.renewalCheck)
    && RenewalError(spec.tokenRequestRenewalOption.value, inputs.renewal).None?
  }

  /** The contexts a push-mode renewal tries: none unless it is due and can start. */
  function PushTried(spec: ClusterSpec, status: ClusterStatus, created: int, inputs: PushInputs): seq<Context> {
    if !Renews(spec, status, created, inputs) then []
    else
      var details := GetServiceAccountDetails(spec.tokenRequestRenewalOption.value, inputs.renewal.whoami);
      Tried(details.value, inputs.renewal.secret.value.value)
  }

  /** The account such a renewal requests its tokens for. */
  function PushAccount(spec: ClusterSpec, status: ClusterStatus, created: int, inputs: PushInputs): ServiceAccount
    requires Renews(spec, status, created, inputs)
  {
    var details := GetServiceAccountDetails(spec.tokenRequestRenewalOption.value, inputs.renewal.whoami);
    RenewedAccount(details.value, inputs.renewal.secret.value.value)
  }

  /** The token requests such a renewal makes, and what it writes to the Secret. */
  function PushRequests(spec: ClusterSpec, status: ClusterStatus, created: int, inputs: PushInputs): seq<Request> {
    if !Renews(spec, status, created, inputs) then []
    else Requests(PushTried(spec, status, created, inputs),
                  Request(PushAccount(spec, status, created, inputs),
                          EffectiveTokenSeconds(spec.tokenRequestRenewalOption.value)))
  }

  function PushWrites(spec: ClusterSpec, status: ClusterStatus, created: int, inputs: PushInputs): seq<Write> {
    if !Renews(spec, status, created, inputs) then []
    else WritesOf(Stored(PushTried(spec, status, created, inputs)), GetKubeconfigKey(spec.tokenRequestRenewalOption),
                  PushAccount(spec, status, created, inputs))
  }

  /** What a whole push-mode reconcile tries, requests and writes: nothing when the cluster does not answer. */
  function TriedByPush(spec: ClusterSpec, status: ClusterStatus, created: int, inputs: PushInputs): seq<Context> {
    if Answers(inputs) then PushTried(spec, status, created, inputs) else []
  }

  function RequestedByPush(spec: ClusterSpec, status: ClusterStatus, created: int, inputs: PushInputs): seq<Request> {
    if Answers(inputs) then PushRequests(spec, status, created, inputs) else []
  }

  function WrittenByPush(spec: ClusterSpec, status: ClusterStatus, created: int, inputs: PushInputs): seq<Write> {
    if Answers(inputs) then PushWrites(spec, status, created, inputs) else []
  }

  function PushRenewalFailure(spec: ClusterSpec, status: ClusterStatus, created: int,
                              inputs: PushInputs): Option<FailureMessage> {
    if !RenewalDue(spec, status, created, inputs.renewalCheck) then None
    else
      var error := RenewalError(spec.tokenRequestRenewalOption.value, inputs.renewal);
      if error.Some? then Some(Message(error.value)) else None
  }

  /** The cluster as the readiness latch sees it. */
  function ProbeOf(spec: ClusterSpec, inputs: PushInputs): Probe {
    if Answers(inputs) then Reachable(spec.readinessChecks, spec.livenessChecks, inputs.eval) else Unreachable
  }

  /** The cluster answers and every check evaluated passes. */
  ghost predicate ChecksPass(spec: ClusterSpec, status: ClusterStatus, inputs: PushInputs) {
    var probe := ProbeOf(spec, inputs);
    probe.Reachable? && AllPass(Evaluated(status.ready, probe), inputs.eval)
  }

  /** The failure a push-mode reconcile observes: unreachable first, then a failed check, then a failed renewal. */
  ghost predicate ObservesFailure(spec: ClusterSpec, status: ClusterStatus, created: int, inputs: PushInputs,
                                  failure: Option<FailureMessage>) {
    if inputs.configError.Some? then failure == Some(Message(inputs.configError.value))
    else if inputs.version.Failure? then failure == Some(Message(inputs.version.error))
    else
      exists checkError ::
        && Reports(Evaluated(status.ready, ProbeOf(spec, inputs)), inputs.eval, checkError)
        && failure == (if checkError.Some? then Some(Message(checkError.value))
                       else PushRenewalFailure(spec, status, created, inputs))
  }

  /** That fixes the failure: no two reconciles with the same answers observe different ones. */
  lemma OneFailureObserved(spec: ClusterSpec, status: ClusterStatus, created: int, inputs: PushInputs,
                           failure: Option<FailureMessage>, failure': Option<FailureMessage>)
    requires ObservesFailure(spec, status, created, inputs, failure)
    requires ObservesFailure(spec, status, created, inputs, failure')
    ensures failure == failure'
  {
    if Answers(inputs) {
      var checks := Evaluated(status.ready, ProbeOf(spec, inputs));
      var renewal := PushRenewalFailure(spec, status, created, inputs);
      var e :| Reports(checks, inputs.eval, e) && failure == if e.Some? then Some(Message(e.value)) else renewal;
      var e' :| Reports(checks, inputs.eval, e') && failure' == if e'.Some? then Some(Message(e'.value)) else renewal;
      ReportsUnique(checks, inputs.eval, e, e');
    }
  }

  /** The spec once these contexts were tried. */
  function SpecAfter(spec: ClusterSpec, tried: seq<Context>): ClusterSpec {
    spec.(tokenRequestRenewalOption := OptionAfter(spec.tokenRequestRenewalOption, tried),
          kubeconfigKeyName := if Stored(tried) == [] then spec.kubeconfigKeyName
                               else GetKubeconfigKey(spec.tokenRequestRenewalOption))
  }

  /** A cluster whose checks all passed is ready, and labelled and measured with its version. */
  function Recorded(w: World, key: Metrics.ClusterKey, version: string, semver: Option<string>): World {
    World(w.spec, w.status.(ready := true, version := version),
          if semver.Some? then w.labels[VERSION_LABEL := semver.value] else w.labels,
          if semver.Some? then Metrics.Apply(w.tables, key, Metrics.SetVersion(semver.value)) else w.tables)
  }

  /** The cluster once it was probed, up to its connection state. */
  ghost function Probed(w: World, created: int, key: Metrics.ClusterKey, inputs: PushInputs,
                        failure: Option<FailureMessage>): World {
    var tried := TriedByPush(w.spec, w.status, created, inputs);
    var recorded := LastRecorded(Stored(tried), w.status.lastReconciledTokenRequestAt);
    var renewed := w.(spec := SpecAfter(w.spec, tried),
                      status := w.status.(failureMessage := failure, lastReconciledTokenRequestAt := recorded));
    if ChecksPass(w.spec, w.status, inputs) then Recorded(renewed, key, inputs.version.value, inputs.semver)
    else renewed
  }

  /** Renews the token when due; a renewal that could not start leaves its error in FailureMessage. */
  method RenewIfDue(cluster: SveltosCluster, secret: KubeconfigSecret, inputs: PushInputs)
    returns (requests: seq<Request>)
    requires cluster.status.failureMessage.None?
    modifies cluster`spec, cluster`status, secret
    ensures var tried := PushTried(old(cluster.spec), old(cluster.status), cluster.creationTimestamp, inputs);
            && cluster.spec == SpecAfter(old(cluster.spec), tried)
            && cluster.status == old(cluster.status).(
                 failureMessage := PushRenewalFailure(old(cluster.spec), old(cluster.status),
                                                      cluster.creationTimestamp, inputs),
                 lastReconciledTokenRequestAt := LastRecorded(Stored(tried),
                                                              old(cluster.status).lastReconciledTokenRequestAt))
    ensures secret.writes == old(secret.writes)
                             + PushWrites(old(cluster.spec), old(cluster.status), cluster.creationTimestamp, inputs)
    ensures requests == PushRequests(old(cluster.spec), old(cluster.status), cluster.creationTimestamp, inputs)
  {
    requests := [];
    if ShouldRenewTokenRequest(cluster.spec.tokenRequestRenewalOption, cluster.status.lastReconciledTokenRequestAt,
                               cluster.creationTimestamp, inputs.renewalCheck) {
      var err;
      err, requests := HandleTokenRequestRenewal(cluster, secret, inputs.renewal);
      if err.Some? {
        cluster.status := cluster.status.(failureMessage := Some(Message(err.value)));
      }
    }
  }

  method RecordReady(cluster: SveltosCluster, gauges: Metrics.Gauges, version: string, semver: Option<string>)
    modifies cluster`status, cluster`labels, gauges
    ensures WorldOf(cluster, gauges) == Recorded(old(WorldOf(cluster, gauges)), KeyOf(cluster), version, semver)
  {
    cluster.status := cluster.status.(ready := true);
    if semver.Some? {
      cluster.labels := cluster.labels[VERSION_LABEL := semver.value];
      gauges.UpdateKubernetesVersionMetric(KeyOf(cluster), semver.value);
    }
    cluster.status := cluster.status.(version := version);
  }

  /** Readiness checks until the cluster is ready, liveness checks from then on. */
  method RunClusterChecks(cluster: SveltosCluster, eval: Evaluation) returns (err: Option<string>)
    ensures var probe := Reachable(cluster.spec.readinessChecks, cluster.spec.livenessChecks, eval);
            Reports(Evaluated(cluster.status.ready, probe), eval, err)
  {
    if !cluster.status.ready {
      err := RunChecks(cluster.spec.readinessChecks, eval);
    } else {
      err := RunChecks(cluster.spec.livenessChecks, eval);
    }
  }

  /** Probes the cluster, renews its token when due, and runs its checks; leaves the verdict in FailureMessage. */
  method ProbeCluster(cluster: SveltosCluster, gauges: Metrics.Gauges, secret: KubeconfigSecret, inputs: PushInputs)
    returns (requests: seq<Request>)
    requires inputs.configError.None?
    modifies cluster`spec, cluster`status, cluster`labels, gauges, secret
    ensures ObservesFailure(old(cluster.spec), old(cluster.status), cluster.creationTimestamp, inputs,
                            cluster.status.failureMessage)
    ensures WorldOf(cluster, gauges) == Probed(old(WorldOf(cluster, gauges)), cluster.creationTimestamp, KeyOf(cluster),
                                               inputs, cluster.status.failureMessage)
    ensures secret.writes == old(secret.writes)
                             + WrittenByPush(old(cluster.spec), old(cluster.status), cluster.creationTimestamp, inputs)
    ensures requests == RequestedByPush(old(cluster.spec), old(cluster.status), cluster.creationTimestamp, inputs)
  {
    requests := [];
    ghost var spec, status := cluster.spec, cluster.status;
    cluster.status := cluster.status.(failureMessage := None);
    if inputs.version.Failure? {
      cluster.status := cluster.status.(failureMessage := Some(Message(inputs.version.error)));
      NothingTried(spec);
      return;
    }
    requests := RenewIfDue(cluster, secret, inputs);
    var checkError := RunClusterChecks(cluster, inputs.eval);
    assert Reports(Evaluated(status.ready, ProbeOf(spec, inputs)), inputs.eval, checkError);
    if checkError.Some? {
      cluster.status := cluster.status.(failureMessage := Some(Message(checkError.value)));
      return;
    }
    RecordReady(cluster, gauges, inputs.version.value, inputs.semver);
  }

  lemma NothingTried(spec: ClusterSpec)
    ensures SpecAfter(spec, []) == spec
  {
  }

  /** A push-mode reconcile before its connection state: without a client only the failure is recorded. */
  ghost function PushWorld(w: World, created: int, key: Metrics.ClusterKey, inputs: PushInputs,
                           failure: Option<FailureMessage>): World {
    if inputs.configError.Some? then w.(status := w.status.(failureMessage := failure))
    else Probed(w, created, key, inputs, failure)
  }

  lemma PushTokenFields(w: World, created: int, key: Metrics.ClusterKey, inputs: PushInputs,
                        failure: Option<FailureMessage>)
    ensures var after := PushWorld(w, created, key, inputs, failure);
            TokenFieldsAfter(w.spec, w.status, TriedByPush(w.spec, w.status, created, inputs), after.spec, after.status)
  {
  }

  method ReconcilePushModeCluster(cluster: SveltosCluster, gauges: Metrics.Gauges, recorder: EventRecorder?,
                                  secret: KubeconfigSecret, inputs: PushInputs)
    returns (requests: seq<Request>)
    modifies cluster`spec, cluster`status, cluster`labels, gauges, recorder, secret
    ensures ObservesFailure(old(cluster.spec), old(cluster.status), cluster.creationTimestamp, inputs,
                            cluster.status.failureMessage)
    ensures WorldOf(cluster, gauges) ==
              WithConnection(PushWorld(old(WorldOf(cluster, gauges)), cluster.creationTimestamp, KeyOf(cluster), inputs,
                                       cluster.status.failureMessage),
                             KeyOf(cluster), inputs.configError.None?, ConnectionOf(cluster))
    ensures secret.writes == old(secret.writes)
                             + WrittenByPush(old(cluster.spec), old(cluster.status), cluster.creationTimestamp, inputs)
    ensures requests == RequestedByPush(old(cluster.spec), old(cluster.status), cluster.creationTimestamp, inputs)
    ensures ConnectionOf(cluster) == Step(old(ConnectionOf(cluster)), ObservationOf(cluster))
    ensures recorder != null ==>
              recorder.log == old(recorder.log)
                + Transition(old(cluster.status.connectionStatus), cluster.status.connectionStatus,
                             ObservationOf(cluster))
    ensures inputs.configError.None? ==> GaugesShow(gauges.Contents(), KeyOf(cluster), ConnectionOf(cluster))
    ensures cluster.status.ready <==> ReadyAfter(old(cluster.status.ready), ProbeOf(old(cluster.spec), inputs))
  {
    requests := [];
    if inputs.configError.Some? {
      cluster.status := cluster.status.(failureMessage := Some(Message(inputs.configError.value)));
      UpdateConnectionStatus(cluster, recorder);
      return;
    }
    requests := ProbeCluster(cluster, gauges, secret, inputs);
    UpdateConnectionStatus(cluster, recorder);
    PublishConnection(cluster, gauges);
  }

  // Pull mode

  /** How far the delivery of a renewed kubeconfig got. */
  datatype PullAttempt =
    | NoEndpoint(error: string)
    | NoToken(error: string)
    | NotDelivered(token: Token, error: string)
    | Delivered(token: Token, recordedAt: int)

  datatype PullInputs = PullInputs(renewalCheck: int, attempt: PullAttempt, now: int)

  /** The attempt as the renewal history sees it. */
  function AttemptOf(a: PullAttempt): Attempt {
    match a
    case NotDelivered(token, _) => Issued(token, false, 0)
    case Delivered(token, recordedAt) => Issued(token, true, recordedAt)
    case _ => Refused
  }

  predicate NamesAccount(opt: Option<RenewalOption>) {
    opt.Some? && opt.value.saName != "" && opt.value.saNamespace != ""
  }

  /** Pull mode observes the agent only once the cluster is ready and has reported. */
  predicate ObservesAgent(status: ClusterStatus) {
    status.ready && status.agentLastReportTime.Some?
  }

  /** The pull-mode renewal as one tried context; none unless an account is named. */
  function PullAttempted(opt: Option<RenewalOption>, attempt: PullAttempt): seq<Context> {
    if !NamesAccount(opt) then [] else [Context(opt.value.saNamespace, opt.value.saName, AttemptOf(attempt))]
  }

  function TriedByPull(spec: ClusterSpec, status: ClusterStatus, created: int, inputs: PullInputs): seq<Context> {
    if RenewalDue(spec, status, created, inputs.renewalCheck)
    then PullAttempted(spec.tokenRequestRenewalOption, inputs.attempt)
    else []
  }

  /** A token is requested for the named account alone, once the endpoint is known. */
  function PullRequests(opt: Option<RenewalOption>, attempt: PullAttempt): seq<Request> {
    if !NamesAccount(opt) || attempt.NoEndpoint? then []
    else [Request(ServiceAccount(opt.value.saNamespace, opt.value.saName), EffectiveTokenSeconds(opt.value))]
  }

  /** The kubeconfig committed for the agent, when delivery gets that far. */
  function PullWrites(opt: Option<RenewalOption>, attempt: PullAttempt): seq<Write> {
    if !NamesAccount(opt) || !attempt.Delivered? then []
    else [Write(PULL_MODE_KUBECONFIG_SECRET_KEY,
                Kubeconfig(ServiceAccount(opt.value.saNamespace, opt.value.saName), attempt.token))]
  }

  /** What a whole pull-mode reconcile requests and delivers: nothing unless a renewal is due. */
  function RequestedByPull(spec: ClusterSpec, status: ClusterStatus, created: int, inputs: PullInputs): seq<Request> {
    if RenewalDue(spec, status, created, inputs.renewalCheck)
    then PullRequests(spec.tokenRequestRenewalOption, inputs.attempt)
    else []
  }

  function WrittenByPull(spec: ClusterSpec, status: ClusterStatus, created: int, inputs: PullInputs): seq<Write> {
    if RenewalDue(spec, status, created, inputs.renewalCheck)
    then PullWrites(spec.tokenRequestRenewalOption, inputs.attempt)
    else []
  }

  lemma OneAttempt(opt: RenewalOption, context: Context, recorded: Timestamp)
    ensures AdjustedBy(opt, [context]) ==
              if context.attempt.Issued? then Adjusted(opt, context.attempt.token) else opt
    ensures LastRecorded(Stored([context]), recorded) ==
              if context.attempt.Issued? && context.attempt.stored then Format(context.attempt.recordedAt) else recorded
  {
    assert [context][..0] == [];
  }

  method HandlePullModeTokenRequestRenewal(cluster: SveltosCluster, secret: KubeconfigSecret, attempt: PullAttempt)
    returns (err: Option<string>, requests: seq<Request>)
    modifies cluster`spec, cluster`status, secret
    ensures err == if NamesAccount(old(cluster.spec.tokenRequestRenewalOption)) && !attempt.Delivered?
                   then Some(attempt.error) else None
    ensures requests == PullRequests(old(cluster.spec.tokenRequestRenewalOption), attempt)
    ensures secret.writes == old(secret.writes) + PullWrites(old(cluster.spec.tokenRequestRenewalOption), attempt)
    ensures TokenFieldsAfter(old(cluster.spec), old(cluster.status),
                             PullAttempted(old(cluster.spec.tokenRequestRenewalOption), attempt),
                             cluster.spec, cluster.status)
    ensures cluster.spec == old(cluster.spec).(tokenRequestRenewalOption := cluster.spec.tokenRequestRenewalOption)
    ensures cluster.status ==
              old(cluster.status).(lastReconciledTokenRequestAt := cluster.status.lastReconciledTokenRequestAt)
  {
    requests := [];
    var option := cluster.spec.tokenRequestRenewalOption;
    if option.None? || option.value.saName == "" || option.value.saNamespace == "" {
      return None, requests;
    }
    OneAttempt(option.value, PullAttempted(option, attempt)[0], cluster.status.lastReconciledTokenRequestAt);
    var saExpirationInSecond := EffectiveTokenSeconds(option.value);
    var account := ServiceAccount(option.value.saNamespace, option.value.saName);
    if attempt.NoEndpoint? {
      return Some(attempt.error), requests;
    }
    requests := [Request(account, saExpirationInSecond)];
    if attempt.NoToken? {
      return Some(attempt.error), requests;
    }
    cluster.spec := cluster.spec.(tokenRequestRenewalOption := Some(Adjusted(option.value, attempt.token)));
    if attempt.NotDelivered? {
      return Some(attempt.error), requests;
    }
    secret.writes := secret.writes + [Write(PULL_MODE_KUBECONFIG_SECRET_KEY, Kubeconfig(account, attempt.token))];
    cluster.status := cluster.status.(lastReconciledTokenRequestAt := Format(attempt.recordedAt));
    err := None;
  }

  /** What a due renewal leaves in FailureMessage. */
  function PullRenewalFailure(spec: ClusterSpec, status: ClusterStatus, created: int,
                              inputs: PullInputs): Option<FailureMessage> {
    if RenewalDue(spec, status, created, inputs.renewalCheck) && NamesAccount(spec.tokenRequestRenewalOption)
       && !inputs.attempt.Delivered? then Some(Message(inputs.attempt.error))
    else None
  }

  /** The cluster once a pull-mode renewal was tried, if one was due. */
  ghost function PullRenewed(w: World, created: int, inputs: PullInputs): World {
    var tried := TriedByPull(w.spec, w.status, created, inputs);
    w.(spec := w.spec.(tokenRequestRenewalOption := OptionAfter(w.spec.tokenRequestRenewalOption, tried)),
       status := w.status.(failureMessage := PullRenewalFailure(w.spec, w.status, created, inputs),
                           lastReconciledTokenRequestAt := LastRecorded(Stored(tried),
                                                                        w.status.lastReconciledTokenRequestAt)))
  }

  method RenewPullIfDue(cluster: SveltosCluster, gauges: Metrics.Gauges, secret: KubeconfigSecret, inputs: PullInputs)
    returns (requests: seq<Request>)
    requires cluster.status.failureMessage.None?
    modifies cluster`spec, cluster`status, secret
    ensures WorldOf(cluster, gauges) == PullRenewed(old(WorldOf(cluster, gauges)), cluster.creationTimestamp, inputs)
    ensures secret.writes == old(secret.writes)
                             + WrittenByPull(old(cluster.spec), old(cluster.status), cluster.creationTimestamp, inputs)
    ensures requests == RequestedByPull(old(cluster.spec), old(cluster.status), cluster.creationTimestamp, inputs)
  {
    requests := [];
    if ShouldRenewTokenRequest(cluster.spec.tokenRequestRenewalOption, cluster.status.lastReconciledTokenRequestAt,
                               cluster.creationTimestamp, inputs.renewalCheck) {
      var err;
      err, requests := HandlePullModeTokenRequestRenewal(cluster, secret, inputs.attempt);
      if err.Some? {
        cluster.status := cluster.status.(failureMessage := Some(Message(err.value)));
      }
    }
  }

  /** The agent's report is published, and one that is too old is a failure. */
  function Heard(w: World, key: Metrics.ClusterKey, now: int): World
    requires ObservesAgent(w.status)
  {
    var reported := w.status.agentLastReportTime.value;
    w.(status := if now - reported > MAX_HEARTBEAT_AGE then w.status.(failureMessage := Some(AgentHeartbeatTimeout))
                 else w.status,
       tables := Metrics.Apply(w.tables, key, Metrics.SetHeartbeat(reported)))
  }

  /** The agent's heartbeat, judged and published once the cluster is ready and has reported. */
  method ObserveAgent(cluster: SveltosCluster, gauges: Metrics.Gauges, recorder: EventRecorder?, now: int)
    requires ObservesAgent(cluster.status)
    modifies cluster`status, gauges, recorder
    ensures WorldOf(cluster, gauges) ==
              WithConnection(Heard(old(WorldOf(cluster, gauges)), KeyOf(cluster), now), KeyOf(cluster), true,
                             ConnectionOf(cluster))
    ensures ConnectionOf(cluster) == Step(old(ConnectionOf(cluster)), ObservationOf(cluster))
    ensures GaugesShow(gauges.Contents(), KeyOf(cluster), ConnectionOf(cluster))
    ensures recorder != null ==>
              recorder.log == old(recorder.log)
                + Transition(old(cluster.status.connectionStatus), cluster.status.connectionStatus,
                             ObservationOf(cluster))
  {
    var lastReportAge := now - cluster.status.agentLastReportTime.value;
    if lastReportAge > MAX_HEARTBEAT_AGE {
      cluster.status := cluster.status.(failureMessage := Some(AgentHeartbeatTimeout));
    }
    gauges.UpdateAgentLastHeartbeatMetric(KeyOf(cluster), cluster.status.agentLastReportTime.value);
    UpdateConnectionStatus(cluster, recorder);
    PublishConnection(cluster, gauges);
  }

  /** A pull-mode reconcile before its connection state. */
  ghost function PullWorld(w: World, created: int, key: Metrics.ClusterKey, inputs: PullInputs): World {
    var renewed := PullRenewed(w, created, inputs);
    if ObservesAgent(w.status) then Heard(renewed, key, inputs.now) else renewed
  }

  lemma PullTokenFields(w: World, created: int, key: Metrics.ClusterKey, inputs: PullInputs)
    ensures var after := PullWorld(w, created, key, inputs);
            TokenFieldsAfter(w.spec, w.status, TriedByPull(w.spec, w.status, created, inputs), after.spec, after.status)
  {
  }

  method ReconcilePullModeCluster(cluster: SveltosCluster, gauges: Metrics.Gauges, recorder: EventRecorder?,
                                  secret: KubeconfigSecret, inputs: PullInputs)
    returns (requests: seq<Request>)
    modifies cluster`spec, cluster`status, gauges, recorder, secret
    ensures WorldOf(cluster, gauges) ==
              WithConnection(PullWorld(old(WorldOf(cluster, gauges)), cluster.creationTimestamp, KeyOf(cluster),
                                       inputs),
                             KeyOf(cluster), ObservesAgent(old(cluster.status)), ConnectionOf(cluster))
    ensures secret.writes == old(secret.writes)
                             + WrittenByPull(old(cluster.spec), old(cluster.status), cluster.creationTimestamp, inputs)
    ensures requests == RequestedByPull(old(cluster.spec), old(cluster.status), cluster.creationTimestamp, inputs)
    ensures ConnectionOf(cluster) == if ObservesAgent(old(cluster.status))
                                     then Step(old(ConnectionOf(cluster)), ObservationOf(cluster))
                                     else old(ConnectionOf(cluster))
    ensures recorder != null ==>
              recorder.log == old(recorder.log)
                + Transition(old(cluster.status.connectionStatus), cluster.status.connectionStatus,
                             ObservationOf(cluster))
    ensures ObservesAgent(old(cluster.status)) ==>
              GaugesShow(gauges.Contents(), KeyOf(cluster), ConnectionOf(cluster))
    ensures cluster.status.ready == old(cluster.status.ready)
  {
    cluster.status := cluster.status.(failureMessage := None);
    requests := RenewPullIfDue(cluster, gauges, secret, inputs);
    if !cluster.status.ready {
      return;
    }
    if cluster.status.agentLastReportTime.None? {
      return;
    }
    ObserveAgent(cluster, gauges, recorder, inputs.now);
  }

  // The whole reconcile

  datatype Inputs = Inputs(now: int, parse: Parser, push: PushInputs, pull: PullInputs)

  /** Whether a reconcile of a live cluster observes its connection at all, and whether it then publishes it. */
  predicate Observes(spec: ClusterSpec, status: ClusterStatus) {
    !spec.pullMode || ObservesAgent(status)
  }

  predicate Publishes(spec: ClusterSpec, status: ClusterStatus, inputs: Inputs) {
    if spec.pullMode then ObservesAgent(status) else inputs.push.configError.None?
  }

  /** A reconcile of a live cluster before its connection state and the pause step. */
  ghost function ModeWorld(w: World, created: int, key: Metrics.ClusterKey, inputs: Inputs,
                           failure: Option<FailureMessage>): World {
    if w.spec.pullMode then PullWorld(w, created, key, inputs.pull)
    else PushWorld(w, created, key, inputs.push, failure)
  }

  function TriedByMode(spec: ClusterSpec, status: ClusterStatus, created: int, inputs: Inputs): seq<Context> {
    if spec.pullMode then TriedByPull(spec, status, created, inputs.pull)
    else TriedByPush(spec, status, created, inputs.push)
  }

  function RequestedByMode(spec: ClusterSpec, status: ClusterStatus, created: int, inputs: Inputs): seq<Request> {
    if spec.pullMode then RequestedByPull(spec, status, created, inputs.pull)
    else RequestedByPush(spec, status, created, inputs.push)
  }

  function WrittenByMode(spec: ClusterSpec, status: ClusterStatus, created: int, inputs: Inputs): seq<Write> {
    if spec.pullMode then WrittenByPull(spec, status, created, inputs.pull)
    else WrittenByPush(spec, status, created, inputs.push)
  }

  /** Readiness after a reconcile: the latch in push mode, untouched in pull mode. */
  ghost predicate ReadyByMode(spec: ClusterSpec, status: ClusterStatus, inputs: Inputs) {
    if spec.pullMode then status.ready else ReadyAfter(status.ready, ProbeOf(spec, inputs.push))
  }

  lemma ModeTokenFields(w: World, created: int, key: Metrics.ClusterKey, inputs: Inputs,
                        failure: Option<FailureMessage>)
    ensures var after := ModeWorld(w, created, key, inputs, failure);
            TokenFieldsAfter(w.spec, w.status, TriedByMode(w.spec, w.status, created, inputs), after.spec, after.status)
  {
    if w.spec.pullMode {
      PullTokenFields(w, created, key, inputs.pull);
    } else {
      PushTokenFields(w, created, key, inputs.push, failure);
    }
  }

  /** The pause fields put back to what they were. */
  function PauseFieldsOf(w: World, from: World): World {
    w.(spec := w.spec.(paused := from.spec.paused),
       status := w.status.(nextUnpause := from.status.nextUnpause, nextPause := from.status.nextPause,
                           activeWindowHash := from.status.activeWindowHash))
  }

  ghost predicate SamePause(w: World, from: World) {
    && w.spec.paused == from.spec.paused && w.spec.activeWindow == from.spec.activeWindow
    && w.status.nextUnpause == from.status.nextUnpause && w.status.nextPause == from.status.nextPause
    && w.status.activeWindowHash == from.status.activeWindowHash
  }

  lemma PauseFieldsRestored(w: World, mid: World, from: World)
    requires SamePause(mid, from)
    requires w.labels == mid.labels && w.tables == mid.tables
    requires w.spec == mid.spec.(paused := w.spec.paused)
    requires w.status == mid.status.(nextUnpause := w.status.nextUnpause, nextPause := w.status.nextPause,
                                     activeWindowHash := w.status.activeWindowHash)
    ensures PauseFieldsOf(w, from) == mid
  {
  }

  /** The part of a reconcile that depends on the mode. */
  method ReconcileMode(cluster: SveltosCluster, gauges: Metrics.Gauges, recorder: EventRecorder?,
                       secret: KubeconfigSecret, inputs: Inputs)
    returns (requests: seq<Request>)
    modifies cluster`spec, cluster`status, cluster`labels, gauges, recorder, secret
    ensures WorldOf(cluster, gauges) ==
              WithConnection(ModeWorld(old(WorldOf(cluster, gauges)), cluster.creationTimestamp, KeyOf(cluster), inputs,
                                       cluster.status.failureMessage),
                             KeyOf(cluster), Publishes(old(cluster.spec), old(cluster.status), inputs),
                             ConnectionOf(cluster))
    ensures old(cluster.spec.pullMode) || ObservesFailure(old(cluster.spec), old(cluster.status),
                                                          cluster.creationTimestamp, inputs.push,
                                                          cluster.status.failureMessage)
    ensures TokenFieldsAfter(old(cluster.spec), old(cluster.status),
                             TriedByMode(old(cluster.spec), old(cluster.status), cluster.creationTimestamp, inputs),
                             cluster.spec, cluster.status)
    ensures SamePause(WorldOf(cluster, gauges), old(WorldOf(cluster, gauges)))
    ensures cluster.status.ready <==> ReadyByMode(old(cluster.spec), old(cluster.status), inputs)
    ensures secret.writes == old(secret.writes)
                             + WrittenByMode(old(cluster.spec), old(cluster.status), cluster.creationTimestamp, inputs)
    ensures requests == RequestedByMode(old(cluster.spec), old(cluster.status), cluster.creationTimestamp, inputs)
    ensures ConnectionOf(cluster) == if Observes(old(cluster.spec), old(cluster.status))
                                     then Step(old(ConnectionOf(cluster)), ObservationOf(cluster))
                                     else old(ConnectionOf(cluster))
    ensures recorder != null ==>
              recorder.log == old(recorder.log)
                + Transition(old(cluster.status.connectionStatus), cluster.status.connectionStatus,
                             ObservationOf(cluster))
    ensures Publishes(old(cluster.spec), old(cluster.status), inputs) ==>
              GaugesShow(gauges.Contents(), KeyOf(cluster), ConnectionOf(cluster))
  {
    ghost var before := WorldOf(cluster, gauges);
    if cluster.spec.pullMode {
      requests := ReconcilePullModeCluster(cluster, gauges, recorder, secret, inputs.pull);
    } else {
      requests := ReconcilePushModeCluster(cluster, gauges, recorder, secret, inputs.push);
    }
    ModeTokenFields(before, cluster.creationTimestamp, KeyOf(cluster), inputs, cluster.status.failureMessage);
  }

  /** What of a cluster one reconcile hands to the next, and every kubeconfig delivered so far. */
  datatype Record = Record(spec: ClusterSpec, status: ClusterStatus, writes: seq<Write>)

  ghost function RecordOf(cluster: SveltosCluster, secret: KubeconfigSecret): Record
    reads cluster, secret
  {
    Record(cluster.spec, cluster.status, secret.writes)
  }

  function PauseIn(r: Record): Pausing.PauseState {
    Pausing.PauseState(r.spec.paused, r.status.nextUnpause, r.status.nextPause, r.status.activeWindowHash)
  }

  function ConnectionIn(r: Record): ConnectionState {
    ConnectionState(r.status.connectionStatus, r.status.connectionFailures)
  }

  function ObservationIn(key: Metrics.ClusterKey, r: Record): Observation {
    Observation(r.status.failureMessage, r.spec.consecutiveFailureThreshold, r.spec.pullMode, key.namespace, key.name)
  }

  /** Every machine of the controller moves by its own step in one reconcile of a live cluster. */
  ghost predicate Reconciled(key: Metrics.ClusterKey, created: int, before: Record, inputs: Inputs, after: Record) {
    && after.spec.activeWindow == before.spec.activeWindow
    && PauseIn(after) == Pausing.Handle(PauseIn(before), before.spec.activeWindow,
                                        Pausing.Environment(inputs.parse, created), inputs.now)
    && ConnectionIn(after) == (if Observes(before.spec, before.status)
                               then Step(ConnectionIn(before), ObservationIn(key, after))
                               else ConnectionIn(before))
    && TokenFieldsAfter(before.spec, before.status, TriedByMode(before.spec, before.status, created, inputs),
                        after.spec, after.status)
    && after.writes == before.writes + WrittenByMode(before.spec, before.status, created, inputs)
    && (after.status.ready <==> ReadyByMode(before.spec, before.status, inputs))
  }

  method ReconcileNormal(cluster: SveltosCluster, gauges: Metrics.Gauges, recorder: EventRecorder?,
                         secret: KubeconfigSecret, inputs: Inputs)
    returns (requests: seq<Request>)
    modifies cluster`finalizers, cluster`spec, cluster`status, cluster`labels, gauges, recorder, secret
    ensures cluster.finalizers == if old(cluster.spec.cleanupGracePeriod).Some?
                                  then old(cluster.finalizers) + {SVELTOS_CLUSTER_FINALIZER}
                                  else old(cluster.finalizers) - {SVELTOS_CLUSTER_FINALIZER}
    ensures Reconciled(KeyOf(cluster), cluster.creationTimestamp, old(RecordOf(cluster, secret)), inputs,
                       RecordOf(cluster, secret))
    ensures PauseFieldsOf(WorldOf(cluster, gauges), old(WorldOf(cluster, gauges))) ==
              WithConnection(ModeWorld(old(WorldOf(cluster, gauges)), cluster.creationTimestamp, KeyOf(cluster), inputs,
                                       cluster.status.failureMessage),
                             KeyOf(cluster), Publishes(old(cluster.spec), old(cluster.status), inputs),
                             ConnectionOf(cluster))
    ensures old(cluster.spec.pullMode) || ObservesFailure(old(cluster.spec), old(cluster.status),
                                                          cluster.creationTimestamp, inputs.push,
                                                          cluster.status.failureMessage)
    ensures requests == RequestedByMode(old(cluster.spec), old(cluster.status), cluster.creationTimestamp, inputs)
    ensures recorder != null ==>
              recorder.log == old(recorder.log)
                + Transition(old(cluster.status.connectionStatus), cluster.status.connectionStatus,
                             ObservationOf(cluster))
    ensures Publishes(old(cluster.spec), old(cluster.status), inputs) ==>
              GaugesShow(gauges.Contents(), KeyOf(cluster), ConnectionOf(cluster))
  {
    if cluster.spec.cleanupGracePeriod.Some? {
      cluster.finalizers := cluster.finalizers + {SVELTOS_CLUSTER_FINALIZER};
    } else {
      cluster.finalizers := cluster.finalizers - {SVELTOS_CLUSTER_FINALIZER};
    }
    ghost var before := WorldOf(cluster, gauges);
    requests := ReconcileMode(cluster, gauges, recorder, secret, inputs);
    ghost var mid := WorldOf(cluster, gauges);
    Pausing.HandleAutomaticPauseUnPause(cluster, inputs.parse, inputs.now);
    PauseFieldsRestored(WorldOf(cluster, gauges), mid, before);
  }

  /** Whether a deleting cluster keeps the finalizer at this reconcile. */
  predicate KeepsFinalizer(cleanupGracePeriod: Option<int>, deletionTimestamp: int, now: int) {
    cleanupGracePeriod.Some? && now < deletionTimestamp + cleanupGracePeriod.value
  }

  method ReconcileDelete(cluster: SveltosCluster, gauges: Metrics.Gauges, now: int) returns (requeueAfter: Option<int>)
    requires cluster.deletionTimestamp.Some?
    modifies cluster`finalizers, gauges
    ensures if SVELTOS_CLUSTER_FINALIZER !in old(cluster.finalizers) then
              && requeueAfter == None
              && cluster.finalizers == old(cluster.finalizers) && gauges.Contents() == old(gauges.Contents())
            else if KeepsFinalizer(cluster.spec.cleanupGracePeriod, cluster.deletionTimestamp.value, now) then
              && requeueAfter == Some(60_000_000_000)
              && cluster.finalizers == old(cluster.finalizers) && gauges.Contents() == old(gauges.Contents())
            else
              && requeueAfter == None
              && cluster.finalizers == old(cluster.finalizers) - {SVELTOS_CLUSTER_FINALIZER}
              && gauges.Contents() == Metrics.Apply(old(gauges.Contents()), KeyOf(cluster), Metrics.Delete)
  {
    if SVELTOS_CLUSTER_FINALIZER !in cluster.finalizers {
      return None;
    }
    if cluster.spec.cleanupGracePeriod.Some? {
      var deadline := cluster.deletionTimestamp.value + cluster.spec.cleanupGracePeriod.value;
      if now < deadline {
        return Some(DELETE_REQUEUE_AFTER);
      }
    }
    gauges.DeleteClusterMetrics(KeyOf(cluster));
    cluster.finalizers := cluster.finalizers - {SVELTOS_CLUSTER_FINALIZER};
    return None;
  }

  method Reconcile(cluster: SveltosCluster, gauges: Metrics.Gauges, recorder: EventRecorder?,
                   secret: KubeconfigSecret, inputs: Inputs)
    returns (requeueAfter: Option<int>)
    modifies cluster`finalizers, cluster`spec, cluster`status, cluster`labels, gauges, recorder, secret
    ensures old(cluster.deletionTimestamp).None? ==>
              && requeueAfter == Some(60_000_000_000)
              && Reconciled(KeyOf(cluster), cluster.creationTimestamp, old(RecordOf(cluster, secret)), inputs,
                            RecordOf(cluster, secret))
              && (SVELTOS_CLUSTER_FINALIZER in cluster.finalizers <==> old(cluster.spec.cleanupGracePeriod).Some?)
    ensures old(cluster.deletionTimestamp).Some? ==>
              && cluster.spec == old(cluster.spec) && cluster.status == old(cluster.status)
              && (SVELTOS_CLUSTER_FINALIZER in cluster.finalizers <==>
                    SVELTOS_CLUSTER_FINALIZER in old(cluster.finalizers)
                    && KeepsFinalizer(cluster.spec.cleanupGracePeriod, cluster.deletionTimestamp.value, inputs.now))
              && gauges.Contents() == (if cluster.finalizers == old(cluster.finalizers) then old(gauges.Contents())
                                       else Metrics.Apply(old(gauges.Contents()), KeyOf(cluster), Metrics.Delete))
              && requeueAfter == if SVELTOS_CLUSTER_FINALIZER in cluster.finalizers then Some(60_000_000_000)
                                 else None
  {
    if cluster.deletionTimestamp.Some? {
      requeueAfter := ReconcileDelete(cluster, gauges, inputs.now);
      return;
    }
    var requests := ReconcileNormal(cluster, gauges, recorder, secret, inputs);
    requeueAfter := Some(PERIODIC_REQUEUE_AFTER);
  }
}

/** A deleting cluster over whole runs of reconciles. */
module GracePeriod {
  import opened Wrappers
  import opened Time
  import opened Reconciler

  predicate Held(held: bool, period: Option<int>, deletion: int, calls: seq<int>) {
    if calls == [] then held
    else Held(held, period, deletion, calls[..|calls| - 1]) && KeepsFinalizer(period, deletion, calls[|calls| - 1])
  }

  /**
   * The finalizer is held exactly while no reconcile has come at or after the deadline: it is never lost
   * before, and lost at the first such reconcile, which without a grace period is any reconcile.
   */
  lemma {:induction false} HeldExactlyBeforeDeadline(held: bool, period: Option<int>, deletion: int, calls: seq<int>)
    ensures Held(held, period, deletion, calls) <==>
              held && forall i :: 0 <= i < |calls| ==> period.Some? && calls[i] < deletion + period.value
  {
    if calls != [] {
      HeldExactlyBeforeDeadline(held, period, deletion, calls[..|calls| - 1]);
    }
  }

  /** The reconciles of a deleting cluster requeued every minute from t0. */
  function Requeues(t0: int, n: nat): seq<int> {
    seq(n, i => t0 + i * DELETE_REQUEUE_AFTER)
  }

  /** Requeued every minute, the cluster is released less than a minute after its deadline. */
  lemma ReleasedWithinAMinute(period: int, deletion: int, t0: int) returns (n: nat)
    requires t0 < deletion + period
    ensures deletion + period <= t0 + n * DELETE_REQUEUE_AFTER < deletion + period + MINUTE
    ensures Held(true, Some(period), deletion, Requeues(t0, n))
    ensures !Held(true, Some(period), deletion, Requeues(t0, n + 1))
  {
    var deadline := deletion + period;
    n := (deadline - t0 + MINUTE - 1) / MINUTE;
    HeldExactlyBeforeDeadline(true, Some(period), deletion, Requeues(t0, n));
    HeldExactlyBeforeDeadline(true, Some(period), deletion, Requeues(t0, n + 1));
    assert Requeues(t0, n + 1)[n] == t0 + n * MINUTE;
  }
}
