/** What one reconcile does, said from what it finds and is answered alone. */
module ReconcileEffects {
  import opened Wrappers
  import opened Time
  import opened Cluster
  import opened TokenRenewal
  import opened ClusterChecks
  import Metrics
  import opened Reconciler

  /** The checks of a push-mode reconcile: readiness until the cluster is ready, liveness from then on. */
  function ChecksOf(spec: ClusterSpec, status: ClusterStatus): seq<ClusterCheck> {
    if status.ready then spec.livenessChecks else spec.readinessChecks
  }

  // Push mode

  /** Readiness, version, label and version row follow exactly a cluster that answers with every check passing. */
  lemma PushWorldTold(w: World, created: int, key: Metrics.ClusterKey, inputs: PushInputs,
                      failure: Option<FailureMessage>)
    ensures var after := PushWorld(w, created, key, inputs, failure);
            var passed := inputs.configError.None? && inputs.version.Success?
                          && AllPass(ChecksOf(w.spec, w.status), inputs.eval);
            && (passed ==> after.status.ready && after.status.version == inputs.version.value)
            && (passed && inputs.semver.Some? ==>
                  && after.labels == w.labels["projectsveltos.io/k8s-version" := inputs.semver.value]
                  && (forall v :: Metrics.VersionRow(key, v) in after.tables.versions <==> v == inputs.semver.value)
                  && after.tables.versions[Metrics.VersionRow(key, inputs.semver.value)] == 1.0)
            && (passed && inputs.semver.None? ==> after.labels == w.labels && after.tables == w.tables)
            && (!passed ==>
                  && after.status.ready == w.status.ready && after.status.version == w.status.version
                  && after.labels == w.labels && after.tables == w.tables)
  {
  }

  /** Why a due renewal cannot start, if it cannot: the Secret, its text, or whoami when no account is named. */
  function RenewalObstacle(opt: RenewalOption, inputs: RenewalInputs): Option<string> {
    match inputs.secret
    case Failure(error) => Some(error)
    case Success(Failure(error)) => Some(error)
    case Success(Success(_)) =>
      if (opt.saNamespace == "" || opt.saName == "") && inputs.whoami.Failure? then Some(inputs.whoami.error) else None
  }

  /** The one failure a push-mode reconcile observes. */
  lemma PushFailureTold(spec: ClusterSpec, status: ClusterStatus, created: int, inputs: PushInputs,
                        failure: Option<FailureMessage>)
    requires ObservesFailure(spec, status, created, inputs, failure)
    ensures inputs.configError.Some? ==> failure == Some(Message(inputs.configError.value))
    ensures inputs.configError.None? && inputs.version.Failure? ==> failure == Some(Message(inputs.version.error))
    ensures inputs.configError.None? && inputs.version.Success? ==>
              forall i :: FailsFirst(ChecksOf(spec, status), inputs.eval, i) ==>
                var check := ChecksOf(spec, status)[i];
                failure == match inputs.eval(check)
                           case Error(text) => Some(Message(text))
                           case Fail(m) => Some(Message("cluster check " + check.name + " failed (message: " + m + ")"))
    ensures inputs.configError.None? && inputs.version.Success? && AllPass(ChecksOf(spec, status), inputs.eval) ==>
              if RenewalDue(spec, status, created, inputs.renewalCheck) then
                var obstacle := RenewalObstacle(spec.tokenRequestRenewalOption.value, inputs.renewal);
                failure == if obstacle.Some? then Some(Message(obstacle.value)) else None
              else failure == None
  {
  }

  /** A push-mode renewal can be tried: it is due, the cluster answers, and its Secret holds a kubeconfig. */
  predicate PushRenewalTried(spec: ClusterSpec, status: ClusterStatus, created: int, inputs: PushInputs) {
    && inputs.configError.None? && inputs.version.Success?
    && RenewalDue(spec, status, created, inputs.renewalCheck)
    && inputs.renewal.secret.Success? && inputs.renewal.secret.value.Success?
  }

  /** The tokens of a push-mode reconcile: for whom, for how long, under which key, and the time recorded. */
  lemma PushTokensTold(spec: ClusterSpec, status: ClusterStatus, created: int, inputs: PushInputs)
    ensures var requests := RequestedByPush(spec, status, created, inputs);
            var written := WrittenByPush(spec, status, created, inputs);
            if PushRenewalTried(spec, status, created, inputs) then
              var opt, contexts := spec.tokenRequestRenewalOption.value, inputs.renewal.secret.value.value;
              && AccountTold(opt, inputs.renewal.whoami, contexts, requests, written)
              && DeliveryTold(opt, contexts, requests, written, status.lastReconciledTokenRequestAt,
                              LastRecorded(Stored(TriedByPush(spec, status, created, inputs)),
                                           status.lastReconciledTokenRequestAt))
            else requests == [] && written == []
  {
    if PushRenewalTried(spec, status, created, inputs) {
      var opt, contexts := spec.tokenRequestRenewalOption.value, inputs.renewal.secret.value.value;
      var details := GetServiceAccountDetails(opt, inputs.renewal.whoami);
      if details.Success? {
        AccountIsTold(opt, inputs.renewal.whoami, contexts, EffectiveTokenSeconds(opt), GetKubeconfigKey(Some(opt)));
        TriedIsSuffix(details.value, contexts);
        DeliveryIsTold(opt, RenewedAccount(details.value, contexts), contexts, Tried(details.value, contexts),
                       status.lastReconciledTokenRequestAt);
      } else {
        NothingDelivered(opt, contexts, status.lastReconciledTokenRequestAt);
      }
    }
  }

  lemma NothingDelivered(opt: RenewalOption, contexts: seq<Context>, recorded: Timestamp)
    ensures DeliveryTold(opt, contexts, [], [], recorded, recorded)
  {
  }

  // Pull mode

  predicate Named(opt: Option<RenewalOption>) {
    opt.Some? && opt.value.saNamespace != "" && opt.value.saName != ""
  }

  /** A renewal is due in pull mode and names its account. */
  predicate PullRenewalTried(spec: ClusterSpec, status: ClusterStatus, created: int, inputs: PullInputs) {
    RenewalDue(spec, status, created, inputs.renewalCheck) && Named(spec.tokenRequestRenewalOption)
  }

  /** The failure, the heartbeat row, the interval and the recorded time of a pull-mode reconcile. */
  lemma PullWorldTold(w: World, created: int, key: Metrics.ClusterKey, inputs: PullInputs)
    ensures var after := PullWorld(w, created, key, inputs);
            var heard := w.status.ready && w.status.agentLastReportTime.Some?;
            var tried := PullRenewalTried(w.spec, w.status, created, inputs);
            && after.status.failureMessage ==
                 (if heard && inputs.now - w.status.agentLastReportTime.value > 600_000_000_000
                  then Some(AgentHeartbeatTimeout)
                  else if tried && !inputs.attempt.Delivered? then Some(Message(inputs.attempt.error)) else None)
            && after.tables == w.tables.(heartbeats := after.tables.heartbeats)
            && after.tables.heartbeats ==
                 (if heard then w.tables.heartbeats[key := (w.status.agentLastReportTime.value / 1_000_000_000) as real]
                  else w.tables.heartbeats)
            && after.status.lastReconciledTokenRequestAt ==
                 (if tried && inputs.attempt.Delivered? then At(inputs.attempt.recordedAt / 1_000_000_000)
                  else w.status.lastReconciledTokenRequestAt)
            && after.spec == w.spec.(tokenRequestRenewalOption :=
                 if tried && (inputs.attempt.NotDelivered? || inputs.attempt.Delivered?)
                 then Some(Adjusted(w.spec.tokenRequestRenewalOption.value, inputs.attempt.token))
                 else w.spec.tokenRequestRenewalOption)
  {
    if PullRenewalTried(w.spec, w.status, created, inputs) {
      var tried := TriedByPull(w.spec, w.status, created, inputs);
      OneAttempt(w.spec.tokenRequestRenewalOption.value, tried[0], w.status.lastReconciledTokenRequestAt);
      if inputs.attempt.Delivered? {
        FormatExactly(inputs.attempt.recordedAt);
      }
    }
  }

  /** A token is requested once the endpoint is known, and its kubeconfig delivered once it is committed. */
  lemma PullTokensTold(spec: ClusterSpec, status: ClusterStatus, created: int, inputs: PullInputs)
    ensures var requests := RequestedByPull(spec, status, created, inputs);
            var written := WrittenByPull(spec, status, created, inputs);
            if PullRenewalTried(spec, status, created, inputs) then
              var opt := spec.tokenRequestRenewalOption.value;
              var account := ServiceAccount(opt.saNamespace, opt.saName);
              && IsFor(account, requests, written) && LifetimeTold(opt, requests)
              && |requests| == (if inputs.attempt.NoEndpoint? then 0 else 1)
              && written == (if inputs.attempt.Delivered?
                             then [Write("kubeconfig", Kubeconfig(account, inputs.attempt.token))] else [])
            else requests == [] && written == []
  {
    if PullRenewalTried(spec, status, created, inputs) {
      RequestedLifetimeExactly(spec.tokenRequestRenewalOption.value);
    }
  }
}
