/** The SveltosCluster record: what the user asks for (spec) and what the controller keeps (status). */
module Cluster {
  import opened Wrappers
  import opened Time

  datatype ActiveWindow = ActiveWindow(from: string, to: string)

  datatype RenewalOption = RenewalOption(
    renewTokenRequestInterval: int,
    tokenDuration: int,
    saNamespace: string,
    saName: string,
    kubeconfigKeyName: Option<string>)

  datatype ClusterCheck = ClusterCheck(name: string, condition: string)

  datatype ClusterSpec = ClusterSpec(
    pullMode: bool,
    paused: bool,
    activeWindow: Option<ActiveWindow>,
    consecutiveFailureThreshold: int,
    cleanupGracePeriod: Option<int>,
    tokenRequestRenewalOption: Option<RenewalOption>,
    kubeconfigKeyName: string,
    readinessChecks: seq<ClusterCheck>,
    livenessChecks: seq<ClusterCheck>)

  datatype ConnectionStatus = Unknown | Healthy | Down

  /** A failure message; the heartbeat timeout is told apart from every other text. */
  datatype FailureMessage = Message(text: string) | AgentHeartbeatTimeout

  datatype ClusterStatus = ClusterStatus(
    ready: bool,
    version: string,
    failureMessage: Option<FailureMessage>,
    connectionStatus: ConnectionStatus,
    connectionFailures: int,
    nextUnpause: Option<int>,
    nextPause: Option<int>,
    activeWindowHash: Option<string>,
    lastReconciledTokenRequestAt: Timestamp,
    agentLastReportTime: Option<int>)

  const SVELTOS_CLUSTER_FINALIZER := "sveltosclusterfinalizer.projectsveltos.io"

  class SveltosCluster {
    const namespace: string
    const name: string
    const creationTimestamp: int
    var deletionTimestamp: Option<int>
    var finalizers: set<string>
    var labels: map<string, string>
    var spec: ClusterSpec
    var status: ClusterStatus

    constructor (namespace: string, name: string, creationTimestamp: int, spec: ClusterSpec)
      ensures this.namespace == namespace && this.name == name && this.creationTimestamp == creationTimestamp
      ensures this.spec == spec && deletionTimestamp == None && finalizers == {} && labels == map[]
      ensures status.nextUnpause == None && status.nextPause == None && status.activeWindowHash == None
      ensures !status.ready && status.connectionFailures == 0 && status.connectionStatus == Unknown
      ensures status.failureMessage == None && status.lastReconciledTokenRequestAt == Empty
    {
      this.namespace := namespace;
      this.name := name;
      this.creationTimestamp := creationTimestamp;
      this.deletionTimestamp := None;
      this.finalizers := {};
      this.labels := map[];
      this.spec := spec;
      this.status := ClusterStatus(false, "", None, Unknown, 0, None, None, None, Empty, None);
    }
  }
}
