/** The four gauge tables, keyed by cluster. */
module Metrics {
  import opened Wrappers
  import opened Time
  import opened Cluster

  const STATUS_HEALTHY: real := 0.0
  const STATUS_DISCONNECTED: real := 1.0

  datatype ClusterKey = ClusterKey(clusterType: string, namespace: string, name: string)

  /** The Kubernetes version is part of the label set, so of the key of a row. */
  datatype VersionRow = VersionRow(cluster: ClusterKey, version: string)

  datatype Tables = Tables(
    connectivity: map<ClusterKey, real>,
    versions: map<VersionRow, real>,
    failures: map<ClusterKey, real>,
    heartbeats: map<ClusterKey, real>)

  datatype Update =
    | SetConnectivity(status: ConnectionStatus)
    | SetVersion(version: string)
    | SetFailures(failures: int)
    | SetHeartbeat(reportTime: int)
    | Delete

  function ConnectivityValue(status: ConnectionStatus): real {
    if status == Healthy then STATUS_HEALTHY else STATUS_DISCONNECTED
  }

  function Without(versions: map<VersionRow, real>, key: ClusterKey): map<VersionRow, real> {
    map r | r in versions && r.cluster != key :: versions[r]
  }

  function Apply(t: Tables, key: ClusterKey, u: Update): Tables {
    match u
    case SetConnectivity(status) => t.(connectivity := t.connectivity[key := ConnectivityValue(status)])
    case SetVersion(version) => t.(versions := Without(t.versions, key)[VersionRow(key, version) := 1.0])
    case SetFailures(failures) => t.(failures := t.failures[key := failures as real])
    case SetHeartbeat(reportTime) => t.(heartbeats := t.heartbeats[key := (reportTime / SECOND) as real])
    case Delete => Tables(t.connectivity - {key}, Without(t.versions, key), t.failures - {key}, t.heartbeats - {key})
  }

  class Gauges {
    var clusterConnectivityGauge: map<ClusterKey, real>
    var kubernetesVersionGauge: map<VersionRow, real>
    var connectionFailuresGauge: map<ClusterKey, real>
    var agentLastHeartbeatTimestampGauge: map<ClusterKey, real>

    constructor ()
      ensures Contents() == Tables(map[], map[], map[], map[])
    {
      clusterConnectivityGauge := map[];
      kubernetesVersionGauge := map[];
      connectionFailuresGauge := map[];
      agentLastHeartbeatTimestampGauge := map[];
    }

    ghost function Contents(): Tables
      reads this
    {
      Tables(clusterConnectivityGauge, kubernetesVersionGauge, connectionFailuresGauge,
             agentLastHeartbeatTimestampGauge)
    }

    method UpdateClusterConnectionStatusMetric(key: ClusterKey, status: ConnectionStatus)
      modifies this
      ensures Contents() == Apply(old(Contents()), key, SetConnectivity(status))
    {
      var val := STATUS_DISCONNECTED;
      if status == Healthy {
        val := STATUS_HEALTHY;
      }
      clusterConnectivityGauge := clusterConnectivityGauge[key := val];
    }

    /** Deletes every row of the cluster whatever its version, as a partial label match does. */
    method DeleteVersionRows(key: ClusterKey)
      modifies this`kubernetesVersionGauge
      ensures kubernetesVersionGauge == Without(old(kubernetesVersionGauge), key)
    {
      kubernetesVersionGauge := map r | r in kubernetesVersionGauge && r.cluster != key :: kubernetesVersionGauge[r];
    }

    method UpdateKubernetesVersionMetric(key: ClusterKey, version: string)
      modifies this
      ensures Contents() == Apply(old(Contents()), key, SetVersion(version))
    {
      DeleteVersionRows(key);
      kubernetesVersionGauge := kubernetesVersionGauge[VersionRow(key, version) := 1.0];
    }

    method UpdateConnectionFailuresMetric(key: ClusterKey, failures: int)
      modifies this
      ensures Contents() == Apply(old(Contents()), key, SetFailures(failures))
    {
      connectionFailuresGauge := connectionFailuresGauge[key := failures as real];
    }

    method UpdateAgentLastHeartbeatMetric(key: ClusterKey, lastReportTime: int)
      modifies this
      ensures Contents() == Apply(old(Contents()), key, SetHeartbeat(lastReportTime))
    {
      agentLastHeartbeatTimestampGauge := agentLastHeartbeatTimestampGauge[key := (lastReportTime / SECOND) as real];
    }

    method DeleteClusterMetrics(key: ClusterKey)
      modifies this
      ensures Contents() == Apply(old(Contents()), key, Delete)
    {
      clusterConnectivityGauge := clusterConnectivityGauge - {key};
      DeleteVersionRows(key);
      connectionFailuresGauge := connectionFailuresGauge - {key};
      agentLastHeartbeatTimestampGauge := agentLastHeartbeatTimestampGauge - {key};
    }
  }
}

/** The tables over every interleaving of updates to any number of clusters. */
module MetricsHistory {
  import opened Wrappers
  import opened Time
  import opened Cluster
  import opened Metrics

  /** An update of one cluster's gauges. */
  datatype Entry = Entry(key: ClusterKey, update: Update)

  function Run(t: Tables, entries: seq<Entry>): Tables {
    if entries == [] then t
    else Apply(Run(t, entries[..|entries| - 1]), entries[|entries| - 1].key, entries[|entries| - 1].update)
  }

  /**
   * What one cluster would report if it had the tables to itself: the last value set since its last deletion. A
   * Healthy cluster shows 0 and any other 1, a heartbeat its time in seconds since the epoch.
   */
  datatype Report = Report(
    connectivity: Option<real>,
    version: Option<string>,
    failures: Option<real>,
    heartbeat: Option<real>)

  function Reported(entries: seq<Entry>, key: ClusterKey): Report {
    if entries == [] then Report(None, None, None, None)
    else
      var before := Reported(entries[..|entries| - 1], key);
      var e := entries[|entries| - 1];
      if e.key != key then before else Updated(before, e.update)
  }

  function Updated(before: Report, u: Update): Report {
    match u
    case SetConnectivity(status) => before.(connectivity := Some(if status == Healthy then 0.0 else 1.0))
    case SetVersion(version) => before.(version := Some(version))
    case SetFailures(failures) => before.(failures := Some(failures as real))
    case SetHeartbeat(reportTime) => before.(heartbeat := Some((reportTime / 1_000_000_000) as real))
    case Delete => Report(None, None, None, None)
  }

  ghost predicate Row(table: map<ClusterKey, real>, key: ClusterKey, value: Option<real>) {
    if value.Some? then key in table && table[key] == value.value else key !in table
  }

  /** The rows of one cluster are those of its report, with one version row at most. */
  ghost predicate Shows(t: Tables, key: ClusterKey, report: Report) {
    && Row(t.connectivity, key, report.connectivity)
    && Row(t.failures, key, report.failures)
    && Row(t.heartbeats, key, report.heartbeat)
    && (forall v :: VersionRow(key, v) in t.versions <==> report.version == Some(v))
    && (report.version.Some? ==> t.versions[VersionRow(key, report.version.value)] == 1.0)
  }

  lemma OwnUpdateShows(t: Tables, key: ClusterKey, report: Report, u: Update)
    requires Shows(t, key, report)
    ensures Shows(Apply(t, key, u), key, Updated(report, u))
  {
  }

  lemma OtherUpdateShows(t: Tables, key: ClusterKey, report: Report, other: ClusterKey, u: Update)
    requires Shows(t, key, report) && other != key
    ensures Shows(Apply(t, other, u), key, report)
  {
  }

  /**
   * Over every interleaving each cluster's rows are exactly its own last report: updates of other
   * clusters leave them alone, at most one version row exists, and a deletion clears all four tables.
   */
  lemma {:induction false} TablesShowEveryCluster(entries: seq<Entry>, key: ClusterKey)
    ensures Shows(Run(Tables(map[], map[], map[], map[]), entries), key, Reported(entries, key))
  {
    if entries != [] {
      var n := |entries| - 1;
      var before := Run(Tables(map[], map[], map[], map[]), entries[..n]);
      TablesShowEveryCluster(entries[..n], key);
      if entries[n].key == key {
        OwnUpdateShows(before, key, Reported(entries[..n], key), entries[n].update);
      } else {
        OtherUpdateShows(before, key, Reported(entries[..n], key), entries[n].key, entries[n].update);
      }
    }
  }
}
