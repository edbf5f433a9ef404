/** The event filter of the controller: which updates of a cluster trigger a reconcile. */
module SveltosClusterPredicates {
  import opened Wrappers
  import opened Cluster

  /** What an update event carries of a cluster, as far as the filter looks at it. */
  datatype Snapshot = Snapshot(deletionTimestamp: Option<int>, spec: ClusterSpec)

  function UpdateFunc(oldCluster: Option<Snapshot>, newCluster: Snapshot): bool {
    if oldCluster.None? then true
    else if oldCluster.value.deletionTimestamp.None? && newCluster.deletionTimestamp.Some? then true
    else if oldCluster.value.spec != newCluster.spec then true
    else false
  }

  /** An update passes if nothing is known of the old cluster, else exactly when deletion begins or the spec differs. */
  lemma PassesExactly(spec: ClusterSpec, deletion: Option<int>, spec': ClusterSpec, deletion': Option<int>)
    ensures UpdateFunc(None, Snapshot(deletion', spec'))
    ensures UpdateFunc(Some(Snapshot(deletion, spec)), Snapshot(deletion', spec')) <==>
              (deletion.None? && deletion'.Some?) || spec != spec'
  {
  }
}
