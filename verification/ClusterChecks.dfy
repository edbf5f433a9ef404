/** Readiness and liveness checks, and the latch that chooses between them. */
module ClusterChecks {
  import opened Wrappers
  import opened Cluster

  datatype CheckOutcome = Pass | Fail(message: string) | Error(text: string)

  /** Resource lookup and script evaluation, seen as one outcome per check. */
  type Evaluation = ClusterCheck -> CheckOutcome

  function CheckError(check: ClusterCheck, outcome: CheckOutcome): string
    requires !outcome.Pass?
  {
    match outcome
    case Error(text) => text
    case Fail(message) => "cluster check " + check.name + " failed (message: " + message + ")"
  }

  ghost predicate AllPass(checks: seq<ClusterCheck>, eval: Evaluation) {
    forall i :: 0 <= i < |checks| ==> eval(checks[i]).Pass?
  }

  ghost predicate FailsFirst(checks: seq<ClusterCheck>, eval: Evaluation, i: int) {
    0 <= i < |checks| && !eval(checks[i]).Pass? && forall j :: 0 <= j < i ==> eval(checks[j]).Pass?
  }

  /** err is what a run of these checks must report: nothing, or the error of the least failing index. */
  ghost predicate Reports(checks: seq<ClusterCheck>, eval: Evaluation, err: Option<string>) {
    if err.None? then AllPass(checks, eval)
    else exists i :: FailsFirst(checks, eval, i) && err.value == CheckError(checks[i], eval(checks[i]))
  }

  method RunChecks(checks: seq<ClusterCheck>, eval: Evaluation) returns (err: Option<string>)
    ensures Reports(checks, eval, err)
    ensures forall i :: FailsFirst(checks, eval, i) ==>
              err == match eval(checks[i])
                     case Error(text) => Some(text)
                     case Fail(m) => Some("cluster check " + checks[i].name + " failed (message: " + m + ")")
  {
    for i := 0 to |checks|
      invariant forall j :: 0 <= j < i ==> eval(checks[j]).Pass?
    {
      var outcome := eval(checks[i]);
      if outcome.Error? {
        assert FailsFirst(checks, eval, i);
        return Some(outcome.text);
      }
      if !outcome.Pass? {
        assert FailsFirst(checks, eval, i);
        return Some(CheckError(checks[i], outcome));
      }
    }
    return None;
  }

  /** These checks determine what is reported. */
  lemma ReportsUnique(checks: seq<ClusterCheck>, eval: Evaluation, err: Option<string>, err': Option<string>)
    requires Reports(checks, eval, err) && Reports(checks, eval, err')
    ensures err == err'
  {
  }

  // The latch over runs

  /** What one push-mode reconcile sees: a cluster it cannot probe, or one whose checks it evaluates. */
  datatype Probe =
    | Unreachable
    | Reachable(readinessChecks: seq<ClusterCheck>, livenessChecks: seq<ClusterCheck>, eval: Evaluation)

  /** The checks a reconcile evaluates. */
  function Evaluated(ready: bool, probe: Probe): seq<ClusterCheck>
    requires probe.Reachable?
  {
    if ready then probe.livenessChecks else probe.readinessChecks
  }

  ghost predicate ReadyAfter(ready: bool, probe: Probe) {
    ready || (probe.Reachable? && AllPass(Evaluated(ready, probe), probe.eval))
  }

  ghost predicate ReadyRun(ready: bool, probes: seq<Probe>) {
    if probes == [] then ready
    else ReadyAfter(ReadyRun(ready, probes[..|probes| - 1]), probes[|probes| - 1])
  }

  ghost predicate AllReadinessPassed(probe: Probe) {
    probe.Reachable? && AllPass(probe.readinessChecks, probe.eval)
  }

  /**
   * The readiness latch over whole runs: a cluster is ready exactly when it was so at the start or some
   * reconcile so far reached it with every readiness check passing. Readiness is therefore never lost,
   * and that reconcile is the boundary after which liveness checks alone are evaluated.
   */
  lemma {:induction false} ReadyExactlyAfterAllPassed(ready: bool, probes: seq<Probe>)
    ensures ReadyRun(ready, probes) <==> ready || exists i :: 0 <= i < |probes| && AllReadinessPassed(probes[i])
  {
    if probes != [] {
      var n := |probes| - 1;
      ReadyExactlyAfterAllPassed(ready, probes[..n]);
      assert forall i :: 0 <= i < n ==> probes[..n][i] == probes[i];
      if AllReadinessPassed(probes[n]) {
        assert ReadyRun(ready, probes);
      }
    }
  }

  /** Liveness checks are evaluated at a reconcile exactly when an earlier one completed readiness. */
  lemma LivenessExactlyAfterReadiness(ready: bool, probes: seq<Probe>, k: nat)
    requires k < |probes| && probes[k].Reachable? && probes[k].livenessChecks != probes[k].readinessChecks
    ensures Evaluated(ReadyRun(ready, probes[..k]), probes[k]) == probes[k].livenessChecks <==>
              ready || exists i :: 0 <= i < k && AllReadinessPassed(probes[i])
  {
    ReadyExactlyAfterAllPassed(ready, probes[..k]);
    assert forall i :: 0 <= i < k ==> probes[..k][i] == probes[i];
  }
}
