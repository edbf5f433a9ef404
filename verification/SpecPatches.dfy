/** Which of the controller's own patches wake it again. */
module SpecPatches {
  import opened Wrappers
  import opened Time
  import opened Cluster
  import opened TokenRenewal
  import opened Connection
  import Metrics
  import opened Reconciler
  import opened SveltosClusterPredicates

  /** Whether the patch from one spec to the next passes the event filter, the cluster not entering deletion. */
  predicate Wakes(deletion: Option<int>, spec: ClusterSpec, spec': ClusterSpec) {
    UpdateFunc(Some(Snapshot(deletion, spec)), Snapshot(deletion, spec'))
  }

  /** The worlds before and after a reconcile of a live cluster, as its contract relates them. */
  ghost predicate ReconciledWorld(w: World, created: int, key: Metrics.ClusterKey, inputs: Inputs, w': World) {
    exists publish, c ::
      PauseFieldsOf(w', w) ==
        WithConnection(ModeWorld(w, created, key, inputs, w'.status.failureMessage), key, publish, c)
  }

  lemma AdjustedKeepsAllButInterval(opt: RenewalOption, tried: seq<Context>)
    ensures AdjustedBy(opt, tried) == opt <==>
              AdjustedBy(opt, tried).renewTokenRequestInterval == opt.renewTokenRequestInterval
  {
    AdjustedKeepsKey(opt, tried);
  }

  /**
   * A reconcile's own patch wakes the controller exactly when Paused moves, a token it was issued adjusts the
   * interval to another value, or a push-mode renewal stores a token under another key than the spec names.
   */
  lemma OwnPatchWakesExactly(deletion: Option<int>, w: World, created: int, key: Metrics.ClusterKey, inputs: Inputs,
                             w': World)
    requires ReconciledWorld(w, created, key, inputs, w')
    ensures var opt := w.spec.tokenRequestRenewalOption;
            var tried := TriedByMode(w.spec, w.status, created, inputs);
            Wakes(deletion, w.spec, w'.spec) <==>
              || w'.spec.paused != w.spec.paused
              || (opt.Some? && AdjustedBy(opt.value, tried).renewTokenRequestInterval
                                 != opt.value.renewTokenRequestInterval)
              || (!w.spec.pullMode && Stored(tried) != [] && w.spec.kubeconfigKeyName != GetKubeconfigKey(opt))
  {
    var opt := w.spec.tokenRequestRenewalOption;
    var tried := TriedByMode(w.spec, w.status, created, inputs);
    var mid := ModeWorld(w, created, key, inputs, w'.status.failureMessage);
    assert mid.spec == w'.spec.(paused := w.spec.paused);
    if opt.Some? {
      AdjustedKeepsAllButInterval(opt.value, tried);
    }
    ModeSpec(w, created, key, inputs, w'.status.failureMessage);
    assert w'.spec == w.spec <==> w'.spec.paused == w.spec.paused && mid.spec == w.spec;
  }

  lemma ModeSpec(w: World, created: int, key: Metrics.ClusterKey, inputs: Inputs, failure: Option<FailureMessage>)
    ensures var opt := w.spec.tokenRequestRenewalOption;
            var tried := TriedByMode(w.spec, w.status, created, inputs);
            ModeWorld(w, created, key, inputs, failure).spec == w.spec.(
              tokenRequestRenewalOption := OptionAfter(opt, tried),
              kubeconfigKeyName := if w.spec.pullMode || Stored(tried) == [] then w.spec.kubeconfigKeyName
                                   else GetKubeconfigKey(opt))
  {
  }

  /**
   * A pull-mode token that was issued, but not delivered, with more than ten minutes left and less than the
   * interval: the patch wakes the controller, and the renewal stays due for as long as none is delivered.
   */
  lemma UndeliveredTokenKeepsWaking(deletion: Option<int>, w: World, created: int, key: Metrics.ClusterKey,
                                    inputs: Inputs, w': World, later: int)
    requires ReconciledWorld(w, created, key, inputs, w')
    requires w.spec.pullMode && RenewalDue(w.spec, w.status, created, inputs.pull.renewalCheck)
    requires NamesAccount(w.spec.tokenRequestRenewalOption) && inputs.pull.attempt.NotDelivered?
    requires var opt := w.spec.tokenRequestRenewalOption.value;
             RENEWAL_MARGIN < AdjustTokenRequestRenewalOption(opt, inputs.pull.attempt.token)
                            < opt.renewTokenRequestInterval
    requires later >= inputs.pull.renewalCheck
    ensures Wakes(deletion, w.spec, w'.spec)
    ensures RenewalDue(w'.spec, w'.status, created, later)
  {
    var opt := w.spec.tokenRequestRenewalOption.value;
    var tried := TriedByMode(w.spec, w.status, created, inputs);
    OneAttempt(opt, tried[0], w.status.lastReconciledTokenRequestAt);
    OwnPatchWakesExactly(deletion, w, created, key, inputs, w');
    ModeSpec(w, created, key, inputs, w'.status.failureMessage);
    ModeTokenFields(w, created, key, inputs, w'.status.failureMessage);
    assert w'.status.lastReconciledTokenRequestAt == w.status.lastReconciledTokenRequestAt;
    ThresholdGrows(Adjusted(opt, inputs.pull.attempt.token).renewTokenRequestInterval, opt.renewTokenRequestInterval);
  }

  lemma ThresholdGrows(shorter: int, longer: int)
    requires RENEWAL_MARGIN < shorter <= longer
    ensures RenewalThreshold(shorter) <= RenewalThreshold(longer)
  {
  }

  // Two undelivered tokens in a row

  const HOUR: int := 60 * MINUTE
  const DAILY := RenewalOption(24 * HOUR, 0, "agents", "agent", None)
  const CHECK: int := 48 * HOUR

  /** A token of this lifetime is issued at `check`, and its kubeconfig cannot be committed. */
  function Undelivered(check: int, lifetime: int): PullInputs {
    PullInputs(check, NotDelivered(Token(Some(check + lifetime), check), "bundle not committed"), check)
  }

  lemma ShortLifetimeIsAdjusted(opt: RenewalOption, check: int, lifetime: int)
    requires opt.tokenDuration == 0 && 0 < lifetime < opt.renewTokenRequestInterval
    ensures AdjustTokenRequestRenewalOption(opt, Token(Some(check + lifetime), check)) == lifetime
  {
  }

  lemma IntervalAfterUndelivered(w: World, created: int, key: Metrics.ClusterKey, inputs: Inputs, w': World)
    requires ReconciledWorld(w, created, key, inputs, w')
    requires w.spec.pullMode && RenewalDue(w.spec, w.status, created, inputs.pull.renewalCheck)
    requires NamesAccount(w.spec.tokenRequestRenewalOption) && inputs.pull.attempt.NotDelivered?
    ensures w'.spec.pullMode
    ensures w'.spec.tokenRequestRenewalOption ==
              Some(Adjusted(w.spec.tokenRequestRenewalOption.value, inputs.pull.attempt.token))
  {
    var tried := TriedByMode(w.spec, w.status, created, inputs);
    OneAttempt(w.spec.tokenRequestRenewalOption.value, tried[0], w.status.lastReconciledTokenRequestAt);
    ModeSpec(w, created, key, inputs, w'.status.failureMessage);
    assert w'.spec.(paused := w.spec.paused) == ModeWorld(w, created, key, inputs, w'.status.failureMessage).spec;
  }

  /**
   * With TokenDuration unset and a daily interval, two tokens of two hours and of one, neither delivered: each
   * patch wakes the controller for the next request, and the renewal is still due afterwards.
   */
  lemma UndeliveredTokensWakeExample(deletion: Option<int>, w: World, key: Metrics.ClusterKey, first: Inputs, w1: World,
                                     second: Inputs, w2: World)
    requires w.spec.pullMode && w.spec.tokenRequestRenewalOption == Some(DAILY)
    requires w.status.lastReconciledTokenRequestAt == Empty
    requires first.pull == Undelivered(CHECK, 2 * HOUR) && ReconciledWorld(w, 0, key, first, w1)
    requires second.pull == Undelivered(CHECK + SECOND, HOUR) && ReconciledWorld(w1, 0, key, second, w2)
    ensures Wakes(deletion, w.spec, w1.spec) && Wakes(deletion, w1.spec, w2.spec)
    ensures w2.spec.tokenRequestRenewalOption == Some(DAILY.(renewTokenRequestInterval := HOUR))
    ensures RenewalDue(w2.spec, w2.status, 0, CHECK + 2 * SECOND)
  {
    ShortLifetimeIsAdjusted(DAILY, CHECK, 2 * HOUR);
    IntervalAfterUndelivered(w, 0, key, first, w1);
    UndeliveredTokenKeepsWaking(deletion, w, 0, key, first, w1, CHECK + SECOND);
    ShortLifetimeIsAdjusted(DAILY.(renewTokenRequestInterval := 2 * HOUR), CHECK + SECOND, HOUR);
    IntervalAfterUndelivered(w1, 0, key, second, w2);
    UndeliveredTokenKeepsWaking(deletion, w1, 0, key, second, w2, CHECK + 2 * SECOND);
  }
}
