/** Whole runs of reconciles of a live cluster, and the runs of the single machines they amount to. */
module ReconcileHistory {
  import opened Wrappers
  import opened Cluster
  import Pausing
  import PauseSafety
  import PauseCoherence
  import opened TokenRenewal
  import TokenLiveness
  import opened Connection
  import opened ClusterChecks
  import ConnectionHistory
  import Metrics
  import opened Reconciler
  import opened ReconcileEffects

  /** One reconcile: the record it finds, what the world answers, the record it leaves, and when it ends. */
  datatype Turn = Turn(found: Record, inputs: Inputs, left: Record, end: int)

  /**
   * Between two reconciles anyone may edit the spec and the agent may report, but Paused, the renewal option,
   * the rest of the status and the kubeconfigs delivered are the controller's own.
   */
  ghost predicate Kept(left: Record, found: Record) {
    && found.spec.paused == left.spec.paused
    && found.spec.tokenRequestRenewalOption == left.spec.tokenRequestRenewalOption
    && found.status == left.status.(agentLastReportTime := found.status.agentLastReportTime)
    && found.writes == left.writes
  }

  function LeftBy(start: Record, turns: seq<Turn>): Record {
    if turns == [] then start else turns[|turns| - 1].left
  }

  ghost predicate Trace(key: Metrics.ClusterKey, env: Pausing.Environment, start: Record, turns: seq<Turn>) {
    var n := |turns| - 1;
    n >= 0 ==>
      && Trace(key, env, start, turns[..n])
      && Kept(LeftBy(start, turns[..n]), turns[n].found)
      && turns[n].inputs.parse == env.parse
      && Reconciled(key, env.created, turns[n].found, turns[n].inputs, turns[n].left)
  }

  // Tokens

  /** The expiry of the token last delivered, when there is one and it can be read. */
  function LastDeliveredExpiry(writes: seq<Write>): Option<int> {
    if writes == [] then None else writes[|writes| - 1].kubeconfig.token.expiry
  }

  function RenewalOf(created: int, r: Record): TokenLiveness.Renewal
    requires r.spec.tokenRequestRenewalOption.Some?
  {
    TokenLiveness.Renewal(r.spec.tokenRequestRenewalOption.value, r.status.lastReconciledTokenRequestAt, created,
                          LastDeliveredExpiry(r.writes))
  }

  /** When the reconcile checks whether a renewal is due. */
  function CheckOf(turn: Turn): int {
    if turn.found.spec.pullMode then turn.inputs.pull.renewalCheck else turn.inputs.push.renewalCheck
  }

  /** The reconcile as the renewal runs see it. */
  function ReconcileOf(created: int, turn: Turn): TokenLiveness.Reconcile {
    TokenLiveness.Reconcile(CheckOf(turn), TriedByMode(turn.found.spec, turn.found.status, created, turn.inputs),
                            turn.end)
  }

  lemma NothingTriedUnlessDue(created: int, turn: Turn)
    ensures var spec, status := turn.found.spec, turn.found.status;
            TriedByMode(spec, status, created, turn.inputs) != [] ==>
              RenewalDue(spec, status, created, ReconcileOf(created, turn).check)
  {
  }

  /** The token last delivered is the one last stored, in either mode. */
  lemma DeliveredIsStored(created: int, turn: Turn)
    ensures var spec, status := turn.found.spec, turn.found.status;
            LastDeliveredExpiry(turn.found.writes + WrittenByMode(spec, status, created, turn.inputs)) ==
              TokenLiveness.LastExpiry(Stored(TriedByMode(spec, status, created, turn.inputs)),
                                       LastDeliveredExpiry(turn.found.writes))
  {
    var spec, status, writes := turn.found.spec, turn.found.status, turn.found.writes;
    var written := WrittenByMode(spec, status, created, turn.inputs);
    if written == [] {
      assert writes + written == writes;
    }
    if spec.pullMode {
      var tried := TriedByMode(spec, status, created, turn.inputs);
      assert tried != [] ==> tried[..0] == [];
    }
  }

  /** A whole reconcile is one step of a renewal run, down to the expiry of the token last delivered. */
  lemma ReconcileIsRenewalStep(key: Metrics.ClusterKey, created: int, turn: Turn)
    requires turn.found.spec.tokenRequestRenewalOption.Some?
    requires Reconciled(key, created, turn.found, turn.inputs, turn.left)
    ensures turn.left.spec.tokenRequestRenewalOption.Some?
    ensures RenewalOf(created, turn.left) ==
              TokenLiveness.Step(RenewalOf(created, turn.found), ReconcileOf(created, turn))
  {
    NothingTriedUnlessDue(created, turn);
    DeliveredIsStored(created, turn);
  }

  function ReconcilesOf(created: int, turns: seq<Turn>): (r: seq<TokenLiveness.Reconcile>)
    ensures |r| == |turns|
  {
    if turns == [] then []
    else ReconcilesOf(created, turns[..|turns| - 1]) + [ReconcileOf(created, turns[|turns| - 1])]
  }

  lemma {:induction false} TraceIsRenewalRun(key: Metrics.ClusterKey, env: Pausing.Environment, start: Record,
        turns: seq<Turn>)
    requires start.spec.tokenRequestRenewalOption.Some? && Trace(key, env, start, turns)
    ensures LeftBy(start, turns).spec.tokenRequestRenewalOption.Some?
    ensures RenewalOf(env.created, LeftBy(start, turns)) ==
              TokenLiveness.Run(RenewalOf(env.created, start), ReconcilesOf(env.created, turns))
  {
    if turns != [] {
      var n := |turns| - 1;
      TraceIsRenewalRun(key, env, start, turns[..n]);
      ReconcileIsRenewalStep(key, env.created, turns[n]);
      assert ReconcilesOf(env.created, turns)[..n] == ReconcilesOf(env.created, turns[..n]);
      assert RenewalOf(env.created, turns[n].found) == RenewalOf(env.created, LeftBy(start, turns[..n]));
    }
  }

  /**
   * The agent or the controller always holds a live token: over every run of whole reconciles, in push mode, in
   * pull mode or in both by turns, the token last delivered has not expired at any instant between the end of
   * one reconcile and the end of the next.
   */
  lemma LastDeliveredTokenIsLive(key: Metrics.ClusterKey, env: Pausing.Environment, start: Record, turns: seq<Turn>,
                                 pace: TokenLiveness.Pace, d: int, t: int)
    requires start.spec.tokenRequestRenewalOption.Some? && Trace(key, env, start, turns)
    requires TokenLiveness.SafePace(pace, d)
    requires TokenLiveness.Covering(start.spec.tokenRequestRenewalOption.value, d)
    requires TokenLiveness.Paced(pace, RenewalOf(env.created, start), ReconcilesOf(env.created, turns))
    requires |turns| > 1 && turns[|turns| - 2].end <= t <= turns[|turns| - 1].end
    ensures TokenLiveness.LiveAt(LastDeliveredExpiry(LeftBy(start, turns[..|turns| - 1]).writes), t)
  {
    var n := |turns| - 1;
    var reconciles := ReconcilesOf(env.created, turns);
    assert reconciles[..n] == ReconcilesOf(env.created, turns[..n]);
    TraceIsRenewalRun(key, env, start, turns[..n]);
    TokenLiveness.TokenIsAlwaysLive(pace, d, RenewalOf(env.created, start), reconciles, n, t);
  }

  // The first token

  function RequestedAt(created: int, turn: Turn): seq<Request> {
    RequestedByMode(turn.found.spec, turn.found.status, created, turn.inputs)
  }

  /** No turn checks later than t. */
  ghost predicate CheckedBy(turns: seq<Turn>, t: int) {
    forall i :: 0 <= i < |turns| ==> CheckOf(turns[i]) <= t
  }

  ghost predicate NoneRequests(created: int, turns: seq<Turn>) {
    forall i :: 0 <= i < |turns| ==> RequestedAt(created, turns[i]) == []
  }

  lemma OneMoreQuietTurn(created: int, turns: seq<Turn>, t: int)
    requires turns != [] && CheckedBy(turns, t)
    ensures CheckedBy(turns[..|turns| - 1], t) && CheckOf(turns[|turns| - 1]) <= t
    ensures NoneRequests(created, turns[..|turns| - 1]) && RequestedAt(created, turns[|turns| - 1]) == [] ==>
              NoneRequests(created, turns)
  {
    assert forall i :: 0 <= i < |turns| - 1 ==> turns[..|turns| - 1][i] == turns[i];
  }

  lemma NothingHappensUnlessDue(key: Metrics.ClusterKey, created: int, turn: Turn)
    requires turn.found.spec.tokenRequestRenewalOption.Some? && !turn.found.status.lastReconciledTokenRequestAt.At?
    requires Reconciled(key, created, turn.found, turn.inputs, turn.left)
    requires CheckOf(turn) <= created
                              + RestingTime(turn.found.spec.tokenRequestRenewalOption.value.renewTokenRequestInterval)
    ensures RequestedAt(created, turn) == [] && turn.left.writes == turn.found.writes
    ensures turn.left.spec.tokenRequestRenewalOption == turn.found.spec.tokenRequestRenewalOption
    ensures turn.left.status.lastReconciledTokenRequestAt == turn.found.status.lastReconciledTokenRequestAt
  {
    RenewalDueExactly(turn.found.spec.tokenRequestRenewalOption, turn.found.status.lastReconciledTokenRequestAt,
                      created, CheckOf(turn));
    NothingTriedUnlessDue(created, turn);
  }

  /**
   * A cluster without a recorded renewal is left alone until the interval, less the ten minutes, has passed since it
   * was created: no reconcile that checks by then requests or delivers a token.
   */
  lemma {:induction false} NoTokenBeforeFirstRenewal(key: Metrics.ClusterKey, env: Pausing.Environment, start: Record,
        turns: seq<Turn>, opt: RenewalOption)
    requires start.spec.tokenRequestRenewalOption == Some(opt) && !start.status.lastReconciledTokenRequestAt.At?
    requires Trace(key, env, start, turns)
    requires CheckedBy(turns, env.created + RestingTime(opt.renewTokenRequestInterval))
    ensures NoneRequests(env.created, turns)
    ensures LeftBy(start, turns).writes == start.writes
    ensures LeftBy(start, turns).spec.tokenRequestRenewalOption == Some(opt)
    ensures LeftBy(start, turns).status.lastReconciledTokenRequestAt == start.status.lastReconciledTokenRequestAt
  {
    if turns != [] {
      var n := |turns| - 1;
      OneMoreQuietTurn(env.created, turns, env.created + RestingTime(opt.renewTokenRequestInterval));
      NoTokenBeforeFirstRenewal(key, env, start, turns[..n], opt);
      NothingHappensUnlessDue(key, env.created, turns[n]);
    }
  }

  /** The world lets a due renewal request its tokens: the account is known and, in push mode, the cluster answers. */
  ghost predicate CanRequest(turn: Turn, opt: RenewalOption) {
    && opt.saNamespace != "" && opt.saName != ""
    && if turn.found.spec.pullMode then !turn.inputs.pull.attempt.NoEndpoint?
       else
         && turn.inputs.push.configError.None? && turn.inputs.push.version.Success?
         && turn.inputs.push.renewal.secret.Success? && turn.inputs.push.renewal.secret.value.Success?
         && turn.inputs.push.renewal.secret.value.value != []
  }

  /** The first reconcile that checks after that instant and can, requests tokens for the account the option names. */
  lemma FirstRenewalRequests(key: Metrics.ClusterKey, env: Pausing.Environment, start: Record, turns: seq<Turn>,
                             turn: Turn, opt: RenewalOption)
    requires start.spec.tokenRequestRenewalOption == Some(opt) && !start.status.lastReconciledTokenRequestAt.At?
    requires Trace(key, env, start, turns) && Kept(LeftBy(start, turns), turn.found)
    requires CheckedBy(turns, env.created + RestingTime(opt.renewTokenRequestInterval))
    requires CheckOf(turn) > env.created + RestingTime(opt.renewTokenRequestInterval) && CanRequest(turn, opt)
    ensures var requests := RequestedAt(env.created, turn);
            && requests != [] && LifetimeTold(opt, requests)
            && forall i :: 0 <= i < |requests| ==> requests[i].account == ServiceAccount(opt.saNamespace, opt.saName)
  {
    var spec, status := turn.found.spec, turn.found.status;
    NoTokenBeforeFirstRenewal(key, env, start, turns, opt);
    RenewalDueExactly(spec.tokenRequestRenewalOption, status.lastReconciledTokenRequestAt, env.created, CheckOf(turn));
    if spec.pullMode {
      PullTokensTold(spec, status, env.created, turn.inputs.pull);
    } else {
      PushTokensTold(spec, status, env.created, turn.inputs.push);
    }
  }

  // Readiness

  /** What the push-mode reconciles saw. */
  function ProbesOf(turns: seq<Turn>): seq<Probe> {
    if turns == [] then []
    else
      var n := |turns| - 1;
      if turns[n].found.spec.pullMode then ProbesOf(turns[..n])
      else ProbesOf(turns[..n]) + [ProbeOf(turns[n].found.spec, turns[n].inputs.push)]
  }

  /** A run of whole reconciles moves the ready flag by one run of the latch. */
  lemma {:induction false} TraceIsReadyRun(key: Metrics.ClusterKey, env: Pausing.Environment, start: Record,
        turns: seq<Turn>)
    requires Trace(key, env, start, turns)
    ensures LeftBy(start, turns).status.ready <==> ReadyRun(start.status.ready, ProbesOf(turns))
  {
    if turns != [] {
      var n := |turns| - 1;
      TraceIsReadyRun(key, env, start, turns[..n]);
      var before := ProbesOf(turns[..n]);
      assert (before + [ProbeOf(turns[n].found.spec, turns[n].inputs.push)])[..|before|] == before;
    }
  }

  /** A push-mode reconcile that reached the cluster with every readiness check passing. */
  ghost predicate PassesReadiness(turn: Turn) {
    && !turn.found.spec.pullMode
    && turn.inputs.push.configError.None? && turn.inputs.push.version.Success?
    && AllPass(turn.found.spec.readinessChecks, turn.inputs.push.eval)
  }

  lemma TurnReady(key: Metrics.ClusterKey, created: int, turn: Turn)
    requires Reconciled(key, created, turn.found, turn.inputs, turn.left)
    ensures turn.left.status.ready <==> turn.found.status.ready || PassesReadiness(turn)
  {
  }

  ghost predicate SomePassesReadiness(turns: seq<Turn>) {
    exists i :: 0 <= i < |turns| && PassesReadiness(turns[i])
  }

  lemma OneMoreTurn(turns: seq<Turn>)
    requires turns != []
    ensures SomePassesReadiness(turns) <==>
              SomePassesReadiness(turns[..|turns| - 1]) || PassesReadiness(turns[|turns| - 1])
  {
    assert forall i :: 0 <= i < |turns| - 1 ==> turns[..|turns| - 1][i] == turns[i];
  }

  /** Over every run a cluster is ready exactly when it was at the start, or some such reconcile has come. */
  lemma {:induction false} ReadyExactlyAfterReadiness(key: Metrics.ClusterKey, env: Pausing.Environment, start: Record,
        turns: seq<Turn>)
    requires Trace(key, env, start, turns)
    ensures LeftBy(start, turns).status.ready <==> start.status.ready || SomePassesReadiness(turns)
  {
    if turns != [] {
      var n := |turns| - 1;
      ReadyExactlyAfterReadiness(key, env, start, turns[..n]);
      OneMoreTurn(turns);
      TurnReady(key, env.created, turns[n]);
    }
  }

  // Pausing

  function EditedOf(r: Record): PauseCoherence.Edited {
    PauseCoherence.Edited(r.spec.activeWindow, PauseIn(r))
  }

  /** Each reconcile as an edit to the window it finds, and a call. */
  function EventsOf(turns: seq<Turn>): seq<PauseCoherence.Event> {
    if turns == [] then []
    else
      var n := |turns| - 1;
      EventsOf(turns[..n]) + [PauseCoherence.Edit(turns[n].found.spec.activeWindow)]
      + [PauseCoherence.Call(turns[n].inputs.now)]
  }

  lemma HistoryOfOneMore(st: PauseCoherence.Edited, env: Pausing.Environment, events: seq<PauseCoherence.Event>,
                         e: PauseCoherence.Event)
    ensures PauseCoherence.History(st, env, events + [e]) ==
              PauseCoherence.Apply(PauseCoherence.History(st, env, events), env, e)
  {
    assert (events + [e])[..|events|] == events;
  }

  /** A run of whole reconciles moves the pause fields by one history of edits and calls. */
  lemma {:induction false} TraceIsPauseHistory(key: Metrics.ClusterKey, env: Pausing.Environment, start: Record,
        turns: seq<Turn>)
    requires Trace(key, env, start, turns)
    ensures EditedOf(LeftBy(start, turns)) == PauseCoherence.History(EditedOf(start), env, EventsOf(turns))
  {
    if turns != [] {
      var n := |turns| - 1;
      var before := EventsOf(turns[..n]);
      var edit := PauseCoherence.Edit(turns[n].found.spec.activeWindow);
      TraceIsPauseHistory(key, env, start, turns[..n]);
      HistoryOfOneMore(EditedOf(start), env, before, edit);
      HistoryOfOneMore(EditedOf(start), env, before + [edit], PauseCoherence.Call(turns[n].inputs.now));
    }
  }

  /** A reconcile that finds no ActiveWindow leaves Paused and the hash alone and clears both times. */
  lemma ReconcileWithoutWindow(key: Metrics.ClusterKey, created: int, turn: Turn)
    requires Reconciled(key, created, turn.found, turn.inputs, turn.left)
    requires turn.found.spec.activeWindow.None?
    ensures turn.left.spec.paused == turn.found.spec.paused
    ensures turn.left.status.nextUnpause.None? && turn.left.status.nextPause.None?
    ensures turn.left.status.activeWindowHash == turn.found.status.activeWindowHash
  {
    var env := Pausing.Environment(turn.inputs.parse, created);
    PauseCoherence.NoWindowKeepsPaused(EditedOf(turn.found), env, PauseCoherence.Call(turn.inputs.now));
    assert PauseIn(turn.left) ==
             PauseCoherence.Apply(EditedOf(turn.found), env, PauseCoherence.Call(turn.inputs.now)).pause;
  }

  ghost predicate MovesPaused(turn: Turn) {
    turn.found.spec.activeWindow.Some? && turn.left.spec.paused != turn.found.spec.paused
  }

  /** Over every run of whole reconciles, Paused moves only at one that finds an ActiveWindow. */
  lemma {:induction false} TracePausedMovesOnlyUnderWindow(key: Metrics.ClusterKey, env: Pausing.Environment,
        start: Record, turns: seq<Turn>)
    requires Trace(key, env, start, turns) && LeftBy(start, turns).spec.paused != start.spec.paused
    ensures exists i :: 0 <= i < |turns| && MovesPaused(turns[i])
  {
    if turns != [] {
      var n := |turns| - 1;
      if LeftBy(start, turns[..n]).spec.paused != start.spec.paused {
        TracePausedMovesOnlyUnderWindow(key, env, start, turns[..n]);
        var i :| 0 <= i < n && MovesPaused(turns[..n][i]);
        assert MovesPaused(turns[i]);
      } else {
        if turns[n].found.spec.activeWindow.None? {
          ReconcileWithoutWindow(key, env.created, turns[n]);
        }
        assert MovesPaused(turns[n]);
      }
    }
  }

  /** Unpause safety of whole reconciles, through any edits of the window, under the conditions it has for histories. */
  lemma ReconcilesUnpauseInWindow(key: Metrics.ClusterKey, env: Pausing.Environment, start: Record, turns: seq<Turn>,
                                  turn: Turn, window: ActiveWindow, events: seq<PauseCoherence.Event>)
    requires start.status.nextUnpause.None? && start.status.nextPause.None?
    requires Trace(key, env, start, turns) && Kept(LeftBy(start, turns), turn.found)
    requires turn.inputs.parse == env.parse && Reconciled(key, env.created, turn.found, turn.inputs, turn.left)
    requires turn.found.spec.activeWindow == Some(window) && !turn.left.spec.paused
    requires events == EventsOf(turns) + [PauseCoherence.Edit(Some(window))]
    requires PauseCoherence.DistinctHashes(EditedOf(start), events)
    requires PauseCoherence.NeverMixes(EditedOf(start), env, events, events)
    requires PauseCoherence.Ordered(events) && PauseCoherence.NoneLater(events, turn.inputs.now)
    ensures PauseSafety.InActiveWindow(window, env, turn.inputs.now) <==>
              turn.found.status.nextPause != Some(turn.inputs.now)
  {
    TraceIsPauseHistory(key, env, start, turns);
    HistoryOfOneMore(EditedOf(start), env, EventsOf(turns), PauseCoherence.Edit(Some(window)));
    PauseCoherence.EditsKeepUnpauseSafety(EditedOf(start), env, events, turn.inputs.now);
  }

  // The connection

  /** What the reconciles that observe the connection observed. */
  function ObservationsOf(key: Metrics.ClusterKey, turns: seq<Turn>): seq<Observation> {
    if turns == [] then []
    else
      var n := |turns| - 1;
      var before := ObservationsOf(key, turns[..n]);
      if Observes(turns[n].found.spec, turns[n].found.status) then before + [ObservationIn(key, turns[n].left)]
      else before
  }

  /** A run of whole reconciles moves the connection status and counter by one run of observations. */
  lemma {:induction false} TraceIsConnectionRun(key: Metrics.ClusterKey, env: Pausing.Environment, start: Record,
        turns: seq<Turn>)
    requires Trace(key, env, start, turns)
    ensures ConnectionIn(LeftBy(start, turns)) ==
              ConnectionHistory.Run(ConnectionIn(start), ObservationsOf(key, turns))
  {
    if turns != [] {
      var n := |turns| - 1;
      TraceIsConnectionRun(key, env, start, turns[..n]);
      var before := ObservationsOf(key, turns[..n]);
      assert (before + [ObservationIn(key, turns[n].left)])[..|before|] == before;
    }
  }

  /**
   * The status and the counter of whole reconciles, from none failed and not Down: the counter is the trailing run
   * of failures observed; Down exactly when one of them reached its threshold; else Healthy once one succeeded.
   */
  lemma TraceConnectionTold(key: Metrics.ClusterKey, env: Pausing.Environment, start: Record, turns: seq<Turn>)
    requires Trace(key, env, start, turns)
    requires start.status.connectionFailures == 0 && start.status.connectionStatus != Down
    ensures var obs, end := ObservationsOf(key, turns), LeftBy(start, turns).status;
            && ConnectionHistory.TrailingFailures(obs, end.connectionFailures)
            && end.connectionStatus ==
                 if ConnectionHistory.ReachedThreshold(obs, end.connectionFailures) then Down
                 else if ConnectionHistory.HoldsSuccess(obs) then Healthy
                 else start.status.connectionStatus
  {
    TraceIsConnectionRun(key, env, start, turns);
    ConnectionHistory.StreakCounting(ConnectionIn(start), ObservationsOf(key, turns));
  }
}
