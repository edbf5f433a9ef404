# sveltoscluster-manager in Dafny

A model of the reconciler that looks after SveltosCluster records, with machine-checked proofs of what it
keeps over whole runs. `dafny verify dfyconfig.toml` checks everything.

The record is the class `Cluster.SveltosCluster`, whose spec and status the methods assign in place. Each
machine of the controller is a method proved equal to a step function over the part of the record it owns,
and the theorems are about every run of that step function. `Reconciler.Reconcile` drives all machines in the
order of the source and states that each moves by its own step (`Reconciler.Reconciled`). `ReconcileHistory` takes
sequences of such reconciles, with edits of the spec in between, and proves that they are runs of the renewal, of
the pause automaton, of the connection machine and of the readiness latch, so the run theorems apply to them.

| file | what it holds |
|---|---|
| `Wrappers.dfy`, `Cluster.dfy` | optional values, durations and timestamps; the record |
| `Cron.dfy` | schedules, missed starts, `GetNextScheduleTime` |
| `Pausing.dfy` | the active-window automaton |
| `Windows.dfy`, `PauseSafety.dfy`, `PauseRecovery.dfy` | what a window is; unpause safety; when missed times are found again |
| `PauseRefinement.dfy` | when the automaton agrees with the windows, and when it never opens one |
| `PauseCoherence.dfy`, `PauseQuiescence.dfy`, `Predicate.dfy` | edits of the window; self-triggering |
| `WeeklySchedules.dfy`, `PauseExamples.dfy` | weekly cron texts, and concrete runs under them |
| `TokenRenewal.dfy`, `TokenLiveness.dfy` | renewal arithmetic and loop; tokens over whole runs |
| `Connection.dfy` | connection status, events, and their histories |
| `ClusterChecks.dfy`, `LabelSelector.dfy`, `Metrics.dfy`, `ServiceAccount.dfy` | checks and readiness latch; selector printer; gauges; user names |
| `Reconciler.dfy` | push mode, pull mode, deletion, the whole reconcile, grace-period runs |
| `ReconcileEffects.dfy` | what one reconcile does, from what it finds and is answered alone |
| `ReconcileHistory.dfy`, `SpecPatches.dfy` | runs of whole reconciles; which patches wake the controller again |

## Conventions

- Instants and durations are integers counting nanoseconds. The status keeps `LastReconciledTokenRequestAt`
  as text with second precision; that truncation is modelled.
- A cron schedule is a function giving the next fire: strictly later than its argument, with nothing firing in
  between. It fires forever. The cron parser is a parameter and may fail.
- The SHA-256 of the active window is modelled as the joined text of its two schedules: injective on that text
  and on nothing finer.
- Kubeconfigs are delivered to a log of accepted writes: of the Secret in push mode, of the Secret committed for the
  agent in pull mode.
- Kubernetes answers, JWT decoding, check evaluation, version parsing and clock readings are inputs of the step.

## What the proofs found

- An unpaused cluster lies in an active window, except after a call exactly on NextPause: the two are equivalent,
  for any schedules and any call times (`UnpauseSafety`), and through edits of the window (`EditsKeepUnpauseSafety`).
- A call that falls on NextPause with the window open leaves the cluster unpaused and puts NextPause before
  NextUnpause (`CallAtNextPauseReverses`). So does a first call inside a window. A pair so reversed never opens a
  window until some call falls exactly on an opening, or is the first after one and finds an opening next.
  `RunUnpausedExactly` tells Paused after every call of a run from the fires and the call times alone, and
  `RefinementExactlyWhenObserved` when it agrees with the intended windows throughout. For runs that avoid the
  fires this is short: the first call, and the first call after each closing, falls outside any window
  (`RefinementOffFires`). Under `0 9 * * 1` to `0 17 * * 1` and one call a minute, a cluster first called an hour
  before the opening follows its window for ever, one first called two hours after it is paused for ever
  (`FirstCallInsideExample`).
- When both times are absent or past they are found again if and only if both schedules parse and at most 100
  fires of each were missed, counted from the cached times or from creation. Otherwise NextPause never moves and
  the cluster stays paused for good (`RecoversExactlyWhenFewMissed`, `FirstPairAppearsExactlyWhenFewMissed`).
- Two windows with the same joined text are confused: `0 8 * * 0` to `15 20 * * 0` and `0 8 * * 01` to
  `5 20 * * 0` (`EqualJoinsHideAnEdit`). An edit is noticed exactly when the joined texts differ
  (`EditNoticedExactlyWhenJoinsDiffer`).
- A forced recalculation that fails on NextPause keeps the old hash beside the new NextUnpause
  (`ForcedHalfwayMixesWindows`). Between windows that join to different text the cached times belong to the window
  whose hash is stored if and only if that never happens with a NextUnpause that the old window does not fire at
  (`CoherentExactlyWhenNeverMixed`).
- A TokenDuration a second or more below the renewal threshold lets every honoured token expire before its renewal
  is due (`DueBeforeExpiryExactlyWhenLongEnough`). A shortened token comes due two seconds before it expires, or
  earlier, exactly when it had more than ten minutes left (`ShortenedTokenDueInTimeExactly`).
- An unpaused cluster outside its window, in a concrete run: called before the opening, inside the window and
  exactly at its closing (`CallOnClosingExample`).
- The controller's own patches wake it again exactly when Paused, the renewal interval or the key name moves
  (`OwnPatchWakesExactly`). Through Paused that happens at most twice per opening and once more
  (`PatchesPassTwicePerOpening`). Pull-mode tokens that are issued ever shorter and never delivered wake it
  every time (`UndeliveredTokenKeepsWaking`, `UndeliveredTokensWakeExample`).
- Where comments and code differ, the code is followed: the branch at `sveltoscluster_controller.go:638-645` is
  described as covering instants between the two times, but is reached only when the clock equals NextUnpause;
  `getNextScheduleTime` is described as returning a time before now and returns the first fire after now.

## Model

| member | source | states |
|---|---|---|
| Cron.GetNextScheduleTime | controllers/sveltoscluster_controller.go:719-742 | fails exactly on an unparseable schedule, a missing last run, or more than 100 fires strictly between last run and now; otherwise the least fire after now whatever the last run; by its decreases the loop ends at the 101st missed fire |
| Pausing.HandleAutomaticPauseUnPause | controllers/sveltoscluster_controller.go:602-664 | the cluster moves by exactly one step of the automaton and nothing but Paused, the two times and the hash changes; without an ActiveWindow both times are cleared and nothing else changes |
| Pausing.RecalculateNextUnpause | controllers/sveltoscluster_controller.go:666-690 | NextUnpause is refreshed only when absent or passed, counting missed From fires from its old value or creation |
| Pausing.RecalculateNextPause | controllers/sveltoscluster_controller.go:692-716 | the same for NextPause and To fires |
| PauseSafety.UnpauseSafety | controllers/sveltoscluster_controller.go:626-649 | for any schedules and call times, a call that leaves the cluster unpaused lies in a window opened by a From fire with no To fire since, if and only if it does not fall exactly on NextPause |
| PauseSafety.RunKeepsCacheInvariant | controllers/sveltoscluster_controller.go:666-716 | over every run both cached times are fires, pending ones the next, and no To fire separates NextUnpause from a later NextPause |
| PauseRecovery.RecoversExactlyWhenFewMissed | controllers/sveltoscluster_controller.go:647-742 | from any state with both times absent or past, over every run: a new pair is found if and only if both schedules parse and at most 100 fires of each were missed at the first call; otherwise the cluster stays paused and NextPause never moves |
| PauseRecovery.FirstPairAppearsExactlyWhenFewMissed | controllers/sveltoscluster_controller.go:647-742 | from nil times both are cached over every run if and only if both schedules parse and at most 100 fires of each lie between creation and the first call |
| PauseRecovery.LostUnpauseFreezes | controllers/sveltoscluster_controller.go:651-690 | both times past and more than 100 From fires missed since NextUnpause: every later run leaves the state as it was, paused |
| PauseRecovery.LostPauseFreezes | controllers/sveltoscluster_controller.go:656-716 | NextPause past and more than 100 To fires missed since: every later call leaves the cluster paused and NextPause as it was |
| PauseRecovery.TooManyMissedStaysPaused | controllers/sveltoscluster_controller.go:728-738 | more than 100 fires of either schedule missed since creation leave the cluster paused after every later call |
| Windows.InWindowIffClosesNext | controllers/sveltoscluster_controller.go:627-636 | with alternating schedules an instant lies in a window exactly when the next fire is a To fire and the instant is not itself the opening |
| PauseRefinement.RefinementExactlyWhenObserved | controllers/sveltoscluster_controller.go:602-664 | after every call of a run Paused is false exactly inside a window, if and only if every call inside a window finds the pair in order and none falls on the closing of a window left open |
| PauseRefinement.RunUnpausedExactly | controllers/sveltoscluster_controller.go:602-664 | Paused after every call of a run, on the fires or off them, from the fires and the call times alone |
| PauseRefinement.RunFollowsOrder | controllers/sveltoscluster_controller.go:666-716 | after every call the cached pair delimits the current or the next window exactly when the call times keep it in order; otherwise NextPause precedes NextUnpause |
| PauseRefinement.RefinementOffFires | controllers/sveltoscluster_controller.go:602-664 | for runs off the fires that agreement holds if and only if the first call and the first call after each closing find an opening next |
| PauseRefinement.ShortGapsRefine | controllers/sveltoscluster_controller.go:602-664 | first call with an opening next, gaps shorter than every pause interval and no call on the pending closing give agreement after every call |
| PauseRefinement.FreshPair | controllers/sveltoscluster_controller.go:651-716 | a call that recalculates both times pauses, and leaves them in order exactly when the next fire is a From fire, reversed exactly when it is a To fire |
| PauseRefinement.FirstCallInsideNeverOpens | controllers/sveltoscluster_controller.go:626-649 | first called inside a window or on its opening, and with every later opening observed, the cluster is paused after every call |
| PauseRefinement.ReversedNeverOpens | controllers/sveltoscluster_controller.go:626-649 | however the pair got reversed, every later call leaves the cluster paused while every opening is observed |
| PauseRefinement.ReversalEndsExactlyOutside | controllers/sveltoscluster_controller.go:637-656 | a reversed pair recalculated past its NextUnpause is in order again exactly when the call lies outside any window and not on an opening |
| PauseRefinement.ReversalEndsAtFromFire | controllers/sveltoscluster_controller.go:666-716 | a call exactly at the cached NextUnpause also ends the reversal |
| PauseRefinement.CallAtNextPauseReverses | controllers/sveltoscluster_controller.go:637-656 | a call exactly at NextPause keeps Paused and reverses the pair |
| PauseExamples.FirstCallInsideExample | controllers/sveltoscluster_controller.go:647-656 | Mondays nine to five, one call a minute: first called before the opening the cluster follows its window for ever, first called inside it is paused for ever |
| PauseExamples.CallOnClosingExample | controllers/sveltoscluster_controller.go:637-656 | Mondays nine to five, called before the opening, inside the window and exactly at its closing: the cluster is left unpaused outside its window |
| PauseCoherence.CoherentExactlyWhenNeverMixed | controllers/sveltoscluster_controller.go:613-658 | over every run of edits and calls between windows with different joined text, the cached times are fires of the window whose hash is stored, after every event, if and only if no call stops halfway under another window with a NextUnpause the stored window does not fire at |
| PauseCoherence.EditsKeepCoherence | controllers/sveltoscluster_controller.go:613-624 | under those conditions a stored hash equal to the current one means both cached times are fires of the current schedules |
| PauseCoherence.EditsWithoutHalfwayKeepCoherence | controllers/sveltoscluster_controller.go:613-624 | the same for runs in which no forced recalculation stopped halfway |
| PauseCoherence.EditNoticedExactlyWhenJoinsDiffer | controllers/sveltoscluster_controller.go:613-624 | the cached pair is discarded after an edit exactly when the joined texts differ; if not, a call before NextPause acts as under the old window; From texts of one length never hide an edit |
| PauseCoherence.EditsKeepUnpauseSafety | controllers/sveltoscluster_controller.go:605-649 | under the same two conditions and non-decreasing calls, a call that leaves the cluster unpaused lies in a window of the ActiveWindow then in force if and only if it does not fall exactly on NextPause |
| PauseCoherence.NoWindowKeepsPaused | controllers/sveltoscluster_controller.go:607-611 | an edit, or a call without a window, leaves Paused and the hash as they were; such a call clears both times |
| PauseCoherence.PausedMovesOnlyUnderWindow | controllers/sveltoscluster_controller.go:607-611 | over every run of edits and calls, Paused moves only at calls under a window |
| PauseExamples.EqualJoinsHideAnEdit | controllers/sveltoscluster_controller.go:1180-1193 | two valid pairs of cron texts with equal joined text: the edit goes unnoticed and the cluster is unpaused outside its new window |
| PauseExamples.ForcedHalfwayMixesWindows | controllers/sveltoscluster_controller.go:651-658 | valid cron texts and one unparseable To: after a forced recalculation that fails on NextPause, going back to the old window leaves a NextUnpause that is not its fire |
| PauseQuiescence.IdempotentExactlyOffOpenClosing | controllers/sveltoscluster_controller.go:602-664 | at one clock reading a second call changes nothing, except exactly on the closing of a window still open in Paused |
| PauseQuiescence.PatchesPassAtMostOnce | controllers/sveltoscluster_predicate.go:34-68 | from any state, however often the call repeats at one clock reading, at most one of its patches passes the update filter |
| PauseQuiescence.PausedMovesOnlyAcrossFires | controllers/sveltoscluster_controller.go:602-664 | with a moving clock, over every run: a call that unpauses has a From fire since the call before, a call that pauses a To fire, each the cached one |
| PauseQuiescence.PatchesPassTwicePerOpening | controllers/sveltoscluster_predicate.go:34-68 | the pause patches of a run that pass the update filter number at most one more than twice the From fires in its span, however many calls it has |
| SpecPatches.OwnPatchWakesExactly | controllers/sveltoscluster_predicate.go:54-60 | a reconcile's own patch passes the update filter exactly when Paused moves, an issued token adjusts the interval to another value, or a push-mode renewal stores a token under another key than the spec names |
| SveltosClusterPredicates.PassesExactly | controllers/sveltoscluster_predicate.go:34-68 | an update passes if the old cluster is unknown, else exactly when deletion begins or the spec differs |
| SpecPatches.UndeliveredTokenKeepsWaking | controllers/sveltoscluster_controller.go:928-983 | a pull-mode token issued and not delivered, with more than ten minutes left and less than the interval: the patch passes the filter and the renewal stays due |
| SpecPatches.UndeliveredTokensWakeExample | controllers/sveltoscluster_controller.go:928-983 | a daily interval and two undelivered tokens of two hours and of one: both patches pass and the renewal is still due |
| TokenRenewal.HandleTokenRequestRenewal | controllers/sveltoscluster_controller.go:422-491 | requests, writes, interval and recorded time of the loop; everything is for the account the option names whatever whoami answers, else the one whoami names, else that of the first context naming a user, and without a namespace nothing is requested; each request is for TokenDuration or the interval and half an hour, each write under the one key, and the time recorded is that of the last token stored |
| TokenRenewal.RenewalDueExactly | controllers/sveltoscluster_controller.go:379-404 | a renewal is due exactly when the option is set and more than the interval, less ten minutes when longer, has passed in whole seconds since the recorded renewal or, while none can be read, since creation |
| TokenRenewal.RequestedLifetimeExactly | controllers/sveltoscluster_controller.go:407-420 | the requested lifetime in nanoseconds: TokenDuration, or the interval and half an hour while it is unset, cut to whole seconds |
| TokenRenewal.AdjustsExactly | controllers/sveltoscluster_controller.go:744-782 | the interval becomes the remaining lifetime exactly when that is readable and more than five seconds short of the request |
| TokenRenewal.RenewContexts | controllers/sveltoscluster_controller.go:451-487 | the loop over contexts, against that closed form |
| TokenLiveness.TokenIsAlwaysLive | controllers/sveltoscluster_controller.go:370-402 | over runs of the renewal step: with TokenDuration zero or above the renewal threshold by a margin of at most ten minutes, issued lifetimes above 600 s, successful due renewals, and check gap plus reconcile lag plus recording delay under that margin, the token last stored can be read and has not expired at any instant from the first renewal to the end of the last reconcile, for any mix of honoured and shortened lifetimes |
| TokenLiveness.DurationAboveIntervalIsLive | controllers/sveltoscluster_controller.go:370-402 | with an interval above ten minutes and TokenDuration unset or no shorter, that holds for every pace under 595 s |
| TokenLiveness.ThresholdBeforeExpiry | controllers/sveltoscluster_controller.go:388-401 | the renewal threshold left by a token lies before its expiry by the margin the options cover, and by 2395 s for an honoured one with TokenDuration unset |
| TokenLiveness.AdjustedStaysCovering | controllers/sveltoscluster_controller.go:744-782 | adjusting keeps the margin between a set TokenDuration and the renewal threshold |
| TokenLiveness.DueBeforeExpiryExactlyWhenLongEnough | controllers/sveltoscluster_controller.go:407-420 | an honoured token, whenever measured and recorded, keeps the interval and comes due by its expiry exactly when the whole second it was recorded in lies more than the threshold before that; never when the duration is requested a second or more below the threshold |
| TokenLiveness.ShortenedTokenDueInTimeExactly | controllers/sveltoscluster_controller.go:388-402 | a shortened token recorded within 598 s of its measurement comes due two seconds before its expiry, or earlier, exactly when more than ten minutes were left |
| TokenLiveness.IntervalDoesNotDrift | controllers/sveltoscluster_controller.go:744-782 | against a constant lifetime cap the interval is, after any number of passes, the initial one or within 5 s below the cap |
| Connection.UpdateConnectionStatus | controllers/sveltoscluster_controller.go:316-332 | a success makes the cluster Healthy with no failures, a failure adds one and makes it Down at the threshold, and the event log moves with it; nothing else of the status changes |
| Connection.RecordConnectionTransition | controllers/events.go:48-69 | one event exactly when the status enters or leaves Down, with the reason and note of the mode |
| Connection.TransitionTold | controllers/events.go:48-86 | the event of entering or leaving Down, its type, reason and note in each mode, and no event otherwise |
| ConnectionHistory.StreakCounting | controllers/sveltoscluster_controller.go:316-332 | over every run the counter is the length of the trailing run of failures; Down means some failure since the last success reached the threshold then in force; else the status is Healthy once the run holds a success and until then the initial one |
| ConnectionHistory.DownExactlyAtThreshold | controllers/sveltoscluster_controller.go:316-332 | with one threshold of at least 1, Down exactly when the trailing run has reached it |
| ConnectionHistory.EventsAlternate | controllers/events.go:43-69 | failure and recovery events strictly alternate over every run and the last one tells the status |
| ConnectionHistory.FailuresMinusRecoveries | controllers/events.go:43-69 | failures minus recoveries is the change of being Down |
| ClusterChecks.RunChecks | controllers/cluster_checks.go:41-56 | no error exactly when all checks pass, else the error of the least failing index |
| ClusterChecks.ReadyExactlyAfterAllPassed | controllers/sveltoscluster_controller.go:784-794 | a cluster is ready exactly when it was at the start or some reconcile reached it with every readiness check passing |
| ClusterChecks.LivenessExactlyAfterReadiness | controllers/sveltoscluster_controller.go:784-794 | liveness checks are evaluated exactly from then on |
| LabelSelector.CalculateLabelSelector | controllers/cluster_checks.go:171-213 | the printed filters joined to the standard selector, or its conversion error |
| LabelSelectorMeaning.SelectorMeansFiltersAndSelector | controllers/cluster_checks.go:169-213 | on every label map the printed selector matches exactly when every filter holds and the standard selector matches |
| LabelSelectorMeaning.RequirementRoundTrip | controllers/cluster_checks.go:182-191 | reading a printed filter gives the filter back exactly when its operation is known, its key is not empty and neither key nor printed value holds a separator |
| MetricsHistory.TablesShowEveryCluster | controllers/metrics.go:101-176 | over every interleaving each cluster shows exactly its own last values and at most one version row, and deletion clears all four tables |
| Metrics.Gauges.UpdateKubernetesVersionMetric | controllers/metrics.go:117-135 | old version rows of the cluster go, the new one is set, no other row changes |
| Metrics.Gauges.DeleteClusterMetrics | controllers/metrics.go:162-176 | exactly the rows of the cluster go, in all four tables |
| ServiceAccountUsername.ParseExactlyInvertsFormat | controllers/sveltoscluster_controller.go:1101-1122 | a name parses to a pair if and only if it is prefix, colon-free namespace, colon and name |
| Reconciler.ReconcilePushModeCluster | controllers/sveltoscluster_controller.go:258-314 | the whole change of spec, status, labels, gauges and Secret, and the token requests: which failure is observed, how readiness, version, label, version gauge, renewal fields, writes, connection and events follow, and that an early return leaves the gauges; ready follows the latch |
| ReconcileEffects.PushWorldTold | controllers/sveltoscluster_controller.go:288-304 | ready, version, label and the one version row change exactly when the cluster answers with every check passing |
| ReconcileEffects.PushFailureTold | controllers/sveltoscluster_controller.go:263-292 | the failure in each case: no client, no version, the first failing check, or what kept a due renewal from starting |
| ReconcileEffects.PushTokensTold | controllers/sveltoscluster_controller.go:278-287 | the account, lifetime, key and tokens of a push-mode renewal, and nothing when none is tried |
| Reconciler.OneFailureObserved | controllers/sveltoscluster_controller.go:258-314 | the failure a push-mode reconcile observes is determined by what the cluster and its checks answer |
| Reconciler.HandlePullModeTokenRequestRenewal | controllers/sveltoscluster_controller.go:900-985 | one request for the named account and the effective lifetime once the endpoint is known; interval adjusted once a token is issued; kubeconfig delivered and time recorded only when it is committed |
| Reconciler.ReconcilePullModeCluster | controllers/sveltoscluster_controller.go:796-854 | the whole change of spec, status and gauges, the heartbeat row included, the token request made and the kubeconfig delivered: the agent is observed only when ready and reporting, and a report older than ten minutes is a failure |
| ReconcileEffects.PullWorldTold | controllers/sveltoscluster_controller.go:796-854 | a report older than ten minutes, else an undelivered renewal, is the failure; the heartbeat row, the interval and the recorded time in each case |
| ReconcileEffects.PullTokensTold | controllers/sveltoscluster_controller.go:900-985 | one request for the named account once the endpoint is known, one kubeconfig under its key once committed |
| Reconciler.ReconcileNormal | controllers/sveltoscluster_controller.go:231-314 | finalizer present exactly with a grace period; every machine moves by its own step; the pause fields apart, spec, status, labels and gauges move as the mode says, with its token requests and deliveries |
| Reconciler.ReconcileDelete | controllers/sveltoscluster_controller.go:205-229 | no finalizer: nothing; before the deadline: requeue, nothing changed; else metrics and finalizer removed |
| Reconciler.Reconcile | controllers/sveltoscluster_controller.go:185-199 | a live cluster: every machine moves by its own step, requeue after a minute; a deleting one: nothing but the finalizer and the gauges; requeue times and finalizer of both |
| ReconcileHistory.ReconcileIsRenewalStep | controllers/sveltoscluster_controller.go:279-286 | in either mode a reconcile is one step of a renewal run: option, recorded time, and the expiry of the token last delivered |
| ReconcileHistory.TraceIsRenewalRun | controllers/sveltoscluster_controller.go:185-199 | every sequence of whole reconciles, with edits of anything else in the spec in between, is a renewal run |
| ReconcileHistory.LastDeliveredTokenIsLive | controllers/sveltoscluster_controller.go:370-402 | over every sequence of whole reconciles the kubeconfig last delivered holds a token that has not expired, under the conditions of TokenIsAlwaysLive |
| ReconcileHistory.TraceIsPauseHistory | controllers/sveltoscluster_controller.go:231-256 | every sequence of whole reconciles moves the pause fields by one history of window edits and calls |
| ReconcileHistory.ReconcileWithoutWindow | controllers/sveltoscluster_controller.go:607-611 | a whole reconcile that finds no ActiveWindow leaves Paused and the hash alone and clears both times |
| ReconcileHistory.TracePausedMovesOnlyUnderWindow | controllers/sveltoscluster_controller.go:607-611 | over every sequence of whole reconciles, Paused moves only at one that finds an ActiveWindow |
| ReconcileHistory.ReconcilesUnpauseInWindow | controllers/sveltoscluster_controller.go:605-649 | so a reconcile that leaves the cluster unpaused comes inside a window of the ActiveWindow it finds if and only if it does not fall exactly on NextPause |
| ReconcileHistory.TraceIsConnectionRun | controllers/sveltoscluster_controller.go:316-332 | and the connection status and counter by one run of the observations made |
| ReconcileHistory.TraceConnectionTold | controllers/sveltoscluster_controller.go:316-332 | the same three statuses over every sequence of whole reconciles |
| ReconcileHistory.TraceIsReadyRun | controllers/sveltoscluster_controller.go:288-304 | every sequence of whole reconciles moves the ready flag by one run of the readiness latch |
| ReconcileHistory.ReadyExactlyAfterReadiness | controllers/sveltoscluster_controller.go:288-304 | a cluster is ready exactly when it was at the start or some push-mode reconcile reached it with every readiness check passing |
| ReconcileHistory.NoTokenBeforeFirstRenewal | controllers/sveltoscluster_controller.go:379-404 | while no renewal is recorded, no reconcile that checks before the interval, less ten minutes, has passed since creation requests or delivers a token |
| ReconcileHistory.FirstRenewalRequests | controllers/sveltoscluster_controller.go:379-404 | the first reconcile that checks later requests tokens for the account the option names, once the cluster answers or, in pull mode, the endpoint is known |
| GracePeriod.HeldExactlyBeforeDeadline | controllers/sveltoscluster_controller.go:205-229 | the finalizer is held exactly while no reconcile has come at or after the deadline |
| GracePeriod.ReleasedWithinAMinute | controllers/sveltoscluster_controller.go:217-228 | under one-minute requeues it is removed less than a minute after the deadline |

## Left out

- Kubernetes calls (get, patch, TokenRequest, SelfSubjectReview, Secret and ConfigMap reads), sharding and the patch scope: their outcomes are inputs or they come before the part modelled.
- Lua and CEL evaluation, resource listing and `isMatch`: a check is one outcome per evaluation; the list handling around it would only add easy members.
- License annotations, kubeconfig templating, JWT decoding, staging and tracking of pull-mode bundles, eviction of the workload identity cache: straight-line code or other libraries.
- Cron texts such as `@every 1h`, which the parser accepts and whose next fire depends on the instant asked: the schedules here have fires of their own, so such a text can only be unparseable.
- Cron schedules that stop firing, for which the cron library returns the zero time, and time zones: every instant is read as UTC, while the source takes CreationTimestamp as decoded when counting missed starts.
- Floating-point rounding of durations in seconds: whole-second truncation is modelled, float64 rounding is not.
- Integer width of the failure counter: unbounded here.
- The cap on the length of event notes, whose library is not part of this model.
- Finalizers are a set, not a list: order and duplicates are not captured.
- Selector text with set-based, `==` or ordering requirements is judged by an arbitrary predicate rather than parsed.
- Whole-run agreement of gauges and status: the early return of push mode updates the status without the gauges, so agreement is stated per reconcile.
- TokenLiveness.TokenIsAlwaysLive: starts at the first renewal, because the expiry of the initial token is not known to the controller.
- ReconcileHistory.TraceIsRenewalRun: the renewal option itself is not edited between the reconciles of a run; such an edit starts a new run.
