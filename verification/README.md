# ZEN Control: verified model

ZEN Control is a control plane for MikroTik RouterOS. This project models its two recovery
protocols and the algorithms around them, and proves what they promise. Every theorem is stated
over all inputs, all runs, and all ways the router, the store or the process can fail.

How the model is built:

- **Specification and code.** The behaviour is written as functions over values. The parts of the
  source that work by changing state are also written as classes and methods with the source's
  loops; their contracts equate the new state with the function, and the lemmas are about the
  function. The classes are `Controller`, `RewardService`, `ParentSession`, `AuthManager` and
  `IncidentMonitor`.
- **Unreliable calls.** In the two sagas every router, store or read call takes one outcome from a
  `Script`: the reply the caller saw (`Ok`, a caught `Error`, or a `Crash`) and, separately, what
  the call did. A lost reply is an `Error` whose effect took place. A crash can stand at any call,
  so "for every script" means "for every intermediate state".
- **Parameters.** HOTP is an arbitrary function of secret and counter. Random codes, clocks, probe
  results and reader outcomes are parameters. Instants are integers, or reals for session deadlines.

| file | part of the system |
|---|---|
| `AuthorityTransfer*.dfy` | Kid Control cutover and rollback: a saga with durable evidence; its exact limits in `AuthorityTransferLimits.dfy`, `AuthorityTransferRecovery.dfy` and `AuthorityTransferResidue.dfy` |
| `Reward*.dfy` | reward redemption: reserve, grant, complete, refund, defer, recover; its exact limits in `RewardLimits.dfy` |
| `PolicyTimeline.dfy`, `PolicyReport.dfy` | policy intervals and the correlation report |
| `PolicyPlan.dfy`, `Bandwidth.dfy` | the device planner and the rate codec |
| `KidControlClock.dfy`, `KidControlSchedule.dfy` | the schedule compiler and its resolver |
| `SharedDisplay*.dfy`, `ParentThrottle.dfy` | the parent window of a shared display, and the failure throttle |
| `ParentAuth*.dfy` | TOTP replay protection, recovery codes, account settings |
| `BypassScore.dfy` | bounded bypass scoring |
| `LatencyStats.dfy`, `LatencyGate.dfy` | percentiles and the responsiveness gate |
| `ParallelObservation.dfy` | bounded fan-out under every interleaving |
| `IncidentScan*.dfy` | incident scans and auto-resolution; `IncidentScanLog.dfy` for a recorder that may raise |
| `ActivePeriods.dfy` | activity sessionisation |
| `Text.dfy`, `Common.dfy` | string helpers, and what several modules share |

## Where the code falls short of what it is said to do

For each point the lemmas that show it come first, then those that say exactly when the promise
does hold.

1. **A rollback that succeeds can leave the router changed.**
   - *The mode of a device that was not restricted before.* The comment at app/main.py:7035-7039 calls
     removing its row the complete restoration. But the transfer wrote its mode, and the drop rule
     looks at the mode entry alone (app/router.py:354): a device set to BLOCKED stays cut off after a
     cutover and a rollback in which no call failed, and no row is left through which the panel could
     change it. Shown by `ModeIsLeftBehind`, in general by `UndisturbedTransfer`, `NoRollbackChangesMode`
     and `ModeOutlivesRollback`.
   - *A row at an address that was not staged.* The policy fingerprint leaves addresses out, so a cutover
     may adopt a device at an address the staged payload does not name; a crash, or a lost reply, between
     adding its row and recording it leaves a marked row that no rollback removes. Shown by
     `ChangedAddressIsLeftBehind`, in general by `CrashLeavesRow`.
   - *A marked row left behind by an earlier transfer* goes, if the staged payload names its address
     (`CrashTakesLeftover`).

   Exactly: `UndoneCompletelyIff`.
2. **Some transfers can never be finished.** A device found in the inconsistent mode is recorded and
   accepted, but the adapter refuses to set that mode. A device standing in a marked row left behind by
   an earlier transfer loses that row in the first attempt; if the attempt then fails, the remembered mode
   can no longer be set. Shown by `InvalidModeIsAccepted`, `InvalidModeIsFinal` and `LeftoverRowBlocks`,
   in general by `UnsettledCanBlock` and `LeftoverCanBlock`; exactly, read off the record:
   `NeverRolledBackIff`, read off the start of the transfer: `EveryTransferCanBeFinishedIff`.
3. **Restoration goes on after a failed re-enable.** Two lost calls leave a device with its legacy
   profile disabled, its row removed and the mode the transfer gave it: unrestricted with NORMAL, and
   blocked with no owner with BLOCKED. Shown by `NobodyInCharge`; exactly, for the profiles:
   `AuthorityRemainsExactlyIf`, read off the router before the restoration and the outcomes of its
   re-enable calls.
4. **A used reward can be refunded.** Reading temporary access deletes an expired record, so the only
   evidence of a grant can be destroyed before the grant is settled: by a page view, by a second
   redemption, by an operator, and by recovery itself when it stops between its read and its commit.
   Shown by `UsedGrantIsRefunded` and `InterruptedRecoveryRefunds`; exactly, for each operation:
   `LookKeepsIff`, `RedeemKeepsIff`, `RecoveryKeepsIff`, `OperatorKeepsIff`, and for the refund itself
   `LookDecidesRefund`, `SecondRedemptionDecidesRefund`, `InterruptedRecoveryDecidesRefund`. Also, when
   the mode write of a grant takes effect and its reply is lost, the scheduler is removed and the
   minutes are refunded while NORMAL is in force with nothing to end it: shown by `RefundedWhileOpen`;
   exactly: `RefundLeavesOpenIff`.
5. **Overlapping or touching windows are not refused, and are translated wrongly.** The comment at
   app/kid_control_migration.py:258-259 claims equivalence. Shown by `ClashIsVisible`; exactly:
   `TranslationIsExact`, if and only if no window ends inside another of its day or where another
   starts. Also, `HH:MM:SS` drops its seconds (`ColonSecondsAreDropped`) while `1h2m3s` is refused
   (`UnitSecondsAreRefused`, which says when the unit form is accepted).
6. **A failure while recording makes the scan clear incidents it has just seen.** The source already
   counts as scanned, and its signals after the failing one (with it, if its texts could not be built)
   are not marked. Shown by `LaterSignalsAreLost` and `RaisingRecorderClears`; exactly, wherever
   recording fails: `ClearedIff`.

## Model

| member | source | states |
|---|---|---|
| AuthorityTransferRuns.EveryTransferIsUndone | app/main.py:7082-7297 | After a cutover with any crash or error and any number of interrupted rollbacks, a rollback that answers Ok leaves legacy profiles, rows and the mode of every address as before, except: a marked row may remain at a device neither staged nor restricted, a leftover row the transfer names may go, and a device not restricted before may keep another mode. |
| AuthorityTransferRecovery.EveryTransferCanBeFinishedIff | app/main.py:7082-7297 | For every crash and error of a cutover and any interrupted attempts a rollback whose calls are answered completes, if and only if every device already restricted stood in an operator row and a real mode. |
| AuthorityTransferRecovery.UnsettledCanBlock | app/main.py:7082-7297 | With any other start some crash and at most one attempt leave a transfer that no attempts ever finish. |
| AuthorityTransferRecovery.LeftoverCanBlock | app/router.py:3620-3642 | A device in a row left behind by an earlier transfer: a rollback would have completed, one attempt whose replies are lost removes the row, and then none ever completes. |
| AuthorityTransferRecovery.LeftoverRowBlocks | app/main.py:7024-7077 | Concrete case of that. |
| AuthorityTransferRuns.EveryHistoryIsEvidenced | app/main.py:7082-7297 | Over any history of transfers and rollbacks the durable record of an open transfer accounts for every difference from its start, and with none open the start is back, up to what EveryTransferIsUndone excepts. It does not say that any attempt finishes; EveryTransferCanBeFinishedIff does. |
| AuthorityTransferRuns.AttemptsAreContained | app/main.py:7243-7297 | Any number of rollback attempts, each stopped anywhere, keeps every difference accounted for by the durable record, or finishes with the start restored up to the same exceptions. |
| AuthorityTransferRuns.UndisturbedRollback | app/main.py:7259-7291 | A rollback whose calls all succeed completes if and only if the recorded profiles are still addressable and every earlier mode is one the adapter can set. |
| AuthorityTransferLimits.NeverRolledBackIff | app/main.py:7243-7297 | No sequence of attempts, however their calls turn out, ever finishes a recovery if and only if a recorded profile is no longer addressable or an earlier mode is one the adapter cannot set. |
| AuthorityTransferLimits.InvalidModeIsFinal | app/main.py:7132-7297 | A cutover that succeeds on a device found in the inconsistent mode can never be rolled back, by any attempts. |
| AuthorityTransferLimits.InvalidModeIsAccepted | app/main.py:7132-7151 | Concrete case: the forward path accepts such a device and completes. |
| AuthorityTransferRuns.LegacyComesBackFirst | app/main.py:7024-7060 | When no re-enable call fails, no membership or mode of ZEN is undone before all recorded legacy profiles are proven enabled, at every crash point. |
| AuthorityTransferLimits.AuthorityRemainsExactlyIf | app/main.py:7024-7077 | After any restoration every recorded profile is proven enabled if and only if each was identified on the router before it and was enabled already or is the target of a re-enable call that is reached and takes effect; ZEN's membership is gone in either case once the later calls are answered. |
| AuthorityTransferLimits.NobodyInCharge | app/main.py:7208-7229 | Concrete case, for each mode: two lost calls leave a device with its legacy profile disabled, its row gone and the mode the transfer gave it. |
| AuthorityTransferRuns.RolledBackIsProven | app/main.py:7004-7022 | A rolled-back record is written only with the recorded profiles present once, id-matched and enabled. |
| AuthorityTransferResidue.UndoneCompletelyIff | app/main.py:7082-7297 | A transfer is undone completely, profiles, rows and the mode of every address, for every crash, error and interrupted attempt, if and only if every device already restricted stands in an operator row and a real mode, every other device is staged and already in the mode it is to get, and the staged payload names no leftover row. |
| AuthorityTransferResidue.NoRollbackChangesMode | app/main.py:7035-7051 | Neither the failure handler nor any rollback attempt changes the mode of a device that was not restricted before the transfer. |
| AuthorityTransferResidue.ModeOutlivesRollback | app/main.py:7153-7177 | Once every device is reconciled such a device keeps the mode its policy asked for, whatever happens later. |
| AuthorityTransferResidue.UndisturbedTransfer | app/main.py:7082-7297 | From a start in which completing is certain, every device is staged or restricted and no leftover row is named, a cutover and a rollback in which no call fails restore profiles and rows, and leave every device not restricted before in the mode its policy asked for. |
| AuthorityTransferResidue.ModeIsLeftBehind | app/main.py:7035-7051 | Concrete case, for each mode. |
| AuthorityTransferResidue.CrashLeavesRow | app/main.py:7132-7151 | For the first device neither staged nor restricted some crash leaves its row, and a rollback that completes does not remove it. |
| AuthorityTransferResidue.CrashTakesLeftover | app/main.py:7052-7066 | A crash at the first record and a completed rollback take away a leftover row that the staged payload names. |
| AuthorityTransferResidue.ChangedAddressIsLeftBehind | app/kid_control_migration.py:135-154 | Concrete case: staged at one address and re-read at another; after a crash and a rollback that answers Ok the second is still restricted. |
| AuthorityTransferProofs.ForwardCovers | app/main.py:7101-7207 | In every state of the forward path a legacy profile is disabled only with full evidence durable, every device at its desired mode and each reconciliation recorded, and so is success; the durable evidence accounts for every change of the router, up to the same exceptions. |
| AuthorityTransferProofs.CutoverIsContained | app/main.py:7082-7229 | Whatever happens during a cutover, either nothing was recorded and the router is as before, or the durable record accounts for every difference, modes of all addresses included, up to the same exceptions. |
| AuthorityTransferProofs.RefusedCutoverWritesNothing | app/kid_control_cutover.py:75-127 | A cutover that the readiness gate refuses changes neither router nor record. |
| AuthorityTransferProofs.RestoreKeepsCover | app/main.py:7024-7077 | A restoration stopped anywhere stays within what the durable evidence accounts for. |
| AuthorityTransferProofs.RestoreRestores | app/main.py:7024-7077 | A restoration without a reported error has put back profiles and rows, and the mode of every address except devices the transfer restricted and gave another mode. |
| AuthorityTransferProofs.RollbackIsContained | app/main.py:7257-7291 | One rollback attempt either restores the start up to the same exceptions and records it, or changes no record and leaves every difference accounted for; Ok only in the first case, including the replay-free path after a clean failure. |
| AuthorityTransferRoute.Controller.CutoverRoute | app/main.py:7082-7229 | The route's own steps and loops refine the cutover function, failure handler included. |
| AuthorityTransferRoute.Controller.RollbackRoute | app/main.py:7243-7297 | The rollback route's steps refine the rollback function. |
| AuthorityTransferRoute.Controller.RestoreFailedTransfer | app/main.py:7024-7077 | The restore helper refines the restore function: reverse order, errors collected, proof last. |
| AuthorityTransferRoute.Controller.VerifyLegacyProfilesActive | app/main.py:7004-7022 | Refines the proof that each profile is present once, id-matched and enabled. |
| AuthorityTransferRoute.Controller.AdoptAll | app/main.py:7132-7151 | The adoption loop records each prepared row and earlier mode durably, device by device. |
| AuthorityTransferRoute.Controller.ReconcileAll | app/main.py:7153-7177 | The reconcile loop refuses to go on unless each re-plan shows the desired mode. |
| AuthorityTransferRoute.Controller.DisableAll | app/main.py:7183-7198 | The disabling loop stops at the first refusal. |
| RewardRedemptionProofs.RedeemConserves | app/main.py:7553-7689 | For every outcome of every call, balance plus reserved plus completed minutes of each device is unchanged by a redemption. |
| RewardRedemptionProofs.RecoverAllConserves | app/reward_recovery.py:20-92 | The same for recovery of any pending rows. |
| RewardHistories.HistoryConserves | app/main.py:7553-7689 | Over any history the sum changes by operator adjustments only. |
| RewardHistories.RedeemRefundsOnlyNonGrants | app/main.py:7587-7689 | Within its request a reservation is refunded only if access was never bound to it and no scheduler is live; a bound grant is reserved or applied; earlier rows are untouched. |
| RewardLimits.RefundLeavesOpenIff | app/router.py:2587-2611 | Such a refund leaves the device in NORMAL exactly when the mode write of its grant took effect with its reply lost (or an earlier grant did so). |
| RewardLimits.RefundedWhileOpen | app/router.py:2587-2611 | Concrete case: the minutes are back and NORMAL is in force with nothing to end it. |
| RewardHistories.RecoveryDecides | app/reward_recovery.py:20-92 | An answered recovery settles each selected row by the router alone: applied with its evidence, kept while other access is active, refunded otherwise. |
| RewardHistories.CarefulHistoriesKeepGrants | app/main.py:7553-7689 | In every history of operations none of which can consume the last evidence of a pending grant, no bound grant is ever refunded; the next four rows show that the condition on each operation is exact. |
| RewardLimits.LookKeepsIff | app/router.py:2348-2462 | A read keeps every bound grant, however it ends, if and only if it does not read an expired record of a pending grant. |
| RewardLimits.RedeemKeepsIff | app/main.py:7553-7689 | A redemption does, for every outcome of its calls, if and only if its device has no such record or the router is not in the mode in which it reads it. |
| RewardLimits.RecoveryKeepsIff | app/reward_recovery.py:20-92 | A recovery does, wherever it stops, if and only if no row it would settle has such a record. |
| RewardLimits.OperatorKeepsIff | app/router.py:2463-2720 | Unrelated access does if and only if no such record is replaced; ending access does if and only if it ends no witness of a pending grant. |
| RewardLimits.InterruptedRecoveryDecidesRefund | app/reward_recovery.py:20-92 | Some interruption of a recovery makes the next one refund a used grant if and only if its access has already run out. |
| RewardLimits.InterruptedRecoveryRefunds | app/reward_recovery.py:39-90 | Concrete history without any page view in which a used grant is refunded. |
| RewardLimits.LookDecidesRefund | app/router.py:2348-2462 | A read before recovery turns a used grant into a refund if and only if its access has already run out. |
| RewardLimits.SecondRedemptionDecidesRefund | app/main.py:7568-7583 | A refused second redemption does the same, under the same condition. |
| RewardLimits.UsedGrantIsRefunded | app/router.py:2348-2462 | Concrete history in which a used grant is refunded. |
| RewardRoute.RewardService.RedeemRoute | app/main.py:7553-7689 | The route with its flags and nested handlers refines the redemption function. |
| RewardRoute.RewardService.RecoverPending | app/reward_recovery.py:20-92 | The recovery loop refines the recovery function. |
| RewardRoute.RewardService.ListPending | app/policy_store.py:8579-8600 | The pending list is exactly the reserved rows asked for, in durable order. |
| PolicyTimeline.TimelineIsPointwise | app/policy_history.py:50-151 | Intervals are non-empty and contiguous, cover exactly the range, and at every instant carry identity_unproven before the identity start, else the last checkpoint by (time, id) at or before it, or policy_unobserved if there is none. |
| PolicyTimeline.BuildIntervals | app/policy_history.py:50-151 | The cursor loop computes that timeline; an empty range is refused. |
| PolicyTimeline.SortKeepsRule | app/policy_history.py:67-70 | Sorting the history never changes which checkpoint governs an instant. |
| PolicyTimeline.SortSorts | app/policy_history.py:67-70 | The sort is ordered by (time, id) and keeps every row. |
| PolicyReport.BuildReport | app/policy_history.py:216-391 | The report's bytes split exactly by identity and by mode bucket, its times are the known and the identity-proven instants of the range, state changes are hash changes between neighbours, and no interval carries another identity's policy. |
| PolicyReport.TallyConserves | app/policy_history.py:241-299 | Mode bytes sum to total bytes, which are current-identity plus unproven bytes; known time is at most identity-known time. |
| PolicyReport.BucketsAreExact | app/policy_history.py:282-297 | Each bucket holds the bytes of exactly the intervals whose policy falls in it. |
| PolicyReport.TimesAreExact | app/policy_history.py:273-283 | Known time counts the instants with a known checkpoint; identity-known time is the part of the range at or after the identity start. |
| PolicyReport.ChangesAreNeighbours | app/policy_history.py:288-291 | Comparing with the last hash seen is comparing neighbouring intervals, because gaps come only first. |
| PolicyReport.NoForeignPolicy | app/policy_history.py:232-247 | With an identity, no interval shows a checkpoint recorded for another one. |
| PolicyReport.SourceStatusIgnoresOrder | app/policy_history.py:154-169 | A source's aggregate status depends only on which statuses occur. |
| PolicyReport.MeasuredNeedsEverySource | app/policy_history.py:154-184 | Telemetry reads as measured only if nothing was unavailable or inconsistent and something was measured. |
| PolicyPlan.BuildPlan | app/policy_engine.py:12-366 | A plan describes exactly the drift between desired and live state, as mode, service and queue actions; refusals are exactly the invalid policies; temporary access yields no action. |
| PolicyPlan.PlanServices | app/policy_engine.py:136-164 | The catalogue loop finds exactly the services that drift, the blocked ones that are unavailable, and one change for each drift. |
| PolicyPlan.ApplyingConverges | app/policy_engine.py:99-286 | After applying the actions in any order, planning again finds no mode, service or bandwidth drift and nothing to do. |
| PolicyPlan.ApplyingIsOrderFree | app/policy_engine.py:136-286 | Applying the actions of a plan in any order gives one state, and services that did not drift are untouched. |
| PolicyPlan.OrderDoesNotMatter | app/policy_engine.py:220-286 | Any order of the actions, repetitions included, reaches the same state. |
| PolicyPlan.ApplyAllReaches | app/policy_engine.py:220-286 | What each part of the state is after applying a list of actions. |
| Bandwidth.NormalizeKeepsRate | app/bandwidth.py:22-58 | Normalising keeps the rate, refuses exactly what parsing refuses, and is idempotent. |
| Bandwidth.NormalizeIsCanonical | app/bandwidth.py:49-58 | Two labels normalise to one text if and only if they denote one rate. |
| Bandwidth.ParseLabel | app/bandwidth.py:22-58 | The printed label of a rate parses back to it. |
| Bandwidth.ParseBuiltLimit | app/bandwidth.py:61-73 | A built limit parses to the pair of rates it was built from. |
| Bandwidth.LimitsEqualDecides | app/bandwidth.py:76-82 | On built limits the comparison holds if and only if both rates agree. |
| KidControlClock.TextOrderIsMinuteOrder | app/kid_control_migration.py:82-88 | Comparing zero-padded clock texts is comparing minutes of the day, equality included. |
| KidControlClock.ClockIsCanonical | app/kid_control_migration.py:49-66 | A stored clock text reads back as itself. |
| KidControlClock.SpacesAreIgnored | app/kid_control_migration.py:50 | Spaces around any text make no difference, whether it is read or refused. |
| KidControlClock.ColonSecondsAreDropped | app/kid_control_migration.py:51-53 | The colon form with seconds reads as the whole minute. |
| KidControlClock.UnitSecondsAreRefused | app/kid_control_migration.py:54-66 | The unit form is refused with non-zero seconds and reads as hour and minute without. |
| KidControlClock.WindowsReadBack | app/kid_control_migration.py:69-91 | Every list of windows survives being written as a day text and parsed. |
| KidControlClock.DayWindows | app/kid_control_migration.py:69-91 | The parsing loop: the first unreadable part refuses the whole day. |
| KidControlSchedule.TranslateProfile | app/kid_control_migration.py:209-228 | The schedule means exactly the opening and closing edges the readable days ask for, one event per (time, mode) in clock order with days in week order; unreadable days are exactly those reported. |
| KidControlSchedule.TranslationIsExact | app/kid_control_migration.py:255-269 | At every minute the resolver answers NORMAL inside the legacy windows and BLOCKED outside, never ambiguously, if and only if on no day a window ends inside another or where another starts. |
| KidControlSchedule.ClashIsVisible | app/policy_store.py:5569-5592 | At a clash an allowed minute is not NORMAL, and where windows touch the resolver refuses to answer. |
| KidControlSchedule.PastHas | app/policy_store.py:5594-5657 | The resolver hears exactly the edges of the last eight days that have passed. |
| KidControlSchedule.SortKeepsMeaning | app/kid_control_migration.py:225-228 | Sorting slots and tidying days neither loses nor adds an event. |
| SharedDisplay.RunIsBounded | app/auth.py:80-121 | Over any run of logins, unlocks, extensions, step-ups, settings changes, locks, restarts and clock advances, the deadline is at most one window plus 90 seconds ahead and open time is covered by authentications that succeeded. |
| SharedDisplay.UnlockedTimeIsPaidFor | app/main.py:2212-2435 | From a fresh browser total open time is at most 60 M seconds for each authentication that opened or extended the display. |
| SharedDisplay.ClosedUntilProven | app/main.py:2420-2435 | A lock or a restart closes the display, and it stays closed with no open time added until the next success. |
| SharedDisplay.ExtensionsDoNotStack | app/auth.py:80-121 | An extension adds exactly one window to the old deadline and cannot be repeated at once. |
| SharedDisplayRoute.ParentSession.UnlockRoute | app/main.py:2298-2343 | The route with throttle and code check refines the model's unlock. |
| SharedDisplayRoute.ParentSession.ExtendRoute | app/main.py:2346-2417 | The route's refusals in order; a success happens only in the last 90 seconds of an open window. |
| SharedDisplayRoute.ParentSession.LockRoute | app/main.py:2420-2435 | Relocks the session, so a shared display is locked afterwards. |
| SharedDisplayRoute.ParentSession.LoginRoute | app/main.py:2212-2284 | A login clears the old session and opens a shared display for one window. |
| SharedDisplayRoute.ParentSession.MarkFreshAuth | app/main.py:467-474 | Field by field, the freshness and privilege marks of one success. |
| SharedDisplayRoute.ParentSession.VerifyStepUp | app/main.py:485-515 | A recent success suffices; otherwise a code if an authenticator is active, else the password, under the throttle; only a code opens the display. |
| SharedDisplayRoute.ParentSession.CheckCode | app/main.py:493-515 | One key's failure record is blocked, counted or forgotten; other keys keep theirs. |
| ParentThrottle.GuessesAreLimited | app/main.py:2222-2257 | Without a success one key lets five codes be checked at once and afterwards at most one a minute. |
| ParentThrottle.GuessesAreLimitedTogether | app/main.py:2222-2257 | All keys together, one for each route, address and user, let through at most as many times that as there are keys. |
| ParentAuthProofs.NoReplay | app/auth.py:332-353 | Over any history the counters accepted for one authenticator strictly increase, enrollment included, and between t0 and t1 there are at most t1//30 - t0//30 + 3. |
| ParentAuthProofs.CountersRise | app/auth.py:494-523 | The same from any valid account, with every accepted counter stored. |
| ParentAuthProofs.AcceptanceIsNew | app/auth.py:343-352 | An accepted counter lies within one step of the clock and above everything the device had reached. |
| ParentAuthProofs.ReachableIsGuarded | app/auth.py:242-281 | In every reachable account OTP login or shared display being on implies an active authenticator. |
| ParentAuthProofs.OtpOnlyBudget | app/auth.py:260-266 | OTP-only login starts with a recovery code, keeps an authenticator as long as it lasts, and is left without a code exactly after as many successes as there were codes when it was switched on. |
| ParentAuthProofs.CodesRunOut | app/auth.py:591-618 | From any account some code checks alone use up every recovery code and leave the login mode and the authenticators as they are, OTP-only login included. |
| ParentAuthProofs.RecoveryBudget | app/auth.py:591-618 | Between renewals no recovery code succeeds twice and each success uses up exactly one. |
| ParentAuthProofs.TenSingleUses | app/auth.py:577-618 | After a regeneration ten minus the successes since remain. |
| ParentAuthProofs.RecoveryAcceptedIff | app/auth.py:591-627 | Exactly the unused codes of at least ten letters and digits are accepted, however punctuated. |
| ParentAuthRoute.VerifySecretCode | app/auth.py:333-353 | The window loop finds the first unused counter that produces the code, and finds one whenever there is one. |
| ParentAuthRoute.AuthManager.VerifyTotpCode | app/auth.py:494-523 | The device loop stops at the first match or the first secret that cannot be decrypted. |
| ParentAuthRoute.AuthManager.VerifyOtpOrRecovery | app/auth.py:620-626 | Six digits go to the authenticators, anything else to the recovery codes. |
| ParentAuthRoute.AuthManager.SaveAccountSettings | app/auth.py:242-281 | Refusals in order; the account invariant is kept. |
| ParentAuthRoute.AuthManager.ConfirmEnrollment | app/auth.py:429-462 | A confirmed enrollment adds a device at the accepted counter and fills empty recovery codes. |
| ParentAuthRoute.AuthManager.RevokeTotpDevice | app/auth.py:525-543 | The last authenticator cannot be revoked while something depends on it. |
| ParentAuthRoute.AuthManager.RegenerateRecoveryCodes | app/auth.py:577-589 | All codes are replaced, or none when two coincide. |
| BypassScore.Summarize | app/bypass.py:315-377 | The accumulating loops over dicts compute the device and overall scores. |
| BypassScore.OrderDoesNotMatter | app/bypass.py:315-377 | Scores do not depend on the order of the evidence. |
| BypassScore.AddedRowNeverLowersDevice | app/bypass.py:327-358 | A row more never lowers a device score. |
| BypassScore.AddedRowNeverLowersOverall | app/bypass.py:362-365 | Nor the overall score, nor its status. |
| BypassScore.RepetitionIsBounded | app/bypass.py:315-365 | Repeating existing rows any number of times adds at most 10 to a device and 15 overall. |
| BypassScore.GlobalIsGreatest | app/bypass.py:350-353 | Every (device, key) keeps the greatest weight seen, and that weight was seen. |
| LatencyStats.StatsAreOrdered | app/performance.py:239-272 | min, p50, p95, p99 and max are in order for every sample set, rounding included. |
| LatencyStats.StatsIgnoreOrder | app/performance.py:239-272 | The statistics do not depend on sample order. |
| LatencyStats.PercentilesAreOrdered | app/performance.py:239-250 | A larger percentage never gives a smaller rounded percentile. |
| LatencyStats.WithinBudgetCount | app/performance.py:239-250 | A percentile within budget puts at least floor(p(n-1)/100) + 1 of n samples within budget. |
| LatencyGate.PassingRow | app/performance.py:379-396 | A class passes exactly with enough samples, all valid, and p95 within budget; then at least floor(95(n-1)/100) + 1 are within budget. |
| LatencyGate.PassingConnections | app/performance.py:414-437 | The connection rule passes exactly with enough valid router requests, each with one connection. |
| LatencyGate.PassingGate | app/performance.py:460-461 | The gate passes exactly when all four classes and the connection rule pass. |
| LatencyGate.AcceptanceReport | app/performance.py:317-461 | The sorting loop puts every sample in its class and computes that report. |
| ParallelObservation.EveryInterleavingAgrees | app/parallel_observation.py:61-112 | Every complete interleaving of the workers gives the sequential loop's results, errors and order, at most the allowed number active at once and none at the end. |
| ParallelObservation.TraceKeeps | app/parallel_observation.py:62-101 | In every reachable state the active count is the number of running readers, the maximum stays within the workers, and records are exactly the collected items. |
| ParallelObservation.CompletionIsCounted | app/parallel_observation.py:86-101 | An interleaving is complete exactly after five steps an item and never longer. |
| ParallelObservation.SomeoneCanMove | app/parallel_observation.py:86-101 | While anything is uncollected some thread can move. |
| ParallelObservation.KeysArePartitioned | app/parallel_observation.py:103-112 | Every key is reported exactly once, as a result or as an error. |
| ParallelObservation.FirstBadIff | app/parallel_observation.py:48-59 | A batch is accepted exactly if its stripped keys are non-empty and distinct. |
| ParallelObservation.CheckKeys | app/parallel_observation.py:48-59 | The key loop stops at the first bad key. |
| ParallelObservation.ReadInOrder | app/parallel_observation.py:79-85 | The single-worker loop computes the same answer. |
| ParallelObservation.Observe | app/parallel_observation.py:26-123 | The whole call: refusal independent of any reader outcome, otherwise the sequential answer with at most eight workers. |
| IncidentScanLog.ClearedIff | app/incidents.py:150-442 | Wherever recording fails, an open incident is auto-resolved if and only if the scan goes on, its source was scanned, and no call wrote it or marked it for its own source, where a failing call is the last of its source. |
| IncidentScanLog.ResolvedIff | app/policy_store.py:4572-4607 | The same for any observation, however its texts are spaced or cut: the source is the one the row has after the scan. |
| IncidentScanLog.ProbeLogs | app/incidents.py:161-425 | For any recorder, the probing half leaves the table as its log of recorder calls writes it, marks exactly the logged fingerprints, and scans the sources that answered, telemetry only if every bypass signal was recorded. |
| IncidentScanLog.HeardUpToFailure | app/incidents.py:119-147 | The signals of one source that are recorded or tried are those up to and including the first that fails. |
| IncidentScanProofs.ClearedExactlyWhen | app/incidents.py:150-442 | With a working recorder, an open incident is auto-resolved if and only if its source's probe answered and the scan did not raise it. |
| IncidentScanProofs.PlainIsStored | app/policy_store.py:4317-4319 | The table keeps every fingerprint and source unchanged when addresses and service keys are short and end in no space. |
| IncidentScanProofs.ProbeTracks | app/incidents.py:161-425 | With a working recorder the probing half marks exactly the sources that answered and the fingerprints raised, and changes only raised rows. |
| IncidentScanProofs.OutageClearsNothing | app/incidents.py:288-343 | A failed telemetry probe leaves every bypass incident exactly as it is, even if the recorder or any other probe fails. |
| IncidentScanProofs.LongOutageClearsNothing | app/incidents.py:288-343 | The same over any number of scans. |
| IncidentScanProofs.RaisedSurvivesIff | app/policy_store.py:4572-4607 | A signal just recorded survives its source's resolution exactly if the table keeps its fingerprint unchanged or the kept form is raised too. |
| IncidentScanProofs.LaterSignalsAreLost | app/incidents.py:119-147 | A recorder that raises keeps the signals up to that one active and loses the rest; a signal whose texts cannot be built is lost too. |
| IncidentScanProofs.RaisingRecorderClears | app/incidents.py:175-213 | A recorder raising once makes a scan clear an incident whose signal it saw. |
| IncidentScanRoute.IncidentMonitor.RunCycle | app/incidents.py:150-442 | The cycle's loops refine the scan function, for any order of the scanned sources. |
| ActivePeriods.GroupsAreSplit | app/activity.py:1704-1722 | The groups concatenate back to the buckets and break exactly where the gap is exceeded. |
| ActivePeriods.SplitIsUnique | app/activity.py:1704-1722 | No other grouping satisfies that rule. |
| ActivePeriods.PeriodsOfBuckets | app/activity.py:1693-1731 | On ordered buckets the periods are disjoint and conserve bytes and flows. |
| ActivePeriods.ActivePeriods | app/activity.py:1693-1731 | The loop returns the last `limit` periods in reverse, as Python slices them. |

## Left out

- AuthorityTransferRecovery.EveryTransferCanBeFinishedIff: the profiles of the plan are unique and identified on the router, as the readiness context reads them; a closed gate writes nothing (RefusedCutoverWritesNothing).
- AuthorityTransferResidue.UndoneCompletelyIff: the same.
- RewardHistories.CarefulHistoriesKeepGrants: assumes that no operation can consume the last evidence of a pending grant; each such assumption is exact by LookKeepsIff, RedeemKeepsIff, RecoveryKeepsIff and OperatorKeepsIff.
- IncidentScanProofs.ClearedExactlyWhen: assumes a working recorder, and addresses and service keys as lease addresses and normalize_service_quotas (app/quota.py:42-58) leave them; ClearedIff and ResolvedIff drop the one and the other.
- IncidentScanProofs.ProbeTracks: the same two assumptions; ProbeLogs has neither.
- LatencyStats.WithinBudgetCount: samples are whole microseconds, because the collector rounds durations to three decimals of a millisecond; budgets are arbitrary reals.
- Contents of the local policy store during a transfer: materialising and undoing them is one call whose outcome is arbitrary; a crash before the first prepared record can leave local rows that are not modelled.
- Router details of the transfer: bandwidth and service state of devices that existed before (the code restores their mode only), and duplicate static rows, which count as refused calls.
- Interference from outside between recovery attempts, and concurrent requests on one session or on the failure table.
- The readiness builder's individual checks and the static-lease lookup (app/kid_control_cutover.py:45-232): only the verdict enters the saga; each check is one conjunct.
- Staging and discarding a migration, profile and device listing, identity evidence and the hash itself: lists and labels around the compiler.
- Time zones, daylight saving and ISO text: instants are integers, and the schedule resolver reads local minutes.
- Number details: rates are exact rationals without the 28-digit Decimal context, coverage percentages and their rounding are omitted, floating-point error in percentile ranks is not modelled.
- Unicode: digits, case and whitespace are ASCII.
- Planner labels, reasons, trimming of inputs and the order of unsupported keys; the report's names, notes and collection status; incident titles, severities, retention and notifications; display order of bypass devices.
- HOTP internals (HMAC, truncation), encryption, random code generation and QR codes: HOTP is an arbitrary function, an unreadable secret is a parameter, and secrets of pending enrollments are readable.
- Authenticator names, the length of tokens and the expiry clean-up of other users' enrollments.
- Schedule resolution for services and for targets other than one profile.
- The disabled and busy answers of an incident scan, which change nothing, and a fault of a scan that falls on no signal, which is one more error.
- The mode of a device during a reward: only that a grant left it in NORMAL without a scheduler is recorded; the reconciler or an operator may write it again later.
- Requests limits of rewards beyond enabled, allowed minutes and maximum, and deletion of a reward account.
- HTTP routing, templates, CSRF, roles, audit text, delivery of mail and push messages, SQL and RouterOS transport.
