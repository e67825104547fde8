# Runstead account protection: a Dafny model

Runstead is an agent runtime that shares one provider account between tasks. Its account governor decides
who may call the provider and when; everything else in the repository that can reach the provider goes
through it. This project models the governor, the protocol around it, and four algorithmic cores of the
runtime, and proves what they guarantee over whole runs.

## How it is built

* `Clock`, `Policy`, `AttemptReceipts`, `Retention`, `Ledger` hold the vocabulary and the parts of the governor
  that stand on their own: receipt validation, bounded retention, the rolling ledger.
* `Lane` states every locked section of the governor as a function on its protection state. `Governor` holds the
  objects (`Governor`, `Permit`, `RefreshPermit`) whose methods update that state in place, each proved to move it
  exactly as `Lane` says.
* `Runs` is the run: a world (the governor, every permit ever granted, a clock that never goes back) and a label per
  locked section with all it takes from outside; the budget snapshot an event takes is a label of its own. A run is
  any sequence of enabled labels, so any interleaving of any number of callers. `Evictions` says which cap evictions
  a run may make. The theorem modules quantify over all runs: `SingleLane`, `RequestIds`, `SequenceNumbers`,
  `LedgerOrder` with `RetryInstants`, `RateLimits` with `AmplifiedCall`, `RateThreshold` with `RefreshRace` and
  `RateReceipts`, `BudgetRuns` with `ForgottenBudget` and `TaskSight`, `Genuine`, `ReceiptConservation` and
  `Settlement`, `ReceiptRuns`, `NoDoubleDebit`, `Cooldown`, `Halts`, `Refreshes`, `Allowance`, `Admissions`,
  `FairTurns`, `Fairness` with `CancelledTurns`, `DeliverySafety` with `AmbiguousRetry`.
* Restarts: `Persistence` compares a restored governor with the original over whole runs, `RestartTurns` and
  `RestoredIds` say what a restart does show, `Restarts` carries the limits through any number of restarts.
* `Executor` is the agent's retry loop and the loop above it, running on the governor's objects; `RequestNames` are
  the ids it asks under.
* Crashes: `CrashRecovery` is the durable store and its recovery pass. `CrashRuns` is the attempt protocol over the
  governor and the store, as a state machine that may crash between any two steps; `Bookkeeping` is its abstraction
  to rows and debits, which `CrashRuns` is proved to keep. `CrashWitnesses` are concrete histories and
  `CrashEvictions` their evictions.
* `ContextRender`, `OperationalProfile`, `Envelope` and `FailureStreak` are the renderer, the profile's rule
  engine, the envelope scanner and the two failure counters.

Where the source depends on something outside it, the model takes it as an argument: clock readings, the jitter
drawn, telemetry snapshots, cancelled contexts, call outcomes, and which of several equally old entries a cap
evicts (the source lets map iteration decide).

## What turned out false, and when it holds

* A credential refresh begun before an acknowledgement and succeeding after it closes the circuit whatever it says
  then (`internal/governor/permit.go:36-55`, `internal/governor/circuit.go:106-117`).
  `RefreshRace.LateRefreshReopensTheLane` gives a run in which the lane reopens with the threshold of rate
  responses inside one window. `RateThreshold.CrowdedWindowsStopTheLane` says when the guarantee holds: exactly
  when no refresh succeeds while the circuit demands a human review for rate responses.
* A receipt-aware attempt whose receipts were all seen before is recorded as uncertain with no debit, and recovery,
  which takes an uncertain row to be paid, settles it at one on the row and none in the ledger
  (`internal/governor/permit.go:341-346`, `internal/recovery/recovery.go:243-247`).
  `CrashWitnesses.ReplayedCallIsNeverPaid` is such a history, receipts included. `CrashRuns.FreeExactlyWhenReplayed`
  and `CrashRuns.SettledIsPaidUnlessReplayed` show that a call stays unpaid if and only if it was recorded after an
  accepted set of receipts every one of which was retained already.
* Resuming a task in a SIWC state domain restores the projection on a governor that already holds it
  (`cmd/runstead/resume.go:931-943`), and a restore appends the saved ledger to the one in memory
  (`internal/governor/state.go:153-157`): `Persistence.SecondRestoreDoubles`.
  `CrashWitnesses.SecondRestoreChargesTwice` is a history that counts one call twice;
  `CrashRuns.SecondRestoreIsTheOnlyExcess` shows that processes start from exactly the saved debits if and only if no
  such continuation reads a ledger that holds an entry.
* An ambiguous delivery must not be repeated automatically (`docs/superpowers/specs/2026-08-10-delivery-state-design.md`,
  lines 33-35 and 108-117). Plain attempts keep this for every observed delivery; one whose delivery was not observed
  is judged by its class alone (`internal/governor/types.go:396-399`): `AmbiguousRetry.UnobservedCallIsEligible` is
  such a run. With receipts, a rate-limited receipt outranks
  the doubt about the call (`internal/governor/permit.go:598-608`): `AmbiguousRetry.AmbiguousCallIsEligible` is such a
  run, and `DeliverySafety.PlainRetriesExactly` and `DeliverySafety.AmbiguousRetriesExactly` say exactly when a retry
  is allowed, in terms of the state before the call finishes.
* A permit cancelled before its start counts as no turn, so it may pass the head for nothing and without end:
  `CancelledTurns.CancellingPassesWithoutEnd`. `Fairness.BypassesAreBounded` is what holds in every run in which
  waiters look in turn: all other grants are bounded.
* A rate response backs off unless all it says is a reset that has passed: `Cooldown.RateResponseBacksOffExactly`.
* A circuit under review can be turned into a window that ends by itself, by a rate response before an announced
  reset (`internal/governor/circuit.go:64-76`): `Halts.RateResponseKeepsReviewExactly` says exactly when. In the runs
  of one governor the cooldown has always outlasted the reset, so `Halts.ReportHaltsTheLane` holds in all of them.
* A restored governor never forgets a saved request id, completed or not: the list that ages ids out is not rebuilt
  and nobody holds the others (`internal/governor/state.go:163-168`). `RestoredIds.SavedIdsOutliveTheRestart` proves
  it; `RequestIds.ForgottenExactlyWhenOld` is the original's behaviour.
* A restored governor does not remember whose turn it was. `RestartTurns.TurnsAfterRestart` says exactly when it
  calls another waiter than the original would, and `RestartTurns.TurnIsForgotten` is such a run.
* Two different configured values in a row can loosen an observed bound:
  `OperationalProfile.TwoConfigurationsCanLoosen`. `OperationalProfile.LoosensExactly` and
  `OperationalProfile.LearningTightensExactly` say exactly which updates loosen: one that does not cover the value
  held and is authoritative, or configured over a configured value.
* A task can start more attempts than its budget: its budget starts over once its counters are forgotten, and not
  before (`BudgetRuns.ExhaustedUntilForgotten`). `ForgottenBudget.BudgetStartsOver` is such a run.
* A receipt-aware call can push a window past its ceiling, because what it debits is known only when it ends:
  `AmplifiedCall.CeilingIsPassed` is such a run. `RateLimits.DebitsStayWithinCeilings` says by how much: not at all
  while the lane is trusted, and by all but one of the debits of the call that stops it for good.

## Model

| member | source | states |
|---|---|---|
| AttemptReceipts.Validate | internal/provider/attempt_receipts.go:152-238 | the first complaint in the order the source checks, or none |
| AttemptReceipts.AcceptsExactlyWellFormed | internal/provider/attempt_receipts.go:152-275 | a set passes if and only if it is a finished chain of distinct, non-overlapping attempts on the expected route inside the call's interval and the skew |
| AttemptReceipts.AcceptedInOrder | internal/provider/attempt_receipts.go:226-231 | the receipts of an accepted set started in the order listed, under distinct ids |
| Retention.PruneForgetsOnlyCompleted | internal/governor/retention.go:38-60 | a prune forgets only completed requests and, within the cap, only those a retention window old |
| Ledger.RollingLedger.Expire | internal/governor/ledger.go:19-28 | the head moves past exactly the expired prefix; compaction changes nothing visible |
| Ledger.RollingLedger.Count | internal/governor/ledger.go:30-39 | the number of live entries after the cutoff |
| Ledger.RollingLedger.Next | internal/governor/ledger.go:41-52 | the instant the first counted entry leaves the window, or zero when the ceiling does not block |
| Ledger.CountsMatchHistory | internal/governor/ledger.go:15-39 | for every interleaving of additions and expiries, a count over a window within the retention equals the count over everything ever added |
| Ledger.NextFreeIsExact | internal/governor/ledger.go:41-52 | on a sorted blocked ledger the returned instant lies ahead, every earlier one is blocked by the same entries, and it is not |
| AccountGovernor.Evict | internal/governor/retention.go:69-85 | only removable keys go, oldest first, no more than the cap requires |
| AccountGovernor.Governor.PruneRetention | internal/governor/retention.go:38-86 | ids, records and counters left are those young or protected, less an oldest-first choice past the caps |
| AccountGovernor.Governor.Expire | internal/governor/telemetry.go:80-97 | ledger, retention, rate events and a passed telemetry reset expire together |
| AccountGovernor.Governor.BudgetSnapshot | internal/governor/telemetry.go:99-105 | taking a snapshot expires what is old and touches the task |
| AccountGovernor.Governor.RecordOutcome | internal/governor/circuit.go:32-97 | the circuit, cooldown and eligibility after one outcome |
| AccountGovernor.Governor.AcknowledgeHuman | internal/governor/circuit.go:106-117 | an acknowledgement closes a circuit under review and forgets its rate events, and nothing else |
| AccountGovernor.Governor.ApplyTelemetry | internal/governor/telemetry.go:20-70 | a snapshot renews or tightens what is known and may raise the cooldown or open the circuit |
| AccountGovernor.Governor.CheckAdmission | internal/governor/admission.go:294-369 | the verdict and state after every protection was asked in the source's order |
| AccountGovernor.Governor.EligibleIndex | internal/governor/admission.go:410-422 | the head, or the first waiter of another task once the current one used its quantum |
| AccountGovernor.Governor.TryAdmit | internal/governor/admission.go:59-134 | admission without waiting: a permit exactly when the verdict lets the request through, and the event's snapshot |
| AccountGovernor.Governor.Enqueue | internal/governor/admission.go:136-160 | joining the queue, or the code that refuses it and the event's snapshot |
| AccountGovernor.Governor.QueueCheck | internal/governor/admission.go:201-248 | one look by a waiter: it leaves with a permit or a refusal, or stays; and the event's snapshot |
| AccountGovernor.Governor.Close | internal/governor/governor.go:109-122 | closing turns away everyone waiting and keeps their records |
| AccountGovernor.Governor.BeginCredentialRefresh | internal/governor/permit.go:23-34 | a refresh begins only when required, on an idle lane, one at a time |
| AccountGovernor.RefreshPermit.Finish | internal/governor/permit.go:36-55 | a refresh finishes once; success closes the circuit, failure asks for a review |
| AccountGovernor.Permit.Start | internal/governor/permit.go:94-160 | a start stamps the permit, takes the turn and, when plain, debits at once |
| AccountGovernor.Permit.CancelBeforeStart | internal/governor/permit.go:162-182 | an unstarted permit releases its record and the lane, and the event's snapshot |
| AccountGovernor.Permit.CancelAfterStart | internal/governor/permit.go:190-225 | a started permit completes with no further debit |
| AccountGovernor.Permit.Finish | internal/governor/permit.go:227-274 | a plain permit records its outcome, completes and vacates; a receipt-aware one is refused |
| AccountGovernor.Permit.FinishWithAttemptReceipts | internal/governor/permit.go:276-467 | validation, replay detection, debits, outcomes and the unsafe verdict of a receipt finish, with evictions the caps ask for |
| AccountGovernor.Permit.DebitNewReceipts | internal/governor/permit.go:347-381 | one debit per new receipt, clamped into the call's interval, and the latest start among them |
| AccountGovernor.Permit.RecordReceipts | internal/governor/permit.go:389-421 | one outcome per new receipt, then the call's own when it says something else; the longest backoff and the strongest class |
| AccountGovernor.Permit.FinishReceiptFailure | internal/governor/permit.go:481-549 | a refused set makes the lane unsafe and debits at most one attempt |
| AccountGovernor.Governor.PersistedState | internal/governor/state.go:11-70 | the projection of the expired state |
| AccountGovernor.Governor.RestorePersistedState | internal/governor/state.go:125-185 | saved protections are merged in, a passed circuit window comes back closed, and what is too old is pruned |
| SingleLane.LaneHeldByOnePermit | internal/governor/admission.go:294-298 | after every run the lane is held exactly while one uncompleted permit exists, and works for its task |
| SingleLane.CompletedForGood | internal/governor/permit.go:94-274 | a completed permit never changes and nothing done with it reaches the governor |
| SingleLane.CompletingFreesLane | internal/governor/permit.go:436-443 | every way to complete a permit frees the lane and leaves its record released or completed |
| RequestIds.HoldersNeverShareAnId | internal/governor/admission.go:143-158 | after every run waiters and the live permit hold distinct ids that no prune forgets |
| RequestIds.CompletedIdStaysRefused | internal/governor/retention.go:133-151 | a completed id stays recorded and is granted to no one for a retention window, unless the list overfills |
| RequestIds.ForgottenExactlyWhenOld | internal/governor/retention.go:38-60 | within the cap, a prune forgets a completed id if and only if a full window has passed |
| SequenceNumbers.NumbersRise | internal/governor/permit.go:94-160 | after every run, receipts taking numbers of their own, the permits that started hold numbers that rise in the order granted, all below the next |
| LedgerOrder.StepGrows | internal/governor/permit.go:347-381 | every section leaves the ledger as it was with its own charges appended, less a prefix three hours old |
| LedgerOrder.RunKeepsTime | internal/governor/permit.go:347-354 | after every run, plain or with receipts, the ledger is in time order and ends before the call in flight |
| LedgerOrder.RetryInstantIsExact | internal/governor/admission.go:350-369 | after every run of either kind of call, whoever asks or looks and is told to wait is told the first instant at which what holds it back lets go: a window that stays full until then, the spacing, the cooldown, the circuit's window or the allowance's reset |
| RetryInstants.WaitsEndExactly | internal/governor/admission.go:294-369 | the instant in every wait verdict is the first at which its cause ends; for a rolling budget, of a window that holds its ceiling at every instant before and strictly less at that one |
| RetryInstants.NoEarlierAskHelps | internal/governor/admission.go:294-369 | a request told to wait is not let through by any check before that instant |
| Evictions.BareRunFits | internal/governor/retention.go:62-109 | a run that names few enough tasks and receipts makes exactly the evictions the caps ask for: none |
| RateLimits.UnblockedIsReady | internal/governor/admission.go:350-360 | a window the ledger does not block has room for one more start, even for a stale clock reading |
| RateLimits.DebitsStayWithinCeilings | internal/governor/admission.go:344-369 | in every run of plain and receipt-aware calls and for every instant, no rolling window holds more debits than its ceiling and debits are the minimum interval apart; only the call that stops the lane for good exceeds it, by its debits less one |
| RateLimits.LastStartFollowsTheDebits | internal/governor/permit.go:436-440 | the lane's last start, which the spacing counts from, is the debit of a refused set, and otherwise the latest of what it was and what is debited |
| AmplifiedCall.CeilingIsPassed | internal/governor/permit.go:347-381 | a concrete run in which one call debits two attempts in a window whose ceiling is one |
| RateLimits.NoWindowExceedsItsCeiling | internal/governor/admission.go:344-369 | in every plain run and for every instant, no rolling window holds more starts than its ceiling, and starts are the minimum interval apart |
| RateThreshold.BisectIsExact | internal/governor/telemetry.go:83-89 | on sorted rate events the binary search drops exactly the expired ones |
| RateThreshold.CalmMeansNoCrowdedWindow | internal/governor/circuit.go:41-76 | the pairwise form of the threshold is the count in every window, both ways |
| RateThreshold.CrowdingDemandsReview | internal/governor/circuit.go:41-76 | the response that crowds a window finds the rest of it remembered, so the review is demanded |
| RateThreshold.ReviewMeansCrowded | internal/governor/circuit.go:41-76 | a review for rate responses is never demanded without a crowded window |
| RateThreshold.CrowdedWindowsStopTheLane | internal/governor/circuit.go:41-76 | a crowded window since the last acknowledgement keeps the lane stopped throughout a run, if and only if no refresh succeeds under such a review |
| RateReceipts.EveryRateResponseCounts | internal/governor/permit.go:389-421 | every rate-limited new receipt of an accepted set, and the call where its last receipt does not say so, is remembered as a response of its own; filling the threshold halts the lane, and without guidance of the call the backoff is at least the baseline of the last |
| RateReceipts.CrowdedReceiptsHaltTheLane | internal/governor/circuit.go:41-76 | after any history, once the responses of a receipt-aware call fill the threshold no later run grants a permit before an acknowledgement, a refresh that succeeds or a window opened by telemetry |
| RefreshRace.LateRefreshReopensTheLane | internal/governor/permit.go:36-55 | a concrete run in which a late refresh reopens a crowded lane |
| RefreshRace.CallAdmitted | internal/governor/admission.go:294-369 | an idle healthy lane grants a fresh request |
| BudgetRuns.ExhaustedUntilForgotten | internal/governor/admission.go:344-350 | once nothing else holds it back, a task at its budget is refused for it if and only if it was seen within the retention window or holds a place, and the cap does not evict it |
| TaskSight.CallersAreRemembered | internal/governor/retention.go:157-165 | after a call of either kind starts or finishes, however it finishes, a prune within the retention window leaves the task's counters alone unless the cap evicts them |
| TaskSight.AskingIsSeen | internal/governor/admission.go:344-350 | a check that finds everything clear sees the task, whatever its budgets say |
| BudgetRuns.TaskBudgetsHold | internal/governor/admission.go:344-350 | in every plain run a task in sight starts at most its budget of attempts and retries, and its counters say exactly how many |
| ForgottenBudget.BudgetStartsOver | internal/governor/retention.go:62-86 | a concrete run in which a task starts three attempts on a budget of two |
| ReceiptConservation.DebitsAreConserved | internal/governor/permit.go:276-467 | what a receipt finish reports is what every ledger window and the task's counter gained; zero exactly for a full replay; any complaint leaves the lane unsafe |
| ReceiptConservation.AbortIsFree | internal/governor/permit.go:190-225 | a call given up before it was sent reports no debit, and no window and no counter gains one; nothing is to be retried |
| Settlement.TheStrongestPrevails | internal/governor/permit.go:382-435 | a receipt finish reports the first of the strongest things said: by the call, by each new receipt, by a doubt in any receipt, by a complaint about the set; the tiers are listed class by class |
| Settlement.RetriesAreConserved | internal/governor/permit.go:347-361 | each debited attempt but the first of its set takes a sequence number and one of the task's retries; the first takes a retry if the call was one |
| Settlement.ReceiptRetriesExactly | internal/governor/permit.go:423-435 | a receipt-aware call of any delivery may be retried if and only if its accepted set is one new receipt, call and receipt together are a failure that can be tried again, a retry is left beyond its own, and the circuit ends closed |
| ReceiptRuns.UnsafeRunsGrantNothing | internal/governor/admission.go:299-301 | an unsafe lane stays unsafe and grants nothing in any run |
| ReceiptRuns.RefusedReceiptsEndGrants | internal/governor/permit.go:307-346 | after a refused, amplified or replayed set no permit is granted for the rest of the run |
| NoDoubleDebit.NovelExactly | internal/governor/retention.go:88-109 | a receipt counts as new if and only if its identity was never seen, has aged out, or was evicted by the cap |
| NoDoubleDebit.NovelReceipts | internal/governor/permit.go:310-326 | the receipts debited are distinct, unknown, and started inside the call up to the skew |
| NoDoubleDebit.NoAttemptIsDebitedTwice | internal/governor/retention.go:88-109 | over every run of calls of at most three hours less ten minutes, no attempt is debited twice, aged out or not |
| Fairness.GrantShortensTheWait | internal/governor/admission.go:410-422 | whoever is granted, every waiter left waits for strictly fewer grants |
| Fairness.BypassesAreBounded | internal/governor/admission.go:185-248 | in every run in which waiters look in turn, the waiter at position k is served or leaves before 2(k+1) further grants, not counting those given back unstarted, whoever arrives |
| Fairness.NobodyIsBypassedForLong | internal/governor/admission.go:185-248 | where no grant is given back unstarted the same bound counts every grant |
| FairTurns.NobodyHogsTheLane | internal/governor/admission.go:410-422 | after every run the turn is the head's, unless its task had the last quantum of turns and another task waits: then it is that task's first waiter's |
| FairTurns.QueueNeverOverflows | internal/governor/admission.go:143-160 | after every run no more callers wait than the capacity allows |
| CancelledTurns.CancellingPassesWithoutEnd | internal/governor/permit.go:162-182 | for every n, a run in which all look only in turn grants n permits past a head that stays, by cancelling each before its start |
| Cooldown.RateResponseBacksOffExactly | internal/governor/circuit.go:40-63 | a rate response backs off if and only if its guidance is not just a passed reset, until the later of what it was told, and without guidance by the jittered wait but at least the baseline that doubles from fifteen seconds to two minutes |
| Cooldown.NobodyPassesTheCooldown | internal/governor/admission.go:323-325 | in no run does the cooldown shrink or is a permit granted to a caller asking before it |
| Cooldown.BackoffIsServed | internal/governor/telemetry.go:37-51 | after every run that follows a backoff or a snapshot's guidance, nobody asking before that instant was granted a permit |
| Cooldown.ReportedGuidanceIsHeeded | internal/governor/permit.go:398-421 | what a rate-limited receipt-aware call reports for itself is heeded whenever its accepted set holds a new receipt: backoff and cooldown last as long as its retry delay and reach its reset |
| Cooldown.ReceiptsCover | internal/governor/permit.go:402-421 | a receipt finish leaves exactly the cooldown there was, raised by the backoff it reports, the longest it selected |
| Cooldown.GuidanceIsServed | internal/governor/circuit.go:40-63 | after a rate-limited call of either kind every later run grants nobody who asks before its retry delay has passed or before its reset |
| Halts.SignalDemandsReview | internal/governor/circuit.go:77-84 | a plain call that ends in one of the seven security signals puts the circuit under review for that signal |
| Halts.ExpiryDemandsRefresh | internal/governor/circuit.go:77-84 | one that ends with an expired credential opens the circuit until a refresh |
| Halts.RateResponseKeepsReviewExactly | internal/governor/circuit.go:64-76 | a rate response leaves a review in place if and only if no announced reset is still ahead, it announces none, or it reaches the threshold |
| Halts.LimitsOpenAWindow | internal/governor/telemetry.go:57-63 | a reported limit while an announced reset is ahead opens the circuit until the later reset and the safety margin have passed, and not longer |
| Halts.EarlyResponsesOpenAWindow | internal/governor/circuit.go:64-76 | so does a rate response before the reset announced last, short of the threshold |
| Halts.ReceiptsHalt | internal/governor/permit.go:389-421 | a signal or expired credential reported by any new receipt of an accepted set, or by the call, halts the lane in whatever order they are recorded |
| Halts.ReportHaltsTheLane | internal/governor/circuit.go:77-84 | after any history, once such a report is in, no later run grants a permit before an acknowledgement or a successful refresh; a review also ends where telemetry opens a window |
| Halts.ReleasesEndHalts | internal/governor/circuit.go:106-117 | an acknowledgement of a review, which leaves a new circuit but for a refresh under way, and a successful refresh end the halt, a failed refresh leaves the circuit under review for the expired credential |
| Halts.NothingIsGrantedAfterClose | internal/governor/governor.go:109-122 | after any history, once the governor is closed no run grants a permit, to waiters or to anybody else |
| Refreshes.RefreshBeginsExactly | internal/governor/permit.go:23-34 | after every run at most one refresh is under way, and another begins if and only if one is required, none is under way, no permit is uncompleted and nobody waits |
| Allowance.GatesPassExactly | internal/governor/admission.go:294-343 | the gates before the budgets pass if and only if the lane is free and trusted, the circuit closed or its window over, the cooldown over and the allowance ample or its window over |
| Allowance.PassMeansClear | internal/governor/admission.go:294-343 | a check that lets a request through found everything clear, and leaves the circuit closed |
| Admissions.PassesExactly | internal/governor/admission.go:294-369 | a check lets a request through if and only if all of that is clear, the task has an attempt, and a retry for a retry, left, no rolling window holds its ceiling, and the minimum interval has passed |
| Admissions.VerdictsTellWhy | internal/governor/admission.go:294-369 | a check that lets nobody through names the first thing in the way, in the order asked, and asks to wait if and only if that ends by itself at a known instant |
| Admissions.OneReason | internal/governor/admission.go:294-369 | each of those causes, where it holds, is the code given: no two hold together and none where the check passes |
| Admissions.AdmittedExactly | internal/governor/admission.go:59-134 | a permit without waiting if and only if the governor is open, the caller still there, the id unknown, nobody waits and the check passes |
| Admissions.LookedExactly | internal/governor/admission.go:201-248 | a look grants the waiter if and only if it is still there and the check passes; granted, refused or cancelled it leaves the queue, and only granted it keeps its id |
| Admissions.JoinsExactly | internal/governor/admission.go:136-160 | a request joins at the end of the queue if and only if the governor is open, the id unknown and there is room |
| Allowance.OpenUpstreamIsWaitedOut | internal/governor/admission.go:317-322 | while upstream reports its circuit open nobody passes: a caller waits until the last instant announced for it and is refused after that |
| Allowance.SnapshotsAreHeeded | internal/governor/telemetry.go:20-70 | what a snapshot says of the route, the circuit upstream, the cooldown, the window and its limits is taken over, and what it does not speak of stays |
| Allowance.SnapshotsOnlyLower | internal/governor/telemetry.go:27-36 | within one reset window no snapshot raises the remaining count |
| Allowance.StartSpends | internal/governor/permit.go:123-133 | a plain start takes one from the remaining count, a receipt-aware one nothing |
| Allowance.FinishSpends | internal/governor/permit.go:347-372 | a receipt finish takes one per new receipt of an accepted set, and one where the set is refused |
| Allowance.ReserveIsKept | internal/governor/admission.go:326-343 | in no run is a permit granted before the window ends once what is left of it is within the manual reserve, and the count never rises in it |
| DeliverySafety.RememberedIsWithinWindow | internal/governor/telemetry.go:83-89 | on rate events in time order the ones remembered are exactly those inside the window |
| DeliverySafety.PlainRetriesExactly | internal/governor/types.go:396-411 | before it finishes, a plain attempt may be retried if and only if its class is recoverable, its delivery was not seen to be ambiguous, retries are left, the circuit is closed and the remembered rate events with this one stay below the threshold |
| DeliverySafety.UnknownCountsAsReached | internal/governor/circuit.go:32-39 | a finished plain call reports the class it was given, unless it has none, its delivery is ambiguous, or it was cancelled and not seen to be unsent: then it counts as reached |
| DeliverySafety.AmbiguousRetriesExactly | internal/governor/permit.go:382-435 | before it finishes, an ambiguous receipt-aware call may be retried if and only if its accepted set is one new rate-limited receipt, a retry is left beyond its own, the circuit is closed and one more rate response leaves it so |
| AmbiguousRetry.AmbiguousCallIsEligible | internal/governor/permit.go:598-608 | a concrete run in which a call of unconfirmed delivery becomes eligible for a retry |
| AmbiguousRetry.UnobservedCallIsEligible | internal/governor/types.go:396-399 | a concrete run in which a plain call of unobserved delivery becomes eligible for a retry |
| Genuine.RunKeepsReal | internal/governor/state.go:125-185 | every run leaves debits and receipt identities with real dates and sequence numbers from one, so a saved projection reads back |
| Persistence.RestartIs | internal/governor/state.go:125-185 | what a restart leaves of a saved state |
| Persistence.RestartedChecksAlike | internal/governor/state.go:125-185 | at every later instant and for every request the restored governor's check gives the original's code and retry instant |
| Persistence.CheckMatches | internal/governor/admission.go:294-369 | matched governors give the same verdict and stay matched |
| Persistence.RecordOutcomeTwin | internal/governor/circuit.go:32-97 | later outcomes drive both circuits alike and give the same result |
| Persistence.RestartIsInvisible | internal/governor/state.go:11-185 | after any run that leaves the lane idle, every later run possible for the original, callers queueing or not, is possible for the restored governor, with the same permits and the same protections after it |
| Persistence.SecondRestoreDoubles | internal/governor/state.go:153-157 | a second restore on a governor that already holds the projection doubles the count of every window |
| Persistence.RestoreMerges | internal/governor/state.go:125-185 | a restore of whatever projection on whatever governor: dated debits join, dated identities replace, numbers never fall, an unsaved remaining count stays, a passed window comes back closed |
| RestartTurns.TurnsAfterRestart | internal/governor/admission.go:410-422 | after every such run the two governors call different waiters if and only if the original lets another task pass the head and the restored one has not yet seen the current task use up its quantum |
| RestartTurns.TurnIsForgotten | internal/governor/state.go:125-185 | a concrete run after which the original calls the second waiter and the restored governor the first |
| RestoredIds.SavedIdsOutliveTheRestart | internal/governor/state.go:163-168 | an id in the saved records, completed or not, keeps its record and is refused after every run of the restored governor and at every instant |
| Restarts.NoWindowExceedsItsCeilingEver | internal/governor/state.go:125-185 | through any number of restarts, the projection restored once or twice, and calls of either kind, no rolling window holds more debits than its ceiling and debits are the minimum interval apart, but for the call that stops the lane |
| Restarts.RetryInstantIsExactEver | internal/governor/admission.go:350-369 | the same answers through any number of restarts; without a second restore the ledger is in time order |
| Restarts.NoAttemptIsDebitedTwiceEver | internal/governor/state.go:169-173 | through any number of restarts no attempt is debited twice for its receipts |
| AgentExecutor.Admit | internal/governor/admission.go:136-250 | the wait for admission returns a permit holding the lane for the task, or leaves no trace in the queue because the queue refused it, a look sent it away, or every look put it off |
| AgentExecutor.Attempt | internal/governor/execute.go:66-158 | one governed attempt always gives the lane back and debits a sent retry once; it is sent unless admission turned it away, it was cancelled or its intent could not be stored; it is retry-eligible exactly with a retry-safe outcome, a retry left and a closed circuit |
| AgentExecutor.Execute | internal/agent/executor.go:97-173 | a logical call ends after at most one attempt plus the retries left, and not before its last attempt had no right to another; every attempt but the last was sent, recorded, observed, waited for and retry-safe, and debited as a retry |
| AgentExecutor.RunLoop | internal/agent/loop.go:421-441 | a loop run of any length goes on to a limit unless the world stops it or a call does not reach or record, and sends at least one call a turn but the last and at most one a turn plus the retries the task had left |
| RequestNames.NamesNeverCollide | internal/agent/loop.go:620-630 | no two calls share a request id, whatever their turns and retries and whichever task or work unit they are for |
| CrashRecovery.Store.ApplyConservativeDebit | internal/state/recovery.go:224-269 | the saved projection gains one ledger entry dated at the row's start, one attempt for its task, one less available, and distrust |
| CrashRecovery.Store.Resume | internal/recovery/recovery.go:228-272 | a recovery pass settles the rows in turn and lists those that wait for a human |
| CrashRecovery.RecoverySettles | internal/state/recovery.go:167-269 | a pass reconciles exactly the listed rows that are planned, prepared, running or uncertain and adds exactly one debit per row whose debit was deferred |
| CrashRecovery.RecoveryIsDated | internal/state/recovery.go:224-269 | each debit of a pass is dated by the start its row was prepared with, and so are the lane's last start and the task's last sight by the last such row; only a row without a start is dated by the recovery; a task's retries stay |
| CrashRecovery.ReviewedExactly | internal/recovery/recovery.go:228-272 | those left to a human are exactly the listed rows that already wait for one |
| CrashRecovery.OwedAtMostOnce | internal/recovery/recovery.go:243-247 | recovery owes a row one debit if it is open, receipt-aware and not already uncertain, else none |
| Bookkeeping.StepIsSound | internal/recovery/recovery.go:228-272 | every step of the abstract protocol, crashes included, keeps the books of every attempt |
| Bookkeeping.StepIsFair | internal/state/recovery.go:167-269 | no step overcharges an attempt, unless a continuation restores saved debits a second time |
| CrashRuns.FreeExactlyWhenReplayed | internal/governor/permit.go:276-467 | a receipt finish debits nothing if and only if the set is accepted and every receipt in it was retained; it then ends uncertain and the lane is distrusted |
| CrashRuns.ActsKeepBooks | internal/governor/execute.go:66-158 | the governor and the store under the protocol do to the books exactly what the abstract step does |
| CrashRuns.ActIsSound | internal/governor/execute.go:66-158 | every act, crashes included, keeps the books of every attempt |
| CrashRuns.ReachedIsOnRecord | internal/governor/execute.go:66-158 | at every crash point an attempt that may have reached the upstream has a durable debit, or is receipt-aware and either open or recorded after a full replay |
| CrashRuns.SettledIsPaidUnlessReplayed | internal/recovery/recovery.go:239-272 | once its row is settled, whatever rows other tasks have open, such an attempt has a durable debit if and only if it was not recorded after an accepted set of receipts all of which were retained |
| CrashRuns.SecondRestoreIsTheOnlyExcess | cmd/runstead/resume.go:931-943 | every process starts from exactly the saved debits if and only if no continuation restores a ledger that holds an entry a second time |
| CrashRuns.RecoveryAddsAtMostOne | internal/state/recovery.go:167-269 | where no ledger is restored twice, recovery adds at most one debit per row, plain attempts have exactly one, and no row holds more than its receipts justified and that one |
| CrashWitnesses.ReplayedCallIsNeverPaid | internal/governor/permit.go:341-346 | a concrete history, with its receipts, that settles a reached attempt without a debit |
| CrashWitnesses.SecondRestoreChargesTwice | cmd/runstead/resume.go:931-943 | a concrete history in which the governor that goes on counts one recorded call twice |
| CrashRuns.DistrustSurvivesCrashes | internal/recovery/recovery.go:466-468 | once the saved projection is unsafe no later process starts an attempt |
| ContextRender.PinnedBytes | internal/context/compiler.go:183-191 | the bytes of the pinned lines |
| ContextRender.RenderCompiled | internal/context/compiler.go:103-144 | fails exactly when the pinned lines exceed the budget, otherwise writes the lines kept and records the lines dropped |
| ContextRender.RenderingGuarantees | internal/context/compiler.go:103-144 | the rendering fits the budget, keeps every pinned line, keeps lines in their order, only removes degradable ones, loses none unrecorded, and removes nothing when everything fits |
| OperationalProfile.LearningIsLeast | internal/provider/operational_profile.go:470-518 | any list of observations ends at the least bound above the start and all of them |
| OperationalProfile.LearningIgnoresOrder | internal/provider/operational_profile.go:435-518 | the same observations in any order end at the same bound |
| OperationalProfile.ReplaysOnlyTighten | internal/provider/operational_profile.go:508-514 | replaying one configured value among observations never loosens the bound |
| OperationalProfile.LoosensExactly | internal/provider/operational_profile.go:470-518 | an update loosens a known bound if and only if it is valid, does not cover the value held, and is authoritative or configured over a configured value |
| OperationalProfile.LearningTightensExactly | internal/provider/operational_profile.go:470-518 | over any updates of any provenance the bound only ever tightens if and only if no update is of that kind, and then it ends at least as conservative |
| OperationalProfile.TwoConfigurationsCanLoosen | internal/provider/operational_profile.go:508-514 | a concrete pair of configured values that does |
| OperationalProfile.Apply | internal/provider/operational_profile.go:523-546 | a new profile exactly when the rules accept, changed in that field alone |
| Envelope.ScanEnvelopeTags | internal/protocol/parser.go:220-263 | the loop over three flags finds the tags of the four-mode scanner |
| Envelope.ExtractEnvelope | internal/protocol/parser.go:282-312 | the one envelope, or the failure the source's checks give in order |
| Envelope.ExtractionInvertsPrinting | internal/protocol/parser.go:220-312 | in marker-free prose any envelope with a JSON-shaped block comes back as written, whatever its strings hold |
| Envelope.ExtractionSplitsTheResponse | internal/protocol/parser.go:282-312 | whatever is extracted splits the response into marker-free prose, an open tag, the block, its close tag and marker-free prose |
| FailureStreak.TrailingToolFailures | internal/recovery/recovery.go:630-644 | the length of the trailing run of failing attempts |
| FailureStreak.Guard | internal/agent/loop.go:1011-1019 | one turn of the live counter and when it stops the run |
| FailureStreak.RecoveredStreak | internal/recovery/recovery.go:630-667 | for every persisted history recovery recomputes the live counter |
| FailureStreak.ResumedCounter | internal/agent/loop.go:1011-1019 | a resumed loop ends with the counter an uninterrupted one would have |
| FailureStreak.TrailingVerificationFailures | internal/recovery/recovery.go:673-683 | the trailing run of failed verification decisions |

## Left out

- Events: the governor's event payloads and their draining, and the second snapshot of a start's and a finish's event at the instant of the first; in runs `Emit` may follow any section.
- Waiters: goroutine wake-ups and timers. A waiter is a ticket in the queue; its looks are labels of the run.
- Clock readings inside one section: each section takes one reading, or two where the source reads before and inside the lock.
- AccountGovernor.Governor.TryAdmit: the first of its two locked sections, whose answers are among those of the second.
- AccountGovernor.Governor.RestorePersistedState: the saved lists of tasks, requests and receipt identities are maps here; only the ledger keeps its order. Unknown state names are not modelled.
- Route safety, gateway health, model pool and request context checks before admission, and deadlines that only rename a cancellation.
- Config.Validate: the policy is assumed valid; durations longer than the source's formats allow are not excluded.
- Allowance profiles: the normalisation of old projections decides no protection.
- Delivery evidence: the upstream-reached flag it sets is reported, never decided on.
- AttemptReceipts.Validate: UTF-8 validity of identifiers and the JSON encoding; the encoded length is a field of the set.
- BudgetRuns.TaskBudgetsHold: supposes the task is seen within the retention window or holds a place, and is not evicted by the cap; BudgetRuns.ExhaustedUntilForgotten shows that a check refuses for the budget exactly then.
- RateThreshold.CrowdedWindowsStopTheLane: runs of plain calls; what receipts report is RateReceipts.CrowdedReceiptsHaltTheLane.
- NoDoubleDebit.NoAttemptIsDebitedTwice: supposes the cap of 4096 identities is never reached; NoDoubleDebit.NovelExactly says what else makes a receipt new.
- Fairness.BypassesAreBounded: supposes waiters look only when it is their turn; every other label is allowed.
- Persistence.RestartIsInvisible: the lane is idle when saved, later calls reuse no id either governor knows, and clock readings are not older than the restart; whose turn it is, which it does not promise, is RestartTurns.TurnsAfterRestart.
- Restarts.NoWindowExceedsItsCeilingEver: the debit recovery adds for a call cut off before its second write is none of these; it stops the lane, and CrashRuns.RecoveryAddsAtMostOne counts it.
- Restarts.NoAttemptIsDebitedTwiceEver: debits for receipts, as long as the cap of identities is not reached.
- AgentExecutor.Execute: one caller alone on its lane, plain mode, no event sink, room for its task among those kept, and each wait between its attempts shorter than the retention window; other callers are covered by BudgetRuns.
- AgentExecutor.RunLoop: supposes what Execute does, for the waits between its turns too.
- CrashRuns.ActIsSound: one store and one process at a time; an attempt is named by its row, and a ledger entry by the attempt it is for.
- CrashRecovery: tool attempts, write reconciliation and work units.
- ContextRender.RenderCompiled: lines are strings of bytes; redaction after rendering is not part of this model.
- Envelope.ExtractEnvelope: a response without tags is a missing envelope; telling refusals and unsupported claims apart by pattern is not part of this model.
- OperationalProfile: masks are sets of bits and numbers are positive 64-bit integers; profile identity and its hash are not modelled.
- FailureStreak.RecoveredStreak: attempts that ended neither completed nor failed break the recovered streak and never reach the live counter.
- The repeat guard, verification ordering and the rest of the agent loop.
- The command line, the SQLite store behind the transactions, provider adapters, tools and the verifier.
