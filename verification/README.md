# Verified models of the SaaS platform's protocols

This project models the parts of the platform where a wrong order of steps costs
something that cannot be taken back, and proves what each part is for. Every
result is about all inputs, all interleavings and all crash points of its model.

- **Outbox events** (`OutboxExceptions`, `OutboxStore`, `OutboxRuns`, `OutboxDelivery`,
  `OutboxJob`): how often an external effect can start for one event, what an exception
  group means for the retry, an outcome that is written once, and an event that is never
  lost.
- **Governed inference** (`Eligibility`, `RequestValidation`, `InferenceLedger`,
  `InferenceRuns`, `InferenceTheorems`, `InferenceService`, `Accounting`, `Quota`,
  `InferenceQuota`; `Traces` holds runs of any step relation, `Machines` runs of a machine
  that takes actions):
  which destinations a request may reach, the attempt ledger under any number of
  interleaved calls and sweeps, the evidence behind every send, deadlines, cost and
  the soft token quota.
- **Approvals** (`Approvals`): propose, decide, claim by compare-and-swap, execute.
- **First-tenant bootstrap** (`Folding`, `Bootstrap`, `BootstrapCommand`): find-or-create
  steps that may be cut anywhere.
- **Route policy** (`RoutePolicy`, `RouteChecks`): the policy of a route and the two
  startup checks over all of them.
- **Failed-credential limit** (`CredentialLimit`): peek, look up, count.
- **Release support statement** (`Numerals`, `Patterns`, `SupportLines`,
  `SupportStatement`): a scanner, and an acceptor of exactly one text per release.

Where the source updates stored state step by step, a class or a loop does so here and
is proved equal to a function on values; the theorems are about that function, or about
a state machine built from it. Times, random backoff, provider answers, database
failures, lost acknowledgements and configuration read in between are parameters or
actions. A process that never acts again was killed. Identifiers that the source draws
at random are counters.

`dafny verify dfyconfig.toml` checks the project.

## What the code does differently from its description

- `release_claim` gives back the marker with the claim. If the queue accepted the job
  although the hand-off raised, the effect can start again without any credited retry;
  `OutboxRuns.EffectsAreBounded` counts these releases,
  `OutboxRuns.EffectsAreBoundedByCredits` states the documented bound under the guard of that
  branch, and `OutboxRuns.LateReleaseBreaksTheBound` shows that it fails without.
- The rule that every leaf must declare `at_least_once` binds the execution that wrote the
  marker (`OutboxRuns.CreditedByTheMarkerDeclares`). A duplicate of the same claim that never
  entered the block is not bound by it (`OutboxRuns.DuplicateCreditsMixedGroup`).
- Output can be returned over an abandoned row, with its usage recorded nowhere, once the
  deadline and the margin have passed (`InferenceTheorems.ReturnedThoughAbandoned`); before
  that it cannot (`InferenceTheorems.ReturnedOutput`).
- `approve` and `reject` write without looking at the status again. "A rejected proposal
  never executes" and "executed once" hold exactly while no approval is between its read
  and its write beside another decision on the same request
  (`Approvals.ExecutedAtMostOnce`, `Approvals.OverlapBreaksFinality`). A rejection by the
  proposer passes the check of `reject` and is refused by the table; no other decision
  is refused there (`Approvals.RefusedAtTheWrite`, `Approvals.ProposerPassesTheCheck`).
- The description of `ApprovalRequest` says that `executing` always resolves before
  `execute_approved` returns or raises. An executor that dies, or whose last transaction
  fails, strands its request (`Approvals.CrashStrands`): a row stays at `executing` for
  good if and only if nobody executes it and no decision read before is still to be written
  (`Approvals.StuckExactly`); while no approval overlaps another decision, if and only if
  nobody executes it (`Approvals.ExecutingResolvesExactly`). With an overlap the late
  decision overwrites it (`Approvals.LateApprovalFrees`).
- A cut between a new user and its identity link leaves a user that nothing refers to;
  the resumed run creates another one. How many are left, and that the end state is
  otherwise the uncut one, is exact (`Bootstrap.Converges`, `Bootstrap.OrphansStayUnreferred`).
- The credential limit is described as overshooting by the number of requests in flight;
  the exact figure is one less (`CredentialLimit.BoundIsReached`).

## Model

| member | source | states |
|---|---|---|
| `OutboxExceptions.GroupOutcomeIsMeet` | saas_os/api/outbox_dispatcher.py:245-289 | the retry policy of an exception group is the greatest policy that no ambiguous leaf forbids: a policy is at most the outcome exactly when it is at most what every leaf allows (a bare timeout allows none) |
| `OutboxExceptions.GroupOutcomeDependsOnLeavesOnly` | saas_os/api/outbox_dispatcher.py:227-289 | two exceptions with the same set of leaves, however nested or ordered, have the same outcome policy |
| `OutboxExceptions.GroupOutcomeMonotone` | saas_os/api/outbox_dispatcher.py:256-289 | a group with more leaves is never more permissive than one with an ambiguous member and fewer |
| `OutboxExceptions.AddingAMemberNeverHelps` | saas_os/api/outbox_dispatcher.py:256-289 | inserting any exception at any place and depth of a group that is already ambiguous leaves it ambiguous and never more permissive |
| `OutboxExceptions.MarkedAtLeastOnce` | saas_os/api/outbox_dispatcher.py:455-477 | for a marked attempt `at_least_once` is passed on if and only if every leaf declares it and so does every leaf of a block group that shares a leaf with it |
| `OutboxExceptions.ConfirmOnlyAfterMarker` | saas_os/api/outbox_dispatcher.py:490-591 | "confirmed not sent" is recorded only for a started attempt whose every leaf attests it |
| `OutboxExceptions.UnmarkedMixedGroupIsPassedOn` | saas_os/api/outbox_dispatcher.py:490-591 | the classification of an attempt that knows of no marker passes `at_least_once` on for a group that also holds an undeclared leaf |
| `OutboxStore.RecordedOnce` | saas_os/core/outbox/dispatch.py:606-743 | after an outcome write that changed the event, no second outcome write under the same token changes it |
| `OutboxStore.MarkedRetryIsCredited` | saas_os/core/outbox/dispatch.py:626-902 | a marked claim returns to `pending` only through the two credited branches |
| `OutboxStore.OutboxEvent.ClaimIfDue` | saas_os/core/outbox/dispatch.py:454-535 | the stored columns after a claim: due events only, dead-lettered when marked or out of attempts, else a new token, lease and attempt |
| `OutboxStore.OutboxEvent.BeginExecution` | saas_os/core/outbox/dispatch.py:550-603 | an execution runs only under the current token of an open tenant, and what the row becomes otherwise |
| `OutboxStore.OutboxEvent.Complete` | saas_os/core/outbox/dispatch.py:606-623 | published only under the current token; otherwise nothing changes |
| `OutboxStore.OutboxEvent.Fail` | saas_os/core/outbox/dispatch.py:626-688 | ordinary failure: retried or dead-lettered; a marked claim is dead-lettered |
| `OutboxStore.OutboxEvent.RecordConfirmedNotSent` | saas_os/core/outbox/dispatch.py:691-743 | credited retry with the marker cleared when the error and its block attest it; otherwise as an ordinary failure |
| `OutboxStore.OutboxEvent.RecordAmbiguous` | saas_os/core/outbox/dispatch.py:827-902 | the row after an ambiguous outcome for each retry policy, including the idempotency deadline |
| `OutboxStore.OutboxEvent.ReleaseClaim` | saas_os/core/outbox/dispatch.py:746-771 | a released claim gives back its attempt and its marker |
| `OutboxStore.OutboxEvent.MarkStarted` | saas_os/core/outbox/dispatch.py:773-825 | the marker is written for the current, unmarked claim only, and refused otherwise |
| `OutboxStore.OutboxEvent.Replay` | saas_os/core/outbox/replay.py:163-171 | a replay resets a dead-lettered event of an open tenant and nothing else |
| `OutboxRuns.RunKeepsInv` | saas_os/api/outbox_dispatcher.py:38-91 | every run keeps tokens unique, markers owned, outcomes recorded once and retries within their bounds |
| `OutboxRuns.EffectsAreBounded` | saas_os/api/outbox_dispatcher.py:38-91 | with markers on, over every run of crashes, lease expiries, duplicated and retried jobs: effects started <= 1 + confirmed-not-sent retries + at-least-once retries + replays + claims released after their marker |
| `OutboxRuns.EffectsAreBoundedByCredits` | saas_os/api/outbox_dispatcher.py:38-91 | the documented bound, without the last term, for every run in which no claim is released while it carries its marker |
| `OutboxRuns.LateReleasesAreCounted` | saas_os/core/outbox/dispatch.py:746-771 | the last term is zero if and only if that guard holds along the run |
| `OutboxRuns.LateReleaseBreaksTheBound` | saas_os/core/outbox/dispatch.py:746-771 | the guard is needed: from any reachable state of an open tenant that has used its allowance, releasing the marked claim has a continuation that exceeds the documented bound, for any lease above two microseconds and any delay, provided this is the first attempt, no idempotency deadline is stored, or it has not passed when the next attempt is due |
| `OutboxRuns.HonestHandOffsAreNeverLate` | saas_os/api/outbox_dispatcher.py:601-648 | the guard holds whenever a claim is given back only while no execution holds its token |
| `OutboxRuns.LateReleasesRepeatTheEffect` | saas_os/core/outbox/dispatch.py:746-771 | for any number of late releases and any lease and delays, a run without credits starts one effect more than that number: the extra term is tight |
| `OutboxRuns.CreditedByTheMarkerDeclares` | saas_os/api/outbox_dispatcher.py:455-477 | over every run, an at-least-once credit recorded by the execution that wrote the marker rests on an exception whose every leaf declares it, and every leaf of a block group sharing one |
| `OutboxRuns.DuplicateCreditsMixedGroup` | saas_os/api/outbox_dispatcher.py:490-591 | it must be that execution: a duplicated job that never entered the block gets a marked claim sent back over a group with an undeclared leaf, after the effect started |
| `OutboxRuns.OutcomesAreRecordedOnce` | saas_os/api/outbox_dispatcher.py:292-394 | no two outcome writes that changed the event share an execution or a token |
| `OutboxRuns.RefusedRecordsNothing` | saas_os/api/outbox_dispatcher.py:158-202 | an execution whose marker was refused never records an outcome |
| `OutboxRuns.RetriesStayInBounds` | saas_os/core/outbox/dispatch.py:454-535 | attempts never exceed the configured maximum and no retry starts after the idempotency window |
| `OutboxDelivery.NextDispatchEndsIt` | saas_os/api/outbox_dispatcher.py:38-42 | from any state of an open tenant, whatever crashed before: once a pending event is due, a claim and a consumer that returns publish it if and only if the last claim left no marker, an attempt is left and no idempotency window has ended; else it is dead-lettered |
| `OutboxDelivery.NeverLost` | saas_os/api/outbox_dispatcher.py:38-42 | from any state of an open tenant some continuation publishes the event, at the latest after an operator's replay |
| `OutboxDelivery.EndedStays` | saas_os/core/outbox/dispatch.py:606-623 | a published event never changes again, and a dead-lettered one only by a replay |
| `OutboxDelivery.PublishedWasHandled` | saas_os/core/outbox/dispatch.py:606-623 | over every run: a published event has a recorded outcome of a consumer that returned |
| `OutboxJob.ExternalEffectStarter.Call` | saas_os/api/outbox_dispatcher.py:158-202 | the ends of entering the block, a marker write that fails or loses its acknowledgement included, and the fields and stored marker after each |
| `OutboxJob.WriteOutcome` | saas_os/api/outbox_dispatcher.py:403-422 | at most three tries, reports whether one was acknowledged, and the event is changed by the first commit only, whatever the pattern of lost acknowledgements |
| `OutboxJob.RunOutboxEvent` | saas_os/api/outbox_dispatcher.py:292-394 | the job as a program leaves the event exactly as the run machine does for its steps |
| `OutboxJob.WritesAreTries` | saas_os/api/outbox_dispatcher.py:403-422 | the write loop and the machine agree try by try |
| `Eligibility.PreferencesOnlyNarrow` | saas_os/control_plane/inference/resolution.py:333-350 | one preference admits at most what another admits, for every declared handling, if and only if it is tighter requirement by requirement (an empty residency list is no requirement) |
| `Eligibility.GateRepeatsRouting` | saas_os/control_plane/data_authorization/service.py:78-109 | the data-authorization gate allows exactly what the routing conjuncts it repeats allow |
| `Eligibility.Evaluate` | saas_os/control_plane/inference/resolution.py:398-464 | the two loops and their refusals compute the declarative selection |
| `Eligibility.EvaluatesExactly` | saas_os/control_plane/inference/resolution.py:398-464 | evaluation succeeds if and only if the request passes its own checks and some candidate passes all of its; when capability is the refusal |
| `Eligibility.EligibleInAliasOrder` | saas_os/control_plane/inference/resolution.py:398-464 | the result is exactly the eligible positions of the alias, each once, ascending |
| `Eligibility.TighteningOnlyRemoves` | saas_os/control_plane/inference/resolution.py:333-464 | tightening preferences, grants, installation policy, capabilities or the output limit can only remove candidates |
| `Eligibility.EmptyResidencyLoosens` | saas_os/control_plane/inference/resolution.py:333-350 | emptying the residency list is not a tightening |
| `RequestValidation.ValidateMessages` | saas_os/control_plane/inference/resolution.py:136-193 | the nested loops over messages and parts compute the specification scan, error by error |
| `RequestValidation.AcceptedExactly` | saas_os/control_plane/inference/resolution.py:136-193 | accepted if and only if every message and part fits, sizes are within limits, the last turn is the user's and the highest classification is within the ceiling; the classification used is that maximum |
| `InferenceLedger.SettleConserves` | saas_os/control_plane/inference/service.py:474-520 | settling keeps each mirrored usage total equal to its token column |
| `InferenceLedger.SweepConserves` | saas_os/control_plane/inference/service.py:339-357 | so does the stale sweep |
| `InferenceLedger.InsertConserves` | saas_os/control_plane/inference/service.py:434-456 | so does a new `started` row |
| `InferenceLedger.SettleAddsItsTokens` | saas_os/control_plane/inference/accounting.py:151-159 | settling a row adds exactly its tokens to the month it started in |
| `InferenceLedger.TenantLedger.InsertStarted` | saas_os/control_plane/inference/service.py:434-456 | the stored row of a begun attempt |
| `InferenceLedger.TenantLedger.Settle` | saas_os/control_plane/inference/service.py:474-520 | the row and the mirrored events after a settlement; nothing when the row is no longer `started` |
| `InferenceLedger.TenantLedger.AbandonStale` | saas_os/control_plane/inference/service.py:339-357 | exactly the stale `started` rows are abandoned |
| `InferenceRuns.ReachableKeepsInv` | saas_os/control_plane/inference/service.py:647-1049 | every interleaving of calls, sweeps, clock ticks, changing configuration, failing writes and killed processes keeps the ledger, evidence and call invariants |
| `InferenceRuns.FindModelFinds` | saas_os/control_plane/inference/service.py:417-421 | the fresh candidate looked up is the first of that model, and absent only if there is none |
| `InferenceRuns.RecheckJustifies` | saas_os/control_plane/inference/service.py:402-433 | a passed re-check means: authorized, eligible on fresh configuration, same version, URL, credential and trust set as the chosen destination |
| `InferenceTheorems.LedgerIsFinal` | saas_os/control_plane/inference/service.py:339-357 | along any run a row keeps what it was started with, leaves `started` at most once and never changes afterwards |
| `InferenceTheorems.UsageIsConserved` | saas_os/control_plane/inference/service.py:511-519 | in every reachable state each metric's usage total equals its column over provider-reported rows |
| `InferenceTheorems.EverySendIsEvidenced` | saas_os/control_plane/inference/service.py:387-456 | every send has a committed row of its request and number whose transaction had authorized the caller before the deadline and found that very destination eligible |
| `InferenceTheorems.SendFollowsItsCommit` | saas_os/control_plane/inference/service.py:833-884 | in the state just before a send its row is already committed, and still `started` unless the deadline and margin have passed |
| `InferenceTheorems.SendsAreSequential` | saas_os/control_plane/inference/service.py:149-162 | every send but the newest failed unprocessed and outside the never-fall-back set; sends are numbered 1, 2, ... |
| `InferenceTheorems.AcceptedSendIsTheLast` | saas_os/control_plane/inference/service.py:963-970 | however the run goes on, nothing is sent after an answer, a possible acceptance, a never-fall-back failure, a fault or a cancellation |
| `InferenceTheorems.EndedCallsStay` | saas_os/control_plane/inference/service.py:523-534 | a call that returned or raised, over an unsettled attempt too, never acts again |
| `InferenceTheorems.AttemptsAreNumbered` | saas_os/control_plane/inference/service.py:790-1049 | a request's rows are numbered 1 to n, n at most three per candidate, at most one `started` and it is the newest, also when settlement fails |
| `InferenceTheorems.DeadlinesHold` | saas_os/control_plane/inference/service.py:833-835 | every attempt passed its deadline check in time; a row is abandoned only after its call's deadline and the margin |
| `InferenceTheorems.SleepsEndInTime` | saas_os/control_plane/inference/service.py:971-981 | no backoff sleep crosses the deadline |
| `InferenceTheorems.SettledInTimeStays` | saas_os/control_plane/inference/service.py:705-710 | an attempt settled within the margin after its deadline keeps that settlement for ever, whatever other calls sweep |
| `InferenceTheorems.ReturnedOutput` | saas_os/control_plane/inference/service.py:1000-1049 | returned output has a succeeded row, or one abandoned later than deadline and margin |
| `InferenceTheorems.SucceededUnlessSwept` | saas_os/control_plane/inference/service.py:474-520 | at the settling step an acknowledged answer is returned in any case, over a succeeded row if and only if no sweep had taken the row |
| `InferenceTheorems.ReturnedThoughAbandoned` | saas_os/control_plane/inference/service.py:482-483 | one millisecond past deadline and margin, for any configuration that routes at all, output is returned while its row is abandoned and its usage recorded nowhere |
| `InferenceService.BeginAttempt` | saas_os/control_plane/inference/service.py:387-456 | a row exactly when the re-check passed and the write committed; an id only when the commit was acknowledged |
| `InferenceService.SettleAttempt` | saas_os/control_plane/inference/service.py:523-534 | the ledger after a settlement whose commit or acknowledgement may fail |
| `InferenceService.AfterProviderFailure` | saas_os/control_plane/inference/service.py:963-981 | raise, retry after a sleep, retry at once or fall back, in agreement with the machine |
| `InferenceService.FinishAttempt` | saas_os/control_plane/inference/service.py:864-1049 | exchange, settlement and choice of one attempt leave ledger and call as the machine does |
| `InferenceService.RetryCandidate` | saas_os/control_plane/inference/service.py:833-981 | the retry loop at one candidate likewise |
| `InferenceService.AttemptAll` | saas_os/control_plane/inference/service.py:779-1049 | the nested loops end with the ledger and the result of the machine's call scheduled alone in the same environment |
| `InferenceService.OutcomeIsUnique` | saas_os/control_plane/inference/service.py:779-1049 | in one environment a call can end in one way only, so the previous row fixes ledger and result |
| `InferenceService.DrivenIsReachable` | saas_os/control_plane/inference/service.py:779-1049 | what the loops do is an interleaving of the machine, so every theorem about reachable states applies to them |
| `Accounting.CostIsNearest` | saas_os/control_plane/inference/accounting.py:72-101 | an estimate exists if and only if price and counts are known, and is within half of 10^-8 of the true price |
| `Accounting.CostIsMonotone` | saas_os/control_plane/inference/accounting.py:72-101 | more input or output never costs less |
| `Accounting.CachingSavesExactlyWhenCheaper` | saas_os/control_plane/inference/accounting.py:82-101 | more cached input never raises the true price, for all counts, if and only if the cached rate is at most the input rate |
| `Accounting.CachedEstimateNeverRises` | saas_os/control_plane/inference/accounting.py:82-101 | nor then the rounded estimate |
| `Accounting.AdmittedExactly` | saas_os/control_plane/inference/accounting.py:132-188 | a request is admitted if and only if the plan is readable and sets no limit where none is required, or sets one that the projection fits |
| `Accounting.EstimatedUsageFits` | saas_os/control_plane/inference/service.py:537-566 | usage estimated from bytes stays within the projection if and only if the text is within four bytes a token of the allowance |
| `Quota.RecordedPlusPendingIsBounded` | saas_os/control_plane/inference/accounting.py:151-188 | over every interleaving in a month: recorded + pending <= limit + overlap at the newest admission + what was recorded beyond its projection |
| `Quota.OvershootIsOverlap` | saas_os/control_plane/inference/service.py:753-760 | if nobody exceeds its projection the month's total exceeds the limit by at most the overlap |
| `Quota.SerialNeverExceeds` | saas_os/control_plane/inference/service.py:753-760 | if nobody is admitted while another admitted request may still record, it never exceeds the limit |
| `Quota.OverlapIsReached` | saas_os/control_plane/inference/service.py:753-760 | any number of requests that pass the check before one settles reach exactly limit + overlap |
| `InferenceQuota.GovernedRunsAreQuotaRuns` | saas_os/control_plane/inference/service.py:753-775 | every interleaving of inference calls in which a call is admitted only past its quota check is, beside it, a run of the quota machine on the same ledger; its flights are of distinct calls past their admission, each with exactly what that call may still record, and they sum to what all calls in flight may record |
| `InferenceQuota.OverlapIsSetAtAdmission` | saas_os/control_plane/inference/accounting.py:162-188 | the overlap becomes the sum of what the calls in flight may still record when a call is admitted, and no other step changes it |
| `InferenceQuota.LedgerStaysWithinQuota` | saas_os/control_plane/inference/accounting.py:151-188 | on those interleavings: recorded + what the calls in flight may still record <= limit + overlap + what was recorded beyond its projection |
| `InferenceQuota.ModestCallsOvershootByOverlap` | saas_os/control_plane/inference/service.py:753-760 | if no answer reports more than its call was projected to use, the ledger exceeds the limit by at most what the calls in flight could record in the state where the newest call was admitted |
| `Approvals.AlwaysSeparated` | saas_os/control_plane/approvals/models.py:75-81 | over every interleaving and crash the tool runs only as the proposer under an approval by somebody else |
| `Approvals.ExecutedAtMostOnce` | saas_os/control_plane/approvals/service.py:192-297 | while no approval overlaps another decision on its request: one claim at a time, at most one completion, exactly one when `executed`, none while pending or rejected |
| `Approvals.FinalStays` | saas_os/control_plane/approvals/service.py:105-297 | under the same condition `rejected` and `executed` are final |
| `Approvals.OverlapBreaksFinality` | saas_os/control_plane/approvals/service.py:114-177 | the condition is exact: from any overlap some continuation runs the tool again after `executed`, or after `rejected` |
| `Approvals.OverlapHappens` | saas_os/control_plane/approvals/service.py:105-177 | the overlap is reachable for any proposer and any other user |
| `Approvals.RefusedAtTheWrite` | saas_os/control_plane/approvals/models.py:75-81 | over every run a decision that passed its check is refused at its write if and only if it is a rejection by the proposer |
| `Approvals.ProposerPassesTheCheck` | saas_os/control_plane/approvals/service.py:159-164 | such a rejection does pass its check |
| `Approvals.StuckExactly` | saas_os/control_plane/approvals/service.py:192-297 | from any state a row at `executing` stays there along every run if and only if nobody executes it and no decision on it is still to be written |
| `Approvals.ExecutingResolvesExactly` | saas_os/control_plane/approvals/models.py:64-71 | while no approval overlaps another decision: some continuation ends it at `executed` or `approved` if and only if somebody executes it |
| `Approvals.CrashStrands` | saas_os/control_plane/approvals/service.py:238-297 | an executor that dies, or whose last transaction fails, strands its request, for any proposer and any other user, without any overlap |
| `Approvals.LateApprovalFrees` | saas_os/control_plane/approvals/service.py:132-141 | with an overlap the late approval puts such a row back to `approved` |
| `Approvals.ApprovalService.ProposeAction` | saas_os/control_plane/approvals/service.py:46-83 | afterwards anybody but the proposer passes the approval check, nobody can claim, and every other request is as it was |
| `Approvals.ApprovalService.CheckDecision` | saas_os/control_plane/approvals/service.py:114-130 | the first transaction of a decision, on whatever the table holds |
| `Approvals.ApprovalService.WriteDecision` | saas_os/control_plane/approvals/service.py:132-141 | the second, on whatever the table holds by then: no look at the status, the table's constraint only |
| `Approvals.ApprovalService.EndExecution` | saas_os/control_plane/approvals/service.py:282-297 | what follows the tool, on whatever the table holds by then |
| `Approvals.ApprovalService.Decide` | saas_os/control_plane/approvals/service.py:105-189 | approve and reject with nothing in between: the machine's two steps, each error, and nothing changed on error |
| `Approvals.ApprovalService.ClaimForExecution` | saas_os/control_plane/approvals/service.py:192-235 | the compare-and-swap claim |
| `Approvals.ApprovalService.ExecuteApproved` | saas_os/control_plane/approvals/service.py:238-297 | the machine's steps with nothing in between; a failing tool leaves the table as it was |
| `Folding.StartsOver` | saas_os/api/tenant_bootstrap.py:58-66 | for any sequence of find-or-create steps: if the steps taken have nothing left to do, starting over continues where the cut run stopped |
| `Bootstrap.Resumes` | saas_os/api/tenant_bootstrap.py:485-536 | a second run after `m` changes equals one run cut at the later point |
| `Bootstrap.Converges` | saas_os/api/tenant_bootstrap.py:297-402 | cut after any steps any number of times, then run to the end: not refused, and the state of one uncut run but for the owner's user number; exactly that state if and only if the identity was known or no cut fell between the new user and its link before a run got past the link; one user more for each such cut |
| `Bootstrap.OrphansStayUnreferred` | saas_os/core/identity/service.py:252-287 | the users such cuts leave behind exist and nothing refers to them; the owner is the user after them |
| `Bootstrap.WholeProvisions` | saas_os/api/tenant_bootstrap.py:485-536 | a run ends with exactly one tenant of the name, active, with owner, role, every grant, membership and assignment |
| `Bootstrap.ConflictChangesNothing` | saas_os/api/tenant_bootstrap.py:297-332 | a conflict changes nothing |
| `Bootstrap.RepeatIsNoop` | saas_os/api/tenant_bootstrap.py:58-66 | repeating a completed run changes nothing and reports nothing created |
| `Bootstrap.NoAuthorityBeforeAssignment` | saas_os/api/tenant_bootstrap.py:385-402 | from a state where the owner holds nothing in the tenant, no sequence of runs each cut before the assignment gives it a permission there |
| `Bootstrap.AuthorityAtTheEnd` | saas_os/api/tenant_bootstrap.py:405-413 | at the end each permission is held unless the owner is inactive or denied, or suspended and not entitled by delegation, support access or a role further up |
| `Bootstrap.DryRunRefusesAlike` | saas_os/api/tenant_bootstrap.py:419-482 | the dry run refuses if and only if the real run does, for the same reason |
| `Bootstrap.DryRunAnnouncesAlike` | saas_os/api/tenant_bootstrap.py:419-482 | it announces a tenant, activation, owner, role or membership if and only if the real run creates it |
| `Bootstrap.MissingIsCreated` | saas_os/api/tenant_bootstrap.py:419-482 | what it announces "if missing": the real run creates exactly the grants and the assignment that the store lacks |
| `BootstrapCommand.Core.FindTenantsByName` | saas_os/core/tenancy/service.py:251-269 | all tenants of that name, oldest first |
| `BootstrapCommand.Core.ResolveTenant` | saas_os/api/tenant_bootstrap.py:297-332 | the tenant-name rule and the first change |
| `BootstrapCommand.Core.EnsurePermissionGrants` | saas_os/api/tenant_bootstrap.py:366-374 | the grant loop makes the program's changes and reports the missing ones |
| `BootstrapCommand.Core.VerifyOwnerAuthority` | saas_os/api/tenant_bootstrap.py:405-413 | nothing missing if and only if the owner holds every permission |
| `BootstrapCommand.Core.BootstrapFirstTenant` | saas_os/api/tenant_bootstrap.py:485-536 | a refused run changes nothing; any other makes the whole program's changes, reports exactly the steps that acted and succeeds if and only if the owner holds every permission |
| `RoutePolicy.OnlyTheSetMatters` | saas_os/api/route_policy.py:160-195 | a route's policy depends only on the set of markers |
| `RoutePolicy.ExtendingAddsMarkers` | saas_os/api/route_policy.py:152-157 | a dependency added anywhere in the tree adds exactly its markers |
| `RoutePolicy.ExtendingNeverWeakens` | saas_os/api/route_policy.py:152-195 | it gives a violation, the same policy, or a permission in place of mere authentication |
| `RoutePolicy.SplitUndoesJoin` | saas_os/api/route_policy.py:218-218 | joining and splitting the method list is a round trip |
| `RoutePolicy.LabelGivesMethods` | saas_os/api/route_policy.py:276-276 | the label gives back the route's methods; none reads as unsafe |
| `RouteChecks.AssertRoutePolicies` | saas_os/api/route_policy.py:205-246 | the loop returns the map, or every finding in order, of the specification pass |
| `RouteChecks.MapKeepsLast` | saas_os/api/route_policy.py:234-234 | the map holds the newest registration's policy of each label |
| `RouteChecks.FirstCheckIsExact` | saas_os/api/route_policy.py:205-246 | the first check passes if and only if every route is sound and no two registrations of a label conflict, though it compares neighbours only |
| `RouteChecks.AssertPlatformRouteRules` | saas_os/api/route_policy.py:255-287 | exactly the findings of the two platform rules |
| `RouteChecks.CheckApplication` | saas_os/api/route_policy.py:205-287 | both checks together |
| `RouteChecks.EveryPlatformRouteIsCovered` | saas_os/api/route_policy.py:205-287 | if both pass, every registered platform route, overwritten ones too, is enabled, has its label's one policy, and requires a fresh session when it changes authority |
| `RouteChecks.OverwritingHides` | saas_os/api/route_policy.py:224-234 | without the label rule a later registration hides a platform route from the second check |
| `CredentialLimit.LookupsAreBounded` | saas_os/api/dependencies.py:196-289 | in every window, requests in flight from the previous one included: lookups <= limit + K - 1 + uncounted refusals + unanswered checks |
| `CredentialLimit.BoundIsReached` | saas_os/api/dependencies.py:196-215 | for every limit and K some window with every step answered reaches limit + K - 1 |
| `CredentialLimit.FailureCounter.RefuseFailingCredential` | saas_os/api/dependencies.py:223-236 | the check, on whatever the count is; fails open |
| `CredentialLimit.FailureCounter.CountCredentialFailure` | saas_os/api/dependencies.py:239-247 | the count, on whatever it is by then |
| `CredentialLimit.FailureCounter.AuthenticateSession` | saas_os/api/dependencies.py:274-289 | one request with nothing in between: when it looks up, what it answers, what it counts; the machine's three steps |
| `Numerals.PrintThenParse` | scripts/release.py:108-108 | printing gives a canonical numeral of the same value |
| `Numerals.ParseThenPrint` | scripts/release.py:108-108 | a canonical numeral is the print of its value |
| `Patterns.MatchesExactlyTheRendering` | scripts/release.py:108-114 | a pattern matches a text with given values if and only if the text is their rendering |
| `SupportLines.FindSupportLines` | scripts/release.py:438-467 | the scanning loop computes the specification scan |
| `SupportLines.NothingIsLost` | scripts/release.py:438-467 | visible plus hidden lines are all lines that start with the prefix; never in a code block and a comment at once |
| `SupportStatement.SupportProblem` | scripts/release.py:470-520 | no problem if and only if the visible statements are the canonical one alone |
| `SupportStatement.AcceptedExactly` | scripts/release.py:470-520 | accepted if and only if the one visible line is the canonical text for the version and the releases before it |
| `SupportStatement.OneTextOnly` | scripts/release.py:470-520 | two accepted entries of a release show the same line |
| `SupportStatement.CanonicalLineIsAccepted` | scripts/release.py:438-520 | that line, alone, is found and accepted |
| `SupportStatement.NewestBelowMeans` | scripts/release.py:509-512 | the previous release is the greatest one below, and absent only if there is none |
| `SupportStatement.TagRoundTrip` | scripts/release.py:162-166 | a tag parses to a version if and only if it is that version's print, with or without one final newline |
| `SupportStatement.PreviousReleasesAgree` | scripts/release.py:556-573 | when the version-order check passes, the line to name is that of the release it follows, if and only if the version's own tag has no twin with a final newline |

## Left out

- `CircuitBreaker`: whether a circuit is open is a parameter of each candidate; its counters would add one-branch members.
- Caller types and audit rows of `run_inference`: they change none of the modelled state.
- `_consumer_error` and secrecy of messages: a mapping of error categories to error classes.
- `month_window`, `price_in_effect`, `quota_required`: calendar arithmetic and single lookups.
- Cached and cache-write token columns, cost columns and provider request ids of an attempt row: written with the other columns in the same transaction and never read by the protocol.
- `_settle` reads the clock before its transaction; the model reads it in the transaction. Nothing proved depends on the difference.
- `dispatch_outbox_once` counters and `DispatchReport`: sums over one cycle.
- `last_error` texts and their tags: the retry deadline that a tag stores is a field of its own here.
- Exception groups whose own class is classified (a group class that is itself a timeout or an ambiguous outcome): groups here have members only.
- `lock_open_tenant` in approvals: a closed tenant is a decision or execution that stops.
- Payload, tool key and data-authorization decision of an approval: passed through unread; they are one opaque action here.
- How delegations, support access and ancestor roles entitle a user in `can()`: the bootstrap neither creates nor removes them; what they entitle to is given as a set.
- `validate_request` of the bootstrap, `--confirm-production` and audit rows: input checks, and rows that a cut may lose by design.
- Tenant statuses other than pending and active: two stand for all of them, since the command refuses each alike.
- Concurrent bootstrap runs: one run at a time, as the command is used.
- `_documentation_paths`: the set of documentation URLs is a parameter.
- Unicode whitespace beyond ASCII in `strip()`, and `splitlines()`: texts come as lines, and the ASCII whitespace characters are stripped.
- Remaining GitHub, changelog and notes checks of `scripts/release.py`: I/O and formatting.
- Redis, SQLAlchemy, FastAPI, ARQ, httpx and provider adapters: atomic steps or arbitrary outcomes.
- InferenceService.AttemptAll: with no other call acting in between; interleavings are the subject of InferenceRuns and InferenceTheorems.
- OutboxJob.RunOutboxEvent: with no other job acting in between; interleavings are the subject of OutboxRuns.
- Approvals.ApprovalService.Decide: with nothing between its two transactions; each alone is CheckDecision and WriteDecision, interleavings are the subject of the machine.
- Approvals.ApprovalService.ExecuteApproved: with nothing between its transactions; each alone is ClaimForExecution and EndExecution.
- CredentialLimit.FailureCounter.AuthenticateSession: with no other request in between; interleavings are the subject of LookupsAreBounded.
- InferenceTheorems.DeadlinesHold: the deadline is checked before the row is committed, so the commit itself may come after the deadline; the source promises no more.
- InferenceQuota.ModestCallsOvershootByOverlap: one fixed limit, from an empty ledger; a limit changed during a month is a new run of Quota from the ledger it finds.
- The entitlement check and the concurrency slot: in InferenceRuns an admission may fail for any reason; in InferenceQuota it succeeds only past the quota check.
- CredentialLimit.LookupsAreBounded: one credential; the fingerprint is assumed not to collide.
