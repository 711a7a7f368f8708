# Verified model of the host's stateful cores

The host accepts goals from people, runs agents on them, and keeps every decision in a transactional store. This
project models the parts of it where several actors race or where history must stay true, and proves what those parts
promise: for every input, every interleaving of steps and every reachable state.

A kernel transaction is one atomic step. Where the host updates projections in place, the model has a class whose
methods are proved equal to a step function; the step functions are then studied over whole runs. Digests are
injective: two digests are equal only for equal contents, so a digest is modelled by the content itself. The verdicts
of membership, plug-in, model and resource checks enter a step as inputs, because such a check can only block the step.

| Files | What they model |
|---|---|
| `Followup`, `FollowupSafety`, `FollowupRules`, `FollowupStore` | recovery workers that claim business changes, reserve period budget and dispatch runs, racing with pause, resume, stop and invalidation |
| `GoalModel`, `GoalService`, `TeamGoals`, `GoalSafety`, `GoalOutcomes`, `GoalStore`, `GoalOutputs` | the life of goals, run by one execution or by a team: mutations with receipts, settlement of usage, cancellation, delivery and acceptance |
| `DeliveryDecisions`, `Rework`, `ReworkRules` | partial decisions on a delivery, rework rounds that split what is left of the budget, and the attempts admitted for them |
| `Reconciliation`, `ReconciliationSafety`, `ReconciliationTasks` | calls to external runners whose outcome is unknown: verification, termination, replacement, cleanup |
| `McpReads`, `McpReadSafety`, `McpReadOutcomes` | external reads by workers that crash, lose their lease or lose an acknowledgement |
| `Idempotency`, `IdempotencyAnswers` | in-flight and durable idempotency of callers on several hosts |
| `EventDelivery`, `EventStreams`, `Decimal` | the event stream from the log through server and connection to the desktop, with cursors and reconnects |
| `AgentScheduler`, `SchedulingRules`, `Wilson`, `Sorting` | the choice of an agent: quality bound, price, comparison, selection |
| `Csv`, `CellLabels`, `Extraction` | the CSV automaton, spreadsheet labels, and extraction of a table into limited blocks |
| `MaterialSelection` | choosing the blocks of a document that fit a byte budget |
| `BusinessContext`, `BusinessFacts`, `BusinessHistory` | the versioned business state, its snapshots and the references into it |
| `Options` | the two shared result shapes |

The safety modules prove what holds over whole runs. The modules of rules, outcomes, answers, tasks and facts say, in terms
of the stored records and not of the step functions, exactly when a step does what it is for, and what it then stores.

## Findings

- A follow-up claim reads the clock twice: once to look for room in a period and again to date the run
  (apps/host/src/followup-runtime.ts:68 and :80). `FollowupSafety.BudgetKeptExactlyWhen`: a claim keeps the period
  budget in every state exactly when both readings fall into the same period, whichever of them is later. For any two
  readings that do not, `OverfullPeriodsAreReachable` gives a run of the system that overfills a period. What is enough
  over whole runs is that the readings agree: they name one period, or nothing is recorded yet in the period of the
  second (`PeriodBudgetHolds`). One clock that never goes back, not even between workers, has that effect
  (`ForwardClockAgrees`); the host does not ensure it.
- A user who cancels a follow-up's goal before it is dispatched blocks the policy. Observing keeps the run pending, since
  its goal has neither execution nor reservation (apps/host/src/followup-runtime.ts:35-38), every later claim hands the
  run out again (:58-59), and the dispatch returns at once (:102). `FollowupSafety.CancelledGoalsBlockPolicies`: no run is
  added until the grant is stopped, expires or is invalidated, which alone cancels the run; it is reached in
  `BlockedPoliciesAreReachable`.
- A decision carries out what the review page offers, with two exceptions (`ReconciliationSafety.PageAndDecisionAgree`).
  A page made without the readiness resolver may list a new call that is refused. And a verification whose worker was
  stopped or failed before it recorded a verdict leaves its call pending with a job that is over: the page offers to
  terminate the call (apps/host/src/coding-reconciliation.ts:201-213), the decision refuses it (:868-880), and no later
  step ever settles it (`StuckCallsStayStuck`, reached in `StuckCallsAreReachable`).
- A verification job does stand beside a cleanup job of its call: the worker records a passed verdict together with the
  cleanup job (apps/worker/src/coding.ts:3405-3407) and closes its own job in a later transaction
  (apps/worker/src/index.ts:357). `OverlapExactlyWhen` says when, `PassedVerificationsOverlap` that every passed verdict
  leads there, and `OverlapIsHarmless` that such a job has nothing more to record. `OverlapIsReachable` is such a run.
- A cancelled team goal is taken up again by an observation exactly when its settled usage exceeds its budget
  (`GoalSafety.CancelledTeamReopensExactlyWhen`): apps/host/src/team-goals.ts:234 compares the budget before :236 looks
  at the cancellation, while single goals are observed the other way round. Cancelling again then changes nothing
  (apps/host/src/team-goals.ts:311). `CancelledTeamsAreReopened` is such a run: overrun, cancel, refresh.
- The scheduler's comparison is an order for every request except one that names a command-line runner together with a
  model. There the model preference, which only compares two unmeasured candidates, can form a circle with measured
  ones (`AgentScheduler.RanksExactlyWhen`). The caller offers one candidate per command-line runner, so the circle needs
  a caller of `chooseAgent` that offers more.
- In the CSV reader the separate test for a final comma never decides anything (`Csv.FinalCommaNeverDecides`).

## Model

| member | source | states |
|---|---|---|
| FollowupSafety.PeriodBudgetHolds | apps/host/src/followup-runtime.ts:30-88 | after any interleaving of claims whose two clock readings agree with any dispatches, commands, recoveries and goal changes, from an accepted definition: a period has at most its number of runs, and what is reported for it as settled, reserved and unknown is within its token and cost limit plus the overruns of single runs |
| FollowupSafety.ForwardClockAgrees | apps/host/src/followup-runtime.ts:68-80 | claims that read one clock that never goes back have agreeing readings throughout |
| FollowupSafety.RunLimitsHold | apps/host/src/followup-runtime.ts:50-88 | over every run, whatever the clocks show: at most `maxRuns` runs, at most one of them pending, no source change claimed twice |
| FollowupSafety.RunsStartOnceWhileActive | apps/host/src/followup-runtime.ts:89-111 | in the event history of any run, a follow-up run starts at most once, after it was reserved, only while the policy is active, and never both starts and is cancelled while pending |
| FollowupSafety.HistoryMatchesRecords | apps/host/src/followups.ts:55-61 | the stored runs agree with the history: an execution is named exactly by started runs, and a run cancelled while pending never gets one |
| FollowupSafety.RunsFollowChanges | apps/host/src/followup-runtime.ts:50-88 | over every run, each follow-up run was claimed for other content than the one before it, the first for other content than at creation; the cursor is the content claimed last, and every run reserves the whole cap |
| FollowupSafety.NoChangeNoRun | apps/host/src/followup-runtime.ts:65-67 | as long as the source shows the content claimed last, no step adds a run or moves the cursor |
| FollowupSafety.BudgetKeptExactlyWhen | apps/host/src/followup-runtime.ts:68-80 | for any two clock readings of a claim: a claim with them keeps all periods within limits in every state exactly when both fall into the same period |
| FollowupSafety.OverfullPeriodsAreReachable | apps/host/src/followup-runtime.ts:68-80 | for any two readings in different periods, a run from an accepted definition, with agreeing readings up to its last claim, overfills a period |
| FollowupSafety.CancelledGoalsBlockPolicies | apps/host/src/followup-runtime.ts:30-88 | once the goal of a pending run is cancelled before its dispatch, no step of any further run adds a follow-up run or moves the cursor; the run is pending exactly as long as the grant is open, and cancelled when it closes |
| FollowupSafety.BlockedRunsNeverStart | apps/host/src/followup-runtime.ts:89-111 | as long as the grant is open, every authorised claim of the active policy hands that run out, and no start succeeds |
| FollowupSafety.BlockedPoliciesAreReachable | apps/host/src/followup-runtime.ts:50-88 | a run from an accepted definition leads there: a claim, then the user cancels the new goal |
| FollowupSafety.DetailAddsCharges | apps/host/src/followups.ts:75-89 | the three reported totals add up to the charges of the period's runs, and the count to their number |
| FollowupSafety.ChargesAreBasePlusOverruns | apps/host/src/followups.ts:71-87 | a period is never charged more than the reservations of its open runs plus their overruns, and exactly that while the grant is open |
| FollowupSafety.RecordedUsageNeverFalls | apps/host/src/followup-runtime.ts:30-49 | over any further run a recorded follow-up run keeps its identity, period and reservation, its usage never falls and its base never grows |
| FollowupSafety.StepKeepsInv | apps/host/src/followup-runtime.ts:21-111 | every step of every actor, whatever its clock shows, keeps run records and event history consistent, and either adds no run or is a claim that adds one |
| FollowupRules.ClaimAddsRunExactlyWhen | apps/host/src/followup-runtime.ts:50-88 | a claim adds exactly one run exactly when the policy is active, unexpired, authorised and below its number of runs, every recorded run is accepted, cancelled, failed or awaiting acceptance once observed, the source shows new content not claimed before, and the period has room for the full cap in both amounts |
| FollowupRules.UnfinishedRunsHoldBackClaims | apps/host/src/followup-runtime.ts:58-60 | in every reachable state of an accepted definition, a claim that adds a run leaves every earlier run accepted, cancelled, failed or awaiting acceptance |
| FollowupRules.OtherClaims | apps/host/src/followup-runtime.ts:50-88 | a claim that adds nothing hands out the pending run, waits for an unfinished one, closes or exhausts the grant, or does nothing, each under its own condition |
| FollowupRules.RunsFollowTheirGoals | apps/host/src/followup-runtime.ts:30-49 | a dispatched goal gives its run its outcome exactly when the books agree with it: usage known where the goal is closed, within the reservation, and not below what was recorded; otherwise the run needs reconciliation |
| FollowupRules.PeriodHoldsItsReadings | apps/host/src/followups.ts:62-65 | a reading from creation on lies within its period, and periods are whole multiples from the creation |
| FollowupRules.TotalsAreSums | apps/host/src/followups.ts:75-89 | settled, reserved and unknown totals are the sums of the recorded usage, of the open parts of reservations still held, and of those of runs to be reconciled |
| FollowupRules.TotalsFailExactlyWhen | apps/host/src/followups.ts:67-70 | the totals fail exactly for a foreign currency or for a sum of tokens beyond the safe integers |
| FollowupRules.StartsExactlyWhen | apps/host/src/followup-runtime.ts:89-111 | a start succeeds exactly for the pending run of a planned, undispatched goal under an active, unexpired, authorised policy; it binds one execution to run and goal and reserves the budget |
| FollowupRules.CommandsExactlyWhen | apps/host/src/followups.ts:122-135 | pausing, resuming and stopping succeed exactly from the statuses they are meant for, at the current version |
| FollowupStore.PolicyStore.FollowupDetail | apps/host/src/followups.ts:75-89 | the accumulating loop returns the totals of the specification, and fails exactly when they cannot be added |
| FollowupStore.PolicyStore.Observe | apps/host/src/followup-runtime.ts:30-49 | the observing loop brings every run to its goal's state and appends one event for each changed run |
| FollowupStore.PolicyStore.CancelPendingFollowups | apps/host/src/followups.ts:55-61 | exactly the pending runs without execution are cancelled at zero usage |
| FollowupStore.PolicyStore.InvalidateGrant | apps/host/src/followup-runtime.ts:21-28 | the policy expires or is invalidated and its pending runs are cancelled |
| FollowupStore.PolicyStore.ClaimRun | apps/host/src/followup-runtime.ts:50-88 | the claim transaction, branch by branch, with a thrown error leaving the state as it was |
| FollowupStore.PolicyStore.StartRun | apps/host/src/followup-authority.ts:51-68 | a start passes the policy, run and goal gates again before the run gets its execution |
| FollowupStore.PolicyStore.CommandFollowup | apps/host/src/followups.ts:122-135 | pause, resume and stop with receipts and version check; stop also cancels pending runs |
| FollowupStore.RecoveryCursor.Round | apps/host/src/followup-runtime.ts:112-128 | one recovery round visits up to twenty consecutive policies from the stored position and moves it on |
| FollowupStore.EveryPolicyIsVisited | apps/host/src/followup-runtime.ts:118-124 | as many consecutive visits as there are policies leave none out, for a list that does not change |
| FollowupStore.RoundsJoin | apps/host/src/followup-runtime.ts:118-124 | consecutive rounds over a list that does not change are one longer round |
| GoalSafety.OutcomesAreSettled | apps/host/src/goals.ts:331-424 | over every run of the goal and team services: awaiting, failed and accepted goals have usage settled in their currency and within both limits; a cancelled goal is settled if it was dispatched, and its execution is finished |
| GoalSafety.ThreadsAreExclusive | apps/host/src/goals.ts:263-290 | over every run, with single starts, team starts and reworks, at most one goal of a thread holds an execution or group with unsettled usage |
| GoalSafety.StepsEvolveGoals | apps/host/src/goals.ts:193-224 | every step but a goal's own start obeys the contract the follow-up scheduler relies on, and a settled amount changes only when a rework archives it |
| GoalSafety.FinalGoalsStay | apps/host/src/goals.ts:382-424 | accepted goals, and cancelled ones that are single or within budget, keep status and usage through any further run |
| GoalSafety.CancelledTeamReopensExactlyWhen | apps/host/src/team-goals.ts:220-250 | an observation of a cancelled team goal leaves it cancelled exactly when its usage is within budget; otherwise it awaits reconciliation, and cancelling it once more changes nothing |
| GoalSafety.CancelledTeamsAreReopened | apps/host/src/team-goals.ts:306-332 | a run from an empty tenant in which a team overruns its budget, is cancelled and is reopened by a refresh |
| GoalSafety.HistoryOnlyGrows | apps/host/src/goal-delivery-service.ts:298-338 | archived rounds are never rewritten, over any run |
| GoalSafety.MutationsReplay | apps/host/src/goals.ts:92-134 | a carried-out mutation repeated after any further steps changes nothing and answers with the goal stored then: without its delivery, or with an error, where that can no longer be read; and its key answers no other input or version |
| GoalSafety.StepKeepsInv | apps/host/src/team-goals.ts:194-332 | every step of the goal and team services keeps settlement, binding, execution and thread invariants of all goals |
| GoalSafety.DeliveriesAreCompletedWork | apps/host/src/goals.ts:331-372 | over every run: a goal that awaits acceptance or is accepted has a delivery, and a single goal with a delivery has a completed execution |
| GoalOutcomes.AwaitsAcceptanceExactlyWhen | apps/host/src/goals.ts:331-372 | an observation puts a goal up for acceptance exactly when its execution completed, nobody asked to cancel, its usage is settled within budget, and the outputs are judged complete and are the delivery registered, if one is; the delivery is the judged one |
| GoalOutcomes.FailsExactlyWhen | apps/host/src/goals.ts:331-372 | an observation fails a goal exactly when, in budget and uncancelled, its execution failed or was cancelled, or completed with outputs that are incomplete or unreadable |
| GoalOutcomes.CancellationEndsExactlyWhen | apps/host/src/goals.ts:331-372 | an observation carries out a requested cancellation exactly when the execution ended and its usage is known |
| GoalOutcomes.ObservesExactlyWhen | apps/host/src/goals.ts:331-372 | an observation fails exactly for a closed, undispatched or unauthorised goal, for usage that does not fit, and in budget for outputs that are refused or not the registered ones |
| GoalOutcomes.AccountsExactlyWhen | apps/host/src/goals.ts:193-224 | the accounting pass leaves undispatched and accepted goals alone, and otherwise fails exactly for usage that does not fit |
| GoalOutcomes.AccountingVerdicts | apps/host/src/goals.ts:193-224 | the accounting pass fails a broken execution in budget and keeps every other status the books allow |
| GoalOutcomes.StartsExactlyWhen | apps/host/src/goals.ts:263-290 | a start succeeds exactly for the planned goal of a thread nobody else uses; it reserves the whole budget and queues one execution of that thread |
| GoalOutcomes.CancelsExactlyWhen | apps/host/src/goals.ts:382-397 | cancelling succeeds exactly for an open single goal whose execution has ended, ends now or is lost |
| GoalOutcomes.CancelledGoalsSayWhatIsOpen | apps/host/src/goals.ts:382-397 | a goal is cancelled exactly when nothing was dispatched for it or its execution has ended with settled usage; otherwise it is to be reconciled |
| GoalOutcomes.BillsOnceExactlyWhen | apps/host/src/goals.ts:309-327 | an external bill is taken exactly once, for an ended execution without settled usage, in the currency of the goal |
| GoalOutcomes.AcceptsExactlyWhen | apps/host/src/goals.ts:398-424 | a delivery is accepted exactly when it is the registered one of a goal that awaits acceptance, reviewed and authorised |
| GoalOutcomes.TeamAwaitsAcceptanceExactlyWhen | apps/host/src/team-goals.ts:220-250 | a report on a group puts its goal up for acceptance exactly when the group completed in budget, nobody asked to cancel, and the outputs are judged complete and are the delivery registered, if one is |
| GoalOutcomes.TeamFailsExactlyWhen | apps/host/src/team-goals.ts:220-250 | a report fails its goal exactly when the group failed or stopped in budget, or completed with outputs that are incomplete or unreadable |
| GoalOutcomes.TeamObservesExactlyWhen | apps/host/src/team-goals.ts:220-250 | of goals nobody asked to cancel, a report is refused exactly for a goal or status it may not move, usage that does not fit, or outputs that are refused or not the registered ones |
| GoalOutcomes.TeamCommandsExactlyWhen | apps/host/src/team-goals.ts:306-332 | each team command succeeds exactly for the goals and groups it is meant for, and leaves the status it asks for |
| GoalOutcomes.ReworksExactlyWhen | apps/host/src/goal-delivery-service.ts:298-338 | a rework is confirmed exactly for a settled outcome with a delivery, in a thread nobody else uses, for a plan that is not archived |
| GoalOutcomes.MutatesExactlyWhen | apps/host/src/goals.ts:115-134 | a new mutation is carried out exactly at the goal's present version, when its change is allowed and its answer readable |
| GoalOutcomes.MutationsAreStored | apps/host/src/goals.ts:96-134 | it stores a changed goal at the next version, an unchanged one not at all, no other goal, and one receipt of what was asked and stored |
| GoalOutcomes.ReceiptsStandForRequests | apps/host/src/goals.ts:106-134 | the name and input a receipt is found by and compared with agree exactly for the same request |
| GoalOutcomes.PassesStoreWhatTheyFind | apps/host/src/goals.ts:373-381 | the background passes store what they find at the next version, and nothing when the goal did not change or the pass gave up |
| GoalStore.GoalProjections.MutateGoal | apps/host/src/goals.ts:115-134 | the mutation wrapper: receipt, version check, change, next stream version only for a changed goal, receipt, answer; a refusal or an unreadable answer puts every projection back |
| GoalStore.GoalProjections.CancelGoal | apps/host/src/goals.ts:382-397 | cancelling ends the execution unless it had ended, and the goal's status tells what that leaves open |
| GoalStore.GoalProjections.ObserveGoal | apps/host/src/goals.ts:331-372 | observing settles the reservation, then decides by cancellation, budget, unknown usage and the execution's status |
| GoalStore.GoalProjections.ObserveTeamGoal | apps/host/src/team-goals.ts:220-250 | observing a report on a group, where the budget is compared before the cancellation |
| GoalStore.GoalProjections.ReconcileGoalUsage | apps/host/src/goals.ts:193-224 | late usage settles a reservation once and moves the goal accordingly |
| GoalStore.GoalProjections.DecideGoalDelivery | apps/host/src/goal-delivery-service.ts:145-171 | accepting every required output accepts the goal; any other decision only bumps its version |
| GoalStore.GoalProjections.ConfirmGoalRework | apps/host/src/goal-delivery-service.ts:298-338 | a confirmed round archives the settled one, binds the goal to the new group and is refused while the thread is busy |
| GoalOutputs.CheckOutputs | apps/host/src/goals.ts:291-308 | the delivery check fails with the code of exactly the first fault, in the order form, criteria, checks, resources, evidence; it succeeds exactly when no output has a fault, and is positive exactly when also every required deliverable is there and every check passed |
| GoalOutputs.CheckAcceptance | apps/host/src/goals.ts:410-416 | the acceptance loop passes exactly when the accepted keys are a permutation of the delivered ones, at equal digests, with every review a permutation of the criteria |
| GoalOutputs.ReviewedExactlyWhen | apps/host/src/goals.ts:414-415 | the test by lengths, set size and look-ups holds exactly for permutations of the criteria |
| GoalOutputs.SetSizeFindsRepeats | apps/host/src/goals.ts:292-292 | comparing the size of the set of keys with the length of the list finds exactly the repetitions |
| DeliveryDecisions.LatestHoldsLastChoices | apps/host/src/goal-delivery-service.ts:145-171 | after any sequence of partial decisions, the latest one holds for each output the last explicit choice made for it, or a deferral |
| DeliveryDecisions.VersionsIncrease | apps/host/src/goal-delivery-service.ts:74-78 | versions of recorded decisions strictly increase |
| DeliveryDecisions.DecidesExactlyWhen | apps/host/src/goal-delivery-service.ts:145-171 | after any decisions, a request is recorded exactly when it names outputs of its set at their digests, at least one and none twice, and the criteria rules hold for it; earlier decisions never stand in the way |
| DeliveryDecisions.DecisionStore.DecideGoalDelivery | apps/host/src/goal-delivery-service.ts:145-171 | the loop that carries choices forward records exactly the decision of the specification, or changes nothing |
| Rework.Accounting | apps/host/src/goal-delivery-service.ts:179-217 | the accounting loop sums the imported execution and all attempts, and fails exactly on an unknown or foreign amount |
| Rework.RoundFitsTheBudget | apps/host/src/goal-delivery-service.ts:253-271 | usage counted at preview plus the budgets of all fresh agent nodes is within the goal budget, in tokens and cost |
| Rework.BudgetHoldsOverAllRounds | packages/kernel/src/coordination.ts:269-300 | over any previews, confirmations, admissions and settlements: the first execution's usage, settled usage and open reservations together exceed the goal's budget by no more than what single attempts used beyond their own budgets |
| Rework.ConfirmedRoundFitsTheBudget | apps/host/src/goal-delivery-service.ts:298-338 | after any run, the nodes started by a confirmation are those of a stored preview, and what it counted plus their budgets is within the goal budget; at every round the present usage is the counted one plus that of attempts admitted since |
| Rework.ConfirmedUsageIsPresent | apps/host/src/goal-delivery-service.ts:298-338 | when nothing was admitted between a preview and its confirmation, at any round the present usage plus the budgets of the started nodes is within the goal budget |
| Rework.ConfirmedRoundStaysWithinLimits | apps/host/src/goal-delivery-service.ts:119-134 | a confirmed round stays within twelve nodes, twenty-four attempts made or planned, and two rounds |
| Rework.RoundsStayWithinLimits | packages/kernel/src/coordination.ts:269-300 | over any previews, confirmations, admissions and settlements, nodes, attempts and rounds stay within their hard limits |
| Rework.AtMostTwoRounds | apps/host/src/goal-delivery-service.ts:119-134 | over any run at most two confirmations start a round, and the group counts each of them once |
| Rework.FormsAgree | apps/host/src/goal-delivery-service.ts:119-134 | a first execution that was imported counts exactly as a first attempt of the group would: over any run both forms take the same decisions and stay each other's image |
| ReworkRules.PreviewsExactlyWhen | apps/host/src/goal-delivery-service.ts:241-297 | a round is previewed exactly when all usage is known, the deadline is to come, both amounts leave a rest, and nodes, attempts and rounds stay within the limits of code, plan, group and policy |
| ReworkRules.PreviewsShareTheRest | apps/host/src/goal-delivery-service.ts:253-271 | every agent node that runs again gets the rest of both amounts divided by the number of such nodes; all other nodes keep their budgets |
| ReworkRules.ConfirmsExactlyWhen | apps/host/src/goal-delivery-service.ts:298-338 | a preview is confirmed exactly when it is of this goal, its deadline is to come, it counted the present round, version and deadline, and the limits still admit it |
| ReworkRules.LimitsOnlyTighten | apps/host/src/goal-delivery-service.ts:119-134 | a started round leaves the group with the tightest of all limits it was started under |
| ReworkRules.AdmitsExactlyWhen | packages/kernel/src/coordination.ts:269-300 | an attempt is admitted exactly when nothing is found against it, one more stays within every limit, it is budgeted in the currency of the group, and fits the cap beside what all attempts used or reserved |
| ReworkRules.AccountsExactlyWhen | apps/host/src/goal-delivery-service.ts:179-217 | the account is known exactly when every attempt is settled in the currency; it then adds up the first execution and all attempts |
| ReconciliationSafety.SettledOnceWithOneCleanup | apps/host/src/coding-reconciliation.ts:373-468 | over any decisions, replays, verdicts, finished calls and lost leases: an unknown call is settled at most once and has exactly one cleanup job once it is; any other cleanup job is the only one of a call that finished with a stopped runner |
| ReconciliationSafety.ReplacedCallsAreDead | apps/host/src/coding-reconciliation.ts:1071-1218 | a replaced call is cancelled, settled, its runner known to have stopped, and it is replaced once only |
| ReconciliationSafety.ChainsEndInOneLiveCall | apps/host/src/coding-reconciliation.ts:1071-1218 | following replacements never returns to an earlier call, and all but the newest call of a chain are cancelled |
| ReconciliationSafety.OverlapExactlyWhen | apps/worker/src/coding.ts:3405-3550 | over any run, a live verification job stands beside a cleanup job of its call exactly when the call is settled; then its verdict is on record and only its closing is due, and a pending verification never has a cleanup job beside it |
| ReconciliationSafety.PassedVerificationsOverlap | apps/worker/src/coding.ts:3405-3550 | recording a passed verdict always leads to that overlap |
| ReconciliationSafety.OverlapIsHarmless | apps/worker/src/index.ts:340-357 | through any further run the verdict of such a job stands and it can record nothing more |
| ReconciliationSafety.OneVerificationPerCall | apps/host/src/coding-reconciliation.ts:471-594 | a call has at most one verification job in its whole life |
| ReconciliationSafety.DecisionsNeverComplete | apps/host/src/coding-reconciliation.ts:778-858 | after a decision, a completed execution was completed before it |
| ReconciliationSafety.CompletionNeedsVerification | apps/host/src/coding-reconciliation.ts:471-594 | a settled call is completed only by a passed verification that a reviewer asked for, and otherwise cancelled |
| ReconciliationSafety.SettledCallsStay | apps/worker/src/coding.ts:845-866 | through any further run a settled call stays as it is, except that its cleanup is noted on it once |
| ReconciliationSafety.ReplaysAnswerAlike | apps/host/src/coding-reconciliation.ts:268-287 | a repeated decision gets the recorded response and changes nothing, after any further steps |
| ReconciliationSafety.RefusalsLeaveNoTrace | apps/host/src/coding-reconciliation.ts:679-714 | every run reaches the same state without its refused decisions, and what remains holds no refused one |
| ReconciliationSafety.PageAndDecisionAgree | apps/host/src/coding-reconciliation.ts:165-247 | in every reachable state a decision succeeds exactly when the page offers it at the same versions, it is no new call on a page made without a resolver, and the call is not stuck |
| ReconciliationSafety.StuckCallsStayStuck | apps/host/src/coding-reconciliation.ts:860-944 | a call whose verification job ended without a verdict is never settled in any further run, and every new decision on it fails |
| ReconciliationSafety.StuckCallsAreReachable | packages/storage/src/sqlite.ts:1098-1150 | a run in which a stopped worker leaves such a call: the page offers to terminate it, the decision is refused |
| ReconciliationSafety.StepKeepsInv | apps/host/src/coding-reconciliation.ts:254-468 | every step of host and workers, with failing and interrupted jobs, keeps calls, jobs, settlements and replacements consistent |
| ReconciliationTasks.DecisionsAreCarriedOutExactlyWhen | apps/host/src/coding-reconciliation.ts:254-468 | a new decision is carried out exactly when a reviewer takes it at the current versions, on a call, checkpoint and task that all wait for one, with a stopped runner, and its own condition holds: no verification under way that cannot be taken back, none made before, or a ready new call |
| ReconciliationTasks.PagesOfferExactlyWhen | apps/host/src/coding-reconciliation.ts:165-247 | the page is shown exactly for a reviewer and an undecided call, and offers each choice exactly when it is open |
| ReconciliationTasks.TerminationsCancelTheTask | apps/host/src/coding-reconciliation.ts:798-812 | a carried-out termination leaves the task of the call cancelled |
| ReconciliationTasks.NewCallsKeepTheTaskRunning | apps/host/src/coding-reconciliation.ts:1071-1218 | a carried-out new call leaves the task running and queues one new execution of that very task, with its job |
| ReconciliationTasks.VerificationRequestsLeaveTheTask | apps/host/src/coding-reconciliation.ts:471-594 | asking for a verification leaves the status of call, checkpoint and task as it was |
| ReconciliationTasks.SettlementsAreRecorded | apps/host/src/coding-reconciliation.ts:814-858 | a settled checkpoint is cancelled with its decision and its own cleanup job; a pending verification is rejected and the lease of its job void |
| ReconciliationTasks.ResponsesTellWhatIsStored | apps/host/src/coding-reconciliation.ts:373-468 | the response carries the stored call, checkpoint, task, job and replacing call, and the receipt carries the response |
| ReconciliationTasks.VerdictsMoveTheTask | apps/worker/src/coding.ts:3405-3550 | a passed verdict completes call, checkpoint and task together, a rejected one leaves all three to be reconciled |
| ReconciliationTasks.VerdictsAreHeardExactlyWhen | apps/worker/src/coding.ts:3405-3550 | in every state that keeps the invariant, a verdict is recorded exactly for the pending verification, by this job, of a call whose task still waits |
| ReconciliationTasks.OldLeasesNeverAct | apps/host/src/coding-reconciliation.ts:860-944 | a lease that was followed by another one, or taken back by a decision, never records, cleans or closes again in any further run |
| ReconciliationTasks.TasksFollowTheirNewestCall | apps/host/src/coding-reconciliation.ts:798-812 | over every run in which each task is enqueued once: a task has the status of the one call of its chain that was not replaced, and is running while that call is queued; all replaced calls of the chain have the same task |
| Reconciliation.ReconciliationStore.DecideCodingReconciliation | apps/host/src/coding-reconciliation.ts:254-468 | the decision transaction, check by check and write by write |
| Reconciliation.ReconciliationStore.SettleUndecidedCall | apps/host/src/coding-reconciliation.ts:373-468 | terminating or replacing a call: a pending verification is taken back or the decision refused, then call, task, cleanup job, replacement and receipt are written |
| Reconciliation.ReconciliationStore.InvalidateVerificationJob | apps/host/src/coding-reconciliation.ts:860-944 | a live verification job of the call is ended and its fence raised; any other job is refused |
| McpReadSafety.SentAtMostOnce | apps/host/src/mcp-resources.ts:185-242 | over any crashes, lease takeovers and lost acknowledgements, each read is handed to the network at most once |
| McpReadSafety.FailedWasNeverSent | apps/host/src/mcp-resources.ts:228-240 | a read that ended failed was not sent and never will be |
| McpReadSafety.SentReadsEndOpenly | apps/host/src/mcp-resources.ts:228-240 | a read handed to the network is running, completed or awaits reconciliation, and a completed one was handed over |
| McpReadSafety.UnknownMeansStarted | apps/host/src/mcp-resources.ts:233-235 | the classification of a failure says "open" only for a started read, and "failed" only for one not sent |
| McpReadSafety.RequestMirrorsCommitment | apps/host/src/mcp-resources.ts:185-242 | the status a client sees always is that of the kernel's commitment |
| McpReadSafety.OneOpenReadPerScope | packages/kernel/src/external-read.ts:37-46 | per replay scope at most one read is started or awaits reconciliation |
| McpReadSafety.ReadsStayWithinLimits | apps/host/src/mcp-resources.ts:120-136 | a connection never has more reads than granted, a workspace never more than a thousand |
| McpReadSafety.RepeatedRequestsAgree | apps/host/src/mcp-resources.ts:120-136 | repeating a request names the same read and changes nothing |
| McpReadSafety.StepKeepsInv | apps/host/src/mcp-resources.ts:185-242 | every step of every worker and client keeps commitments, workers, sends, scopes and limits consistent |
| McpReadOutcomes.LiveClassificationsEndExactly | apps/host/src/mcp-resources.ts:228-240 | in every reachable state, a worker that classifies its failure under its lease closes the read as failed exactly when it never entered the transport and the read is unopened, or opened under this worker's own fence to its knowledge; otherwise its outcome stays open |
| McpReadOutcomes.FailedByTheSteps | apps/host/src/mcp-resources.ts:228-240 | told by the steps of the run: a read closed as failed was never called for by its worker, and if it was opened, this worker opened it and learned of it |
| McpReadOutcomes.OutcomesDecideTheScope | packages/kernel/src/external-read.ts:37-46 | classifying an opened read frees its replay scope exactly when the outcome is failed |
| McpReadOutcomes.UnknownReadsShutTheScope | packages/kernel/src/external-read.ts:37-46 | while a read of a scope awaits reconciliation, no further run adds, opens or sends another read of that scope |
| McpReadOutcomes.CreatesExactlyWhen | apps/host/src/mcp-resources.ts:120-136 | a request is stored exactly when every check holds, the scope is free and both limits leave room |
| McpReadOutcomes.OpensExactlyWhen | packages/kernel/src/external-read.ts:82-88 | a read is opened exactly by an allowed worker with the latest lease, on a queued read in a free scope; it is then bound to that worker's fence |
| McpReadOutcomes.CompletesExactlyWhen | apps/host/src/mcp-resources.ts:201-227 | in every reachable state a good answer completes its read exactly while the worker is allowed and holds the latest lease |
| McpReadOutcomes.UndisturbedReadsComplete | apps/host/src/mcp-resources.ts:185-227 | a read that nothing interferes with is opened, sent once and completed |
| McpReads.ReadStore.CreateMcpRequest | apps/host/src/mcp-resources.ts:120-136 | the creating transaction with its checks in order |
| McpReads.ReadStore.BeginExternalRead | packages/kernel/src/external-read.ts:82-88 | the opening transaction: lease, started already, replay block, then the commitment under this fence |
| McpReads.ReadStore.FinishFailed | apps/host/src/mcp-resources.ts:228-240 | the classifying transaction, refused without the lease |
| Idempotency.CallsReturnTheRecordedResponse | apps/host/src/host.ts:780-834 | for any interleaving of callers on any hosts, all calls of one request that return give the one recorded response and carried its digest |
| Idempotency.CompletionsAreUnique | apps/host/src/host.ts:809-826 | at most one completion event per request, and one exactly when a response is recorded |
| Idempotency.OneFlightPerHost | apps/host/src/host.ts:793-801 | a host never works on one request twice at a time |
| Idempotency.ReceiptsAreStable | apps/host/src/host.ts:809-826 | a recorded response is never replaced |
| Idempotency.FlightKeyIsInjective | apps/host/src/host.ts:791-791 | the length-prefixed flight key tells all requests apart |
| IdempotencyAnswers.LaterOperationsReplay | apps/host/src/host.ts:803-807 | once a request is recorded, whatever any hosts do: every operation begun later for it does no work, and past its reading it has returned the recorded response when its digest is the recorded one and was refused when it is another |
| IdempotencyAnswers.RepeatedCallReturns | apps/host/src/host.ts:793-807 | in every reachable state, a call that repeats a recorded request with its digest, on a host where it is not in flight, reads and returns the recorded response |
| IdempotencyAnswers.CallsJoinExactlyWhen | apps/host/src/host.ts:791-801 | a call joins the operation in flight exactly when their digests agree, is refused exactly when they differ, and starts its own when none is in flight |
| IdempotencyAnswers.CommittingAnswers | apps/host/src/host.ts:809-826 | a finished work is recorded and returned unless its request was recorded meanwhile; then the recorded response is returned for the same digest, and the reuse refused for another |
| IdempotencyAnswers.RefusalsAreJustified | apps/host/src/host.ts:780-834 | over every run: an operation fails only with its work or because its request is recorded with another digest, and a call is refused only if an operation of its request has another digest |
| IdempotencyAnswers.ConstantClientsAreServed | apps/host/src/host.ts:780-834 | a client that never varies its request is never refused |
| Idempotency.Tables.CommitWork | apps/host/src/host.ts:809-826 | the closing transaction looks for a raced response before it records its own |
| EventDelivery.ClientReceivesEveryOwnedEvent | apps/desktop-mac/src/workspace-events.ts:36-63 | over any appends, pages, deliveries, disconnects and reconnects, the client has received exactly the owned events between its start and its cursor, in order and once |
| EventDelivery.DrainedClientIsComplete | apps/host/src/host.ts:386-461 | once the queue is empty and the server has nothing to read, no owned event is missing |
| EventDelivery.OwnedIsOrdered | apps/host/src/host.ts:378-384 | the received list names each owned event of the interval once, in log order |
| EventDelivery.EpochsEndOnlyByFailures | apps/desktop-mac/src/workspace-events.ts:57-62 | a replay from the start happens exactly when a connection is lost that was not the first in a row and the cursor is not at the start; every other step keeps the epoch and what was received |
| EventDelivery.ReplaysFollowRepeatedLosses | apps/desktop-mac/src/workspace-events.ts:57-62 | over every run, the connections lost since one opened decide whether the next loss keeps the cursor or gives it up |
| EventDelivery.PageCovers | apps/host/src/host.ts:409-448 | the frames of a page account for every position of the page |
| EventDelivery.PositionsRoundTrip | apps/desktop-mac/src/workspace-events.ts:66-70 | a safe position survives being printed and parsed as an event id |
| EventStreams.EventStream.Poll | apps/host/src/host.ts:449-461 | the polling loop sends what the specification says and leaves the cursor there |
| EventStreams.PollIsPageSteps | apps/host/src/host.ts:449-461 | a poll is a sequence of single-page steps, so all results on runs apply to it |
| EventStreams.PollCatchesUp | apps/host/src/host.ts:449-461 | a poll with enough pages leaves nothing unread |
| EventStreams.ClientsCatchUp | apps/desktop-mac/src/workspace-events.ts:27-63 | from every reachable state without a connection there are steps after which the client has exactly the owned events of the log after its start, each appended one among them |
| EventStreams.WorkspaceEventStream.OnKernelEvent | apps/desktop-mac/src/workspace-events.ts:45-49 | a kernel frame never moves the cursor back; frames of an old source are ignored |
| EventStreams.WorkspaceEventStream.OnCursorEvent | apps/desktop-mac/src/workspace-events.ts:50-56 | a cursor frame sets the cursor, and a smaller one signals a reset |
| EventStreams.WorkspaceEventStream.OnErrorEvent | apps/desktop-mac/src/workspace-events.ts:57-62 | the second failure in a row gives up the cursor |
| AgentScheduler.RanksExactlyWhen | apps/host/src/agent-scheduler.ts:50-67 | the comparison is a strict total order on every list of contenders with distinct ids exactly when no command-line runner is asked for with a model |
| AgentScheduler.ChoiceIgnoresListOrder | apps/host/src/agent-scheduler.ts:42-68 | the selected id does not depend on the order of the list |
| AgentScheduler.ChosenIsFirst | apps/host/src/agent-scheduler.ts:56-68 | the selected candidate goes before every other contender |
| AgentScheduler.AutoIsHomogeneous | apps/host/src/agent-scheduler.ts:42-49 | in automatic choice the contenders are all measured, at or above the threshold, or all unmeasured |
| AgentScheduler.NetNeverContradictsTotal | apps/host/src/agent-scheduler.ts:62-66 | comparing net values orders two candidates exactly as comparing their totals does |
| AgentScheduler.ChosenServesStrategy | apps/host/src/agent-scheduler.ts:56-67 | by quality no better contender is passed over; otherwise, once measured, no cheaper one |
| AgentScheduler.ChosenIsNearTheBest | apps/host/src/agent-scheduler.ts:45-49 | no qualifying candidate exceeds the chosen quality by more than the strategy tolerates |
| SchedulingRules.QualifiesExactlyWhen | apps/host/src/agent-scheduler.ts:20-44 | a candidate qualifies exactly when nothing is held against it, currency, cost and duration fit the budget, and the record and runner meet what the request asks for |
| SchedulingRules.ChosenQualifies | apps/host/src/agent-scheduler.ts:42-68 | for every request, circular comparisons included, the chosen id is that of a candidate that qualifies |
| SchedulingRules.NobodyIsChosenExactlyWhen | apps/host/src/agent-scheduler.ts:42-44 | the choice fails exactly when no candidate qualifies |
| SchedulingRules.NoneMuchBetterIsPassedOver | apps/host/src/agent-scheduler.ts:45-49 | no qualifying candidate exceeds the chosen one's bound by more than 0, 500 or 1000 basis points, by strategy |
| SchedulingRules.TotalsCoverCostAndTime | apps/host/src/agent-scheduler.ts:29-33 | the expected total is the least amount that covers cost and time, shared out over the accepted part once measured |
| SchedulingRules.TiesGoToTheShorterThenTheFirst | apps/host/src/agent-scheduler.ts:56-67 | between contenders equal in all else the shorter one is chosen, then the one with the first id |
| AgentScheduler.ChooseAgent | apps/host/src/agent-scheduler.ts:17-69 | filtering, narrowing and sorting in place select the specified candidate |
| Wilson.BoundIsTheFormulaRoundedDown | apps/host/src/agent-scheduler.ts:11-15 | for any true square root, the basis points are the Wilson formula rounded down |
| Wilson.BoundIsExact | apps/host/src/agent-scheduler.ts:11-15 | the bound is the greatest value that the rootless form of the formula admits |
| Wilson.BoundIsWithinRate | apps/host/src/agent-scheduler.ts:11-15 | the bound is at most accepted/samples and at most one |
| Wilson.BoundGrowsWithAcceptance | apps/host/src/agent-scheduler.ts:11-15 | more accepted results never lower the bound |
| Wilson.TotalCoversOutlay | apps/host/src/agent-scheduler.ts:30-33 | the expected total is the least integer covering (cost + time cost)/quality, and at least cost + time cost |
| Wilson.BetterQualityIsNoDearer | apps/host/src/agent-scheduler.ts:32-33 | a better bound never raises the expected total |
| Wilson.CeilDivideIsLeast | apps/host/src/agent-scheduler.ts:16-16 | ceiling division gives the least covering multiple |
| Sorting.Sort | apps/host/src/agent-scheduler.ts:56-67 | in-place sorting equals the specification, for any comparison |
| Sorting.SortedIsOrdered | apps/host/src/agent-scheduler.ts:56-67 | sorting by a ranking comparison gives an ordered list |
| Sorting.SortingForgetsOrder | apps/host/src/material-context.ts:20-24 | sorting by a ranking comparison gives the same list for every arrangement of the input |
| Csv.WrittenTablesAreReadBack | apps/host/src/document-extraction.ts:73-90 | any table of non-empty rows without carriage returns, however quoted in the style of section 2 of RFC 4180, is read back unchanged exactly when it keeps the limits, and is refused for its size otherwise |
| Csv.AcceptedTextsSettle | apps/host/src/document-extraction.ts:73-90 | any accepted text, written again and read again, gives the same rows |
| Csv.AcceptedTablesFit | apps/host/src/document-extraction.ts:74-90 | accepted rows are non-empty, free of carriage returns and within the cell and length limits |
| Csv.FinalCommaNeverDecides | apps/host/src/document-extraction.ts:90-90 | the test for a final comma changes no result |
| Csv.LastRowNeedsNoLineEnd | apps/host/src/document-extraction.ts:73-90 | a text is accepted with and without a line end after its last row alike, with the same rows |
| Csv.NormalizedByPieces | apps/host/src/document-extraction.ts:46-46 | line ends are normalised piece by piece, wherever a text is cut but inside a line end |
| Csv.ParseCsv | apps/host/src/document-extraction.ts:73-90 | the loop over mutable variables computes the automaton's result |
| CellLabels.ReadsExactlyTheLabels | apps/host/src/document-extraction.ts:197-203 | a text is read as a position exactly when it is that position's label, with column up to 16384 and row up to 1048576 |
| CellLabels.LabelIsInjective | apps/host/src/document-extraction.ts:68-72 | different columns have different names, for all columns |
| CellLabels.LabelOfColumn | apps/host/src/document-extraction.ts:68-72 | every word of capital letters is the name of the column it denotes |
| CellLabels.ColumnName | apps/host/src/document-extraction.ts:68-72 | the naming loop computes the bijective base-26 label |
| CellLabels.CellPosition | apps/host/src/document-extraction.ts:197-203 | the reading loop computes the specified position or error |
| Extraction.TableIsExtracted | apps/host/src/document-extraction.ts:91-95 | the blocks of a table are exactly its cells with text, in reading order under their own labels, and the issues exactly the rows of another width |
| Extraction.BlocksAreFoundByLabel | apps/host/src/document-extraction.ts:91-95 | no two blocks share a label |
| Extraction.ExtractionKeepsLimits | apps/host/src/document-extraction.ts:38-58 | counters are the true sums and all limits are kept |
| Extraction.StatusTellsTheTable | apps/host/src/document-extraction.ts:54-57 | a table is unreadable exactly when no cell has text, complete exactly when one has and all rows are equally wide, and partial otherwise |
| Extraction.TighterLimitsFailExactlyWhen | apps/host/src/document-extraction.ts:38-58 | under tighter limits a table gives the same output exactly when that output is within them, and fails otherwise |
| Extraction.CleanTakesSpaceAround | apps/host/src/document-extraction.ts:46-48 | cleaning takes the space around a text and nothing else |
| Extraction.Collector.AddBlock | apps/host/src/document-extraction.ts:46-53 | adding trims, numbers and counts a block, and fails exactly beyond a limit |
| Extraction.Collector.AddTable | apps/host/src/document-extraction.ts:91-95 | the nested loops extract the specified blocks and issues |
| Extraction.Collector.Finish | apps/host/src/document-extraction.ts:54-57 | the result has text or an issue, and its status says which |
| MaterialSelection.SelectionIsGreedyAndMaximal | apps/host/src/material-context.ts:20-32 | a block is selected exactly when it fits beside the selected ones ranked before it, and no block left out could be added |
| MaterialSelection.SelectionFitsInOrder | apps/host/src/material-context.ts:16-34 | the result keeps the input order and its JSON length is within the budget |
| MaterialSelection.FailsExactlyWhen | apps/host/src/material-context.ts:17-32 | the call fails exactly for an invalid budget, or when there are blocks and no single one fits |
| MaterialSelection.LeftOutBlocksAreLonger | apps/host/src/material-context.ts:20-32 | a block left out is longer than every selected one with a lower score, or with the same score and a later place |
| MaterialSelection.AllAreSelectedExactlyWhen | apps/host/src/material-context.ts:18-18 | nothing is left out exactly when the list, written with brackets and commas, fits |
| MaterialSelection.SelectMaterialBlocks | apps/host/src/material-context.ts:16-34 | two in-place sorts and the greedy loop compute the specified selection |
| BusinessHistory.EveryVersionReadsAsItWas | apps/host/src/business-snapshots.ts:34-43 | after any commands a version reads exactly if it lies between the first kept and the current one, and reads as the state that was current then |
| BusinessHistory.PastStatesStayReadable | apps/host/src/business-snapshots.ts:34-43 | what was current after some commands stays readable after any further ones |
| BusinessHistory.NothingIsRewritten | apps/host/src/business-management.ts:53-72 | snapshots and receipts are never overwritten, and a repeated command gets its first answer |
| BusinessHistory.ValidCommandsSucceed | apps/host/src/business-management.ts:53-91 | after any commands, an allowed one is answered exactly when it repeats a known request or names the current version and makes the next one; keeping snapshots never stands in the way |
| BusinessHistory.ReferencesOutliveChanges | apps/host/src/business-context.ts:92-109 | a reference validates historically for ever with its content, and currently exactly until the next command |
| BusinessHistory.OnlyTrueReferencesValidate | apps/host/src/business-context.ts:92-109 | a reference validates only if it could have been taken at its version |
| BusinessHistory.BusinessStore.RecordBusinessSnapshots | apps/host/src/business-snapshots.ts:19-32 | the loop over both states saves them, or refuses without a change |
| BusinessHistory.BusinessStore.CommandOpcBusiness | apps/host/src/business-management.ts:53-91 | the command transaction with receipt, version check, snapshots and new state |
| BusinessContext.ContactsAreNotSelected | apps/host/src/business-context.ts:26-32 | states that differ only in contact details give the same context and reference |
| BusinessFacts.ContentsAreOfTheObject | apps/host/src/business-context.ts:18-79 | what is selected concerns the object asked for: its newest entry, or the entry with the versions of customer and service it names, and all and only the entries of its order |
| BusinessFacts.NothingIsSelectedExactlyWhen | apps/host/src/business-context.ts:18-79 | nothing is selected exactly when the books have no such object, or no longer the versions it names |
| BusinessFacts.ReferencesHoldExactlyWhen | apps/host/src/business-context.ts:92-109 | a reference holds exactly while the same content is selected at the same version; one without a digest never does |

## Left out

- FollowupSafety.PeriodBudgetHolds: is for runs whose claims' clock readings agree; the first finding says what happens otherwise.
- ReconciliationTasks.TasksFollowTheirNewestCall: is for runs in which every task is enqueued for one call; only decisions give a task further calls.
- BusinessFacts.NothingIsSelectedExactlyWhen: is for books in which quotes, orders and deliveries have distinct ids, as the rules of the plug-in keep them.
- FollowupStore.EveryPolicyIsVisited: is for a list that does not change; policies added between rounds move the positions of the others.
- FollowupStore.RoundsJoin: is for a list that does not change between the rounds.
- GoalSafety.OutcomesAreSettled: rests, for team goals, on a contract of the port that reports on a group (apps/host/src/team-runtime.ts:235-330): cancelled is reported only of cancelled groups, a terminal report on a settled goal carries its usage again, and a settled cancelled group has stopped.
- GoalSafety.StepKeepsInv: also assumes that a cancelled group takes no further command (packages/kernel/src/coordination.ts:88-98) and that a settled attempt takes no external bill (apps/host/src/goal-external-rework.ts:58).
- GoalStore.GoalProjections.CancelGoal: its code GOAL_COORDINATED stands for the routing of team goals to their own service (apps/host/src/goals-api.ts:149-178); the first guard of `TeamGoals.ChangeTeam` stands for the routing in the other direction.
- Rework.ConfirmedUsageIsPresent: has the absence of admissions as a condition; the host's dispatch looks at the goal's status before it admits (apps/host/src/team-runtime.ts:356), in a transaction of its own.
- Rework.BudgetHoldsOverAllRounds: takes the kernel's checks on nodes, dependencies, parallel attempts and deadlines before an admission as one verdict.
- FollowupStore.PolicyStore.Observe: does not model the notices written beside a run; no other modelled step depends on them.
- Csv.WrittenTablesAreReadBack: counts Unicode characters where the host counts UTF-16 units, so texts outside the basic plane are longer in the host.
- Sorting.Sort: models the engine's sort by an insertion sort; for ranking comparisons every correct sort gives the same result.
- MaterialSelection.SelectMaterialBlocks: takes each block's score and JSON length as given; splitting a query into terms and Unicode normalisation are foreign text functions.
- AgentScheduler.ChooseAgent: compares qualities with the tolerance in whole basis points where the host subtracts in floating point, so a candidate exactly at the tolerated distance may be kept here and dropped there; it also leaves out the texts of the reasons and the return on investment in basis points, which no comparison reads; it keeps whether there is a reason.
- Wilson.BoundIsTheFormulaRoundedDown: is over the reals, for any true square root; floating-point rounding of the formula is not modelled.
- McpReads.ReadStore.CreateMcpRequest: reduces the request's parameters, and the current membership and grant, to one verdict each.
- Follow-up and goal services assume a contract of the kernel: finished executions stay finished, and ids are fresh.
- The steps of a team inside its group (dispatch of nodes, human decisions, review, evidence): a group appears by its reports and by the attempts admitted and settled.
- Claims, leases and clocks of the job store beyond fences: a lease may expire and be taken over at any time.
- Building the nodes of a rework plan and its texts: `Rework` starts from the nodes and the reused ones.
- Business rules of the OPC plug-in: a command's next state is an input; balances are a function of the books.
- Several tenants and workspaces side by side: every model is of one tenant, and of one workspace where records are kept per workspace.
- Verification itself, sandbox cleanup and supervision of runners: the worker appears as the contract it keeps with the store.
- HTTP routes, request-field validation, screens, exports, encryption, object storage, and the ZIP, XML and PDF readers.
- Timers, keep-alives and the PDF and export gates: small next to the above.
