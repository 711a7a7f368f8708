/**
 What an observation makes of a goal, outcome by outcome: which executions, usages and outputs lead to acceptance, to
 failure or to reconciliation, for single goals and for teams.
 */
module GoalOutcomes {
  import opened Options
  import opened GoalModel
  import opened TeamGoals
  import opened GoalService
  import opened GoalSafety

  // ---------------------------------------------------------------- settlement

  /** The usage that a goal has once a reading of a finished execution or group is taken in. */
  function UsageAfter(g: Goal, usage: Option<Usage>): Option<Usage> {
    if usage.Some? then usage else if g.reservation.Some? && g.reservation.value.status.Settled? then g.reservation.value.actual else None
  }

  /** A reported usage is in the goal's currency and does not contradict a settled one. */
  predicate UsageFits(g: Goal, usage: Option<Usage>) {
    usage.Some? ==>
      && usage.value.currency == g.budget.currency
      && (g.reservation.Some? && g.reservation.value.status.Settled? ==> g.reservation.value.actual == usage)
  }

  predicate Within(u: Option<Usage>, budget: Usage) {
    u.Some? && u.value.tokens <= budget.tokens && u.value.cost <= budget.cost
  }

  predicate Ended(s: ExecutionStatus) { s == Completed || s == ExecutionFailed || s == ExecutionCancelled }

  /** The execution that a single goal is bound to. */
  predicate RunsAs(g: Goal, executions: map<nat, Execution>, status: ExecutionStatus) {
    g.executionRef.Some? && g.executionRef.value in executions && executions[g.executionRef.value].status == status
  }

  /** The checks before any outcome: the goal is open to observation and its execution is known. */
  predicate Observable(g: Goal, executions: map<nat, Execution>, authorized: bool) {
    && g.status != Accepted && g.executionRef.Some? && g.executionRef.value in executions
    && (g.cancellationRequested || authorized)
  }

  /** The execution ended, nobody asked to cancel, and what it used is known and within budget. */
  predicate EndedInBudget(g: Goal, executions: map<nat, Execution>, r: Reading) {
    && Observable(g, executions, r.authorized) && !g.cancellationRequested
    && Ended(executions[g.executionRef.value].status)
    && UsageFits(g, r.usage) && Within(UsageAfter(g, r.usage), g.budget)
  }

  // ---------------------------------------------------------------- single goals

  /**
   An observed goal awaits acceptance exactly when its execution completed, nobody asked to cancel, its usage is settled
   within budget, its outputs were judged complete, and no other delivery set is registered; the set is the judged one.
   */
  lemma AwaitsAcceptanceExactlyWhen(g: Goal, executions: map<nat, Execution>, r: Reading)
    requires GoalOk(g, executions)
    ensures var n := ObserveState(g, executions, r);
            && (n.Ok? && n.value.status == AwaitingAcceptance <==>
                  && EndedInBudget(g, executions, r) && RunsAs(g, executions, Completed)
                  && r.outputs.JudgedOutput? && r.outputs.complete
                  && (g.deliverySet == None || g.deliverySet == Some(r.outputs.deliverySet)))
            && (n.Ok? && n.value.status == AwaitingAcceptance ==>
                  n.value.deliverySet == Some(r.outputs.deliverySet) && n.value.reservation == Some(Reservation(Settled, UsageAfter(g, r.usage))))
  {
  }

  /** It fails exactly when, under the same conditions, the execution failed or was cancelled, or completed with outputs that are unreadable or incomplete. */
  lemma FailsExactlyWhen(g: Goal, executions: map<nat, Execution>, r: Reading)
    requires GoalOk(g, executions)
    ensures var n := ObserveState(g, executions, r);
            && (n.Ok? && n.value.status == Failed <==>
                  && EndedInBudget(g, executions, r)
                  && (RunsAs(g, executions, ExecutionFailed) || RunsAs(g, executions, ExecutionCancelled)
                      || (RunsAs(g, executions, Completed) && (r.outputs == UnreadableOutput || (r.outputs.JudgedOutput? && !r.outputs.complete)))))
            && (n.Ok? && n.value.status == Failed ==>
                  n.value.deliverySet == g.deliverySet && n.value.reservation == Some(Reservation(Settled, UsageAfter(g, r.usage))))
  {
  }

  /** A requested cancellation is carried out by an observation exactly when the execution ended and its usage is known. */
  lemma CancellationEndsExactlyWhen(g: Goal, executions: map<nat, Execution>, r: Reading)
    requires GoalOk(g, executions)
    ensures var n := ObserveState(g, executions, r);
            && (n.Ok? && n.value.status == Cancelled <==>
                  && g.cancellationRequested && Observable(g, executions, r.authorized)
                  && Ended(executions[g.executionRef.value].status) && UsageFits(g, r.usage) && UsageAfter(g, r.usage) != None)
            && (n.Ok? && g.cancellationRequested ==> n.value.status == Cancelled || n.value.status == NeedsReconciliation)
  {
  }

  /** While the execution is alive the goal follows it, and its reservation stays. */
  lemma LiveGoalsFollow(g: Goal, executions: map<nat, Execution>, r: Reading)
    requires GoalOk(g, executions) && Observable(g, executions, r.authorized) && !g.cancellationRequested
    requires !Ended(executions[g.executionRef.value].status)
    ensures ObserveState(g, executions, r).Ok?
    ensures var n := ObserveState(g, executions, r).value;
            && n.reservation == g.reservation
            && (n.status == Running <==> RunsAs(g, executions, Queued) || RunsAs(g, executions, ExecutionRunning))
            && (n.status == WaitingApproval <==> RunsAs(g, executions, ExecutionWaitingApproval))
            && (n.status == NeedsReconciliation <==>
                  RunsAs(g, executions, ExecutionNeedsReconciliation) || RunsAs(g, executions, ExecutionPaused) || RunsAs(g, executions, Interrupted))
  {
  }

  /** An ended execution whose usage is unknown or over budget leaves the goal to be reconciled, and the books say which. */
  lemma OpenBooksNeedReconciliation(g: Goal, executions: map<nat, Execution>, r: Reading)
    requires GoalOk(g, executions) && Observable(g, executions, r.authorized) && !g.cancellationRequested
    requires Ended(executions[g.executionRef.value].status) && UsageFits(g, r.usage) && !Within(UsageAfter(g, r.usage), g.budget)
    ensures ObserveState(g, executions, r).Ok?
    ensures var n := ObserveState(g, executions, r).value;
            && n.status == NeedsReconciliation && n.deliverySet == g.deliverySet
            && (UsageAfter(g, r.usage) == None ==> n.reservation == Some(Reservation(Unknown, None)) && n.reasonCode == "GOAL_USAGE_UNKNOWN")
            && (UsageAfter(g, r.usage) != None ==>
                  n.reservation == Some(Reservation(Settled, UsageAfter(g, r.usage))) && n.reasonCode == "GOAL_BUDGET_OVERRUN")
  {
  }

  /** An observation fails, and then changes nothing, exactly for a goal it may not observe, a usage that does not fit, or outputs that are refused. */
  lemma ObservesExactlyWhen(g: Goal, executions: map<nat, Execution>, r: Reading)
    requires GoalOk(g, executions)
    ensures ObserveState(g, executions, r).Ok? <==>
              && Observable(g, executions, r.authorized)
              && (Ended(executions[g.executionRef.value].status) ==> UsageFits(g, r.usage))
              && (EndedInBudget(g, executions, r) && RunsAs(g, executions, Completed) ==>
                    && !r.outputs.RejectedOutput?
                    && (r.outputs.JudgedOutput? && r.outputs.complete ==> g.deliverySet == None || g.deliverySet == Some(r.outputs.deliverySet)))
  {
  }

  /** The reason stored with an outcome is that of the outcome. */
  lemma OutcomesGiveTheirReason(g: Goal, executions: map<nat, Execution>, r: Reading)
    requires GoalOk(g, executions) && ObserveState(g, executions, r).Ok? && !g.cancellationRequested
    ensures var n := ObserveState(g, executions, r).value;
            && (n.status == AwaitingAcceptance || n.status == Running ==> n.reasonCode == "")
            && (n.status == Failed && RunsAs(g, executions, Completed) && r.outputs == UnreadableOutput ==> n.reasonCode == "GOAL_OUTPUT_INVALID")
            && (n.status == Failed && RunsAs(g, executions, Completed) && r.outputs != UnreadableOutput ==> n.reasonCode == "GOAL_DELIVERY_INCOMPLETE")
            && (n.status == Failed && !RunsAs(g, executions, Completed) ==> n.reasonCode == "GOAL_EXECUTION_FAILED")
            && (n.status == NeedsReconciliation && !Ended(executions[g.executionRef.value].status) ==> n.reasonCode == "GOAL_EXECUTION_PENDING")
  {
  }

  /** The accounting pass leaves goals without execution and accepted ones alone, and else fails exactly for a usage that does not fit. */
  lemma AccountsExactlyWhen(g: Goal, executions: map<nat, Execution>, r: Reading)
    requires GoalOk(g, executions)
    ensures g.executionRef == None || g.status == Accepted ==> ReconcileState(g, executions, r) == Ok(g)
    ensures g.executionRef.Some? && g.status != Accepted ==>
              (ReconcileState(g, executions, r).Ok? <==> (Ended(executions[g.executionRef.value].status) ==> UsageFits(g, r.usage)))
  {
  }

  /** Its reasons: stale authority before an overrun, that before unknown usage, and all of them before a failed execution. */
  lemma AccountingGivesItsReason(g: Goal, executions: map<nat, Execution>, r: Reading)
    requires GoalOk(g, executions) && Observable(g, executions, true) && !g.cancellationRequested && ReconcileState(g, executions, r).Ok?
    ensures var n, ended := ReconcileState(g, executions, r).value, Ended(executions[g.executionRef.value].status);
            && (!r.authorized ==> n.reasonCode == "GOAL_AUTHORIZATION_STALE")
            && (r.authorized && ended && UsageAfter(g, r.usage) != None && !Within(UsageAfter(g, r.usage), g.budget) ==> n.reasonCode == "GOAL_BUDGET_OVERRUN")
            && (r.authorized && ended && UsageAfter(g, r.usage) == None ==> n.reasonCode == "GOAL_USAGE_UNKNOWN")
            && (n.status == Failed && g.status != Failed ==> n.reasonCode == "GOAL_EXECUTION_FAILED")
  {
  }

  /** The accounting pass settles like an observation, but never puts a delivery up for acceptance and never sets a goal running. */
  lemma AccountingOnlySettles(g: Goal, executions: map<nat, Execution>, r: Reading)
    requires GoalOk(g, executions) && Observable(g, executions, true) && ReconcileState(g, executions, r).Ok?
    ensures var n := ReconcileState(g, executions, r).value;
            && n.deliverySet == g.deliverySet
            && (Ended(executions[g.executionRef.value].status) && UsageAfter(g, r.usage) != None ==>
                  n.reservation == Some(Reservation(Settled, UsageAfter(g, r.usage))))
            && (Ended(executions[g.executionRef.value].status) && UsageAfter(g, r.usage) == None ==> n.reservation == Some(Reservation(Unknown, None)))
            && (!Ended(executions[g.executionRef.value].status) ==> n.reservation == g.reservation)
            && (n.status == g.status || n.status == NeedsReconciliation || n.status == Failed || n.status == Cancelled)
  {
  }

  /** Its verdicts on goals that nobody asked to cancel: fail a broken execution in budget, keep all else the books allow. */
  lemma AccountingVerdicts(g: Goal, executions: map<nat, Execution>, r: Reading)
    requires GoalOk(g, executions) && Observable(g, executions, true) && !g.cancellationRequested && ReconcileState(g, executions, r).Ok?
    ensures var n, broken := ReconcileState(g, executions, r).value, RunsAs(g, executions, ExecutionFailed) || RunsAs(g, executions, ExecutionCancelled);
            var known := !Ended(executions[g.executionRef.value].status) || Within(UsageAfter(g, r.usage), g.budget);
            && (r.authorized && known && broken ==> n.status == Failed)
            && (r.authorized && known && !broken ==> n.status == g.status)
            && (!r.authorized || !known ==> n.status == NeedsReconciliation)
  {
  }

  /** A requested cancellation is closed by the accounting pass under the same condition as by an observation. */
  lemma AccountingCancels(g: Goal, executions: map<nat, Execution>, r: Reading)
    requires GoalOk(g, executions) && Observable(g, executions, true) && g.cancellationRequested && ReconcileState(g, executions, r).Ok?
    ensures ReconcileState(g, executions, r).value.status ==
              if Ended(executions[g.executionRef.value].status) && UsageAfter(g, r.usage) != None then Cancelled else NeedsReconciliation
  {
  }

  // ---------------------------------------------------------------- commands on single goals

  /** A start succeeds exactly for the planned goal of a free thread; it reserves the whole budget and queues an execution of that thread. */
  lemma StartsExactlyWhen(w: World, id: nat, plan: nat, execution: nat, accepted: bool)
    requires id in w.goals && GoalOk(w.goals[id], w.executions)
    ensures var c, g := Change(w, id, StartPlan(plan, execution, accepted)), w.goals[id];
            && (c.Ok? <==>
                  && g.status == AwaitingAuthorization && g.plan == Some(plan) && accepted
                  && (forall e :: e in w.executions && w.executions[e].thread == g.thread ==> Ended(w.executions[e].status))
                  && (forall o :: o in w.goals && o != id && w.goals[o].thread == g.thread && (w.goals[o].executionRef != None || w.goals[o].coordinationRef != None) ==>
                        IsSettled(w.goals[o])))
            && (c.Ok? ==>
                  && c.value.goal == g.(status := Running, reservation := Some(Reservation(Reserved, None)), executionRef := Some(execution))
                  && c.value.executions == w.executions[execution := Execution(g.thread, Queued)])
  {
  }

  /** Cancelling succeeds exactly for an open single goal whose execution, if it has one, has ended, ends now, or is lost; only that execution changes. */
  lemma CancelsExactlyWhen(w: World, id: nat, stopped: ExecutionStatus)
    requires id in w.goals && GoalOk(w.goals[id], w.executions)
    ensures var c, g := Change(w, id, Cancel(stopped)), w.goals[id];
            && (c.Ok? <==>
                  && g.status != Accepted && g.status != Cancelled && g.coordinationRef == None
                  && (g.executionRef.Some? ==>
                        Ended(w.executions[g.executionRef.value].status) || Ended(stopped) || stopped == ExecutionNeedsReconciliation))
            && (c.Ok? ==>
                  && c.value.external == w.external
                  && (g.executionRef == None ==> c.value.executions == w.executions)
                  && (g.executionRef.Some? ==>
                        var e := w.executions[g.executionRef.value];
                        c.value.executions == w.executions[g.executionRef.value := Execution(e.thread, if Ended(e.status) then e.status else stopped)]))
  {
  }

  /** The goal is cancelled exactly when nothing was dispatched, or the execution has ended and its usage is settled; else it is to be reconciled. */
  lemma CancelledGoalsSayWhatIsOpen(w: World, id: nat, stopped: ExecutionStatus)
    requires id in w.goals && GoalOk(w.goals[id], w.executions) && Change(w, id, Cancel(stopped)).Ok?
    ensures var g, n := w.goals[id], Change(w, id, Cancel(stopped)).value.goal;
            && n == g.(status := n.status, cancellationRequested := true, reasonCode := n.reasonCode)
            && (n.status == Cancelled || n.status == NeedsReconciliation)
            && (n.status == Cancelled <==>
                  g.executionRef == None || (IsSettled(g) && (Ended(w.executions[g.executionRef.value].status) || Ended(stopped))))
  {
  }

  /** An external bill is taken once, for an ended execution of a goal without settled usage, in its currency; the goal is then observed. */
  lemma BillsOnceExactlyWhen(w: World, id: nat, usage: Usage, r: Reading)
    requires id in w.goals && GoalOk(w.goals[id], w.executions)
    ensures var c, g := Change(w, id, RecordUsage(usage, r)), w.goals[id];
            && (c.Ok? <==>
                  && g.executionRef.Some? && Ended(w.executions[g.executionRef.value].status)
                  && usage.currency == g.budget.currency && g.executionRef.value !in w.external && !IsSettled(g)
                  && ObserveState(g, w.executions, r).Ok?)
            && (c.Ok? ==>
                  && c.value.external == w.external[g.executionRef.value := usage] && c.value.executions == w.executions
                  && Ok(c.value.goal) == ObserveState(g, w.executions, r))
  {
  }

  /** A carried-out or pending cancellation says what it waits for: the execution first, then the usage. */
  lemma CancellationsSayWhatIsOpen(g: Goal, ended: bool)
    ensures var n := CancellationOutcome(g, ended);
            && n == g.(status := n.status, reasonCode := n.reasonCode)
            && (n.status == Cancelled <==> ended && IsSettled(g)) && (n.status == Cancelled || n.status == NeedsReconciliation)
            && (n.reasonCode == "" <==> n.status == Cancelled)
            && (n.reasonCode == "GOAL_CANCELLATION_PENDING" <==> !ended)
            && (n.reasonCode == "GOAL_USAGE_UNKNOWN" <==> ended && !IsSettled(g))
  {
  }

  /** A plan is set exactly on an open goal that nothing was dispatched for; then the goal awaits authorization. */
  lemma PlansExactlyWhen(w: World, id: nat, plan: nat, accepted: bool)
    requires id in w.goals && GoalOk(w.goals[id], w.executions)
    ensures var c, g := Change(w, id, ProposePlan(plan, accepted)), w.goals[id];
            && (c.Ok? <==> accepted && (g.status == Draft || g.status == AwaitingAuthorization))
            && (c.Ok? ==> c.value == Changed(g.(status := AwaitingAuthorization, plan := Some(plan)), w.executions, w.external))
  {
  }

  /** A delivery is accepted exactly when it is the registered one of a goal that awaits acceptance, reviewed and authorised. */
  lemma AcceptsExactlyWhen(w: World, id: nat, delivery: nat, reviewed: bool, authorized: bool)
    requires id in w.goals && GoalOk(w.goals[id], w.executions)
    ensures var c, g := Change(w, id, Accept(delivery, reviewed, authorized)), w.goals[id];
            && (c.Ok? <==> g.status == AwaitingAcceptance && g.plan.Some? && g.deliverySet == Some(delivery) && reviewed && authorized)
            && (c.Ok? ==> c.value == Changed(g.(status := Accepted), w.executions, w.external))
  {
  }

  /** A delivery decision accepts, or only steps the version of, a settled goal that awaits acceptance or failed with a delivery. */
  lemma DecidesExactlyWhen(w: World, id: nat, expected: nat, all: bool)
    requires id in w.goals && GoalOk(w.goals[id], w.executions)
    ensures var d, g := Decide(w, id, expected, all), w.goals[id];
            && (d.Ok? <==> g.streamVersion == expected && (g.status == AwaitingAcceptance || g.status == Failed) && g.deliverySet.Some?)
            && (d.Ok? ==> d.value == w.(goals := w.goals[id := g.(status := if all then Accepted else g.status, streamVersion := g.streamVersion + 1)]))
  {
  }

  // ---------------------------------------------------------------- team goals

  predicate GroupEnded(s: GoalStatus) { s == AwaitingAcceptance || s == Failed || s == Cancelled }

  /** The port may report any status but those that only the services set. */
  predicate ReportableStatus(s: GoalStatus) { s != Draft && s != AwaitingAuthorization && s != Accepted }

  predicate TeamObservable(g: Goal, r: Report, authorized: bool) {
    && g.status != Accepted && g.coordinationRef.Some? && ReportableStatus(r.status) && (g.cancellationRequested || authorized)
  }

  /** The group ended in budget, as the report or the books say, and nobody asked to cancel. */
  predicate GroupEndedInBudget(g: Goal, r: Report, authorized: bool) {
    && TeamObservable(g, r, authorized) && !g.cancellationRequested && GroupEnded(r.status)
    && UsageFits(g, r.usage) && Within(UsageAfter(g, r.usage), g.budget)
  }

  predicate DeliversTo(g: Goal, r: Report) {
    r.outputs.Judged? && (g.deliverySet == None || g.deliverySet == Some(r.outputs.deliverySet))
  }

  lemma TeamAwaitsAcceptanceExactlyWhen(g: Goal, executions: map<nat, Execution>, r: Report, authorized: bool)
    requires GoalOk(g, executions) && ReportMay(g, r)
    ensures var n := ObserveTeam(g, r, authorized);
            && (n.Ok? && n.value.status == AwaitingAcceptance <==>
                  && GroupEndedInBudget(g, r, authorized) && r.status == AwaitingAcceptance && DeliversTo(g, r) && r.outputs.complete)
            && (n.Ok? && n.value.status == AwaitingAcceptance ==>
                  n.value.deliverySet == Some(r.outputs.deliverySet) && n.value.reservation == Some(Reservation(Settled, UsageAfter(g, r.usage))))
  {
  }

  lemma TeamFailsExactlyWhen(g: Goal, executions: map<nat, Execution>, r: Report, authorized: bool)
    requires GoalOk(g, executions) && ReportMay(g, r)
    ensures var n := ObserveTeam(g, r, authorized);
            && (n.Ok? && n.value.status == Failed <==>
                  && GroupEndedInBudget(g, r, authorized)
                  && ((r.status == AwaitingAcceptance && r.outputs.Judged? && !r.outputs.complete)
                      || (r.status == Failed && (!r.delivers || DeliversTo(g, r)))))
            && (n.Ok? && n.value.status == Failed ==>
                  && n.value.deliverySet == (if r.status == Failed && r.delivers then Some(r.outputs.deliverySet) else g.deliverySet)
                  && n.value.reservation == Some(Reservation(Settled, UsageAfter(g, r.usage))))
  {
  }

  /** Other reports of a group that nobody asked to cancel: a live group's status is taken over, open books need reconciliation. */
  lemma TeamFollowsItsGroup(g: Goal, executions: map<nat, Execution>, r: Report, authorized: bool)
    requires GoalOk(g, executions) && ReportMay(g, r) && TeamObservable(g, r, authorized) && !g.cancellationRequested && UsageFits(g, r.usage)
    ensures !GroupEnded(r.status) ==>
              && ObserveTeam(g, r, authorized).Ok?
              && var n := ObserveTeam(g, r, authorized).value;
                 && n.reservation == g.reservation && n.deliverySet == g.deliverySet
                 && n.status == (if r.usage.Some? && !Within(r.usage, g.budget) then NeedsReconciliation else r.status)
    ensures GroupEnded(r.status) && !Within(UsageAfter(g, r.usage), g.budget) ==>
              && ObserveTeam(g, r, authorized).Ok?
              && var n := ObserveTeam(g, r, authorized).value;
                 && n.status == NeedsReconciliation && n.deliverySet == g.deliverySet
                 && n.reservation == Some(if UsageAfter(g, r.usage) == None then Reservation(Unknown, None) else Reservation(Settled, UsageAfter(g, r.usage)))
  {
  }

  lemma TeamCancellationEndsExactlyWhen(g: Goal, executions: map<nat, Execution>, r: Report, authorized: bool)
    requires GoalOk(g, executions) && ReportMay(g, r) && g.cancellationRequested
    ensures var n := ObserveTeam(g, r, authorized);
            && (n.Ok? && n.value.status == Cancelled <==>
                  TeamObservable(g, r, authorized) && GroupEnded(r.status) && UsageFits(g, r.usage) && Within(UsageAfter(g, r.usage), g.budget))
            && (n.Ok? && n.value.status != Cancelled ==> n.value.status == NeedsReconciliation)
  {
  }

  /** A report is refused, and then changes nothing, exactly for a goal or status it may not move, a usage that does not fit, or outputs that are refused. */
  lemma TeamObservesExactlyWhen(g: Goal, executions: map<nat, Execution>, r: Report, authorized: bool)
    requires GoalOk(g, executions) && ReportMay(g, r) && !g.cancellationRequested
    ensures ObserveTeam(g, r, authorized).Ok? <==>
              && TeamObservable(g, r, authorized) && UsageFits(g, r.usage)
              && (GroupEndedInBudget(g, r, authorized) && (r.status == AwaitingAcceptance || (r.status == Failed && r.delivers)) ==>
                    DeliversTo(g, r) || (r.status == AwaitingAcceptance && r.outputs.Judged? && !r.outputs.complete))
  {
  }

  /** The reason stored is that of the group, unless the books or the outputs give another one. */
  lemma TeamOutcomesGiveTheirReason(g: Goal, executions: map<nat, Execution>, r: Report, authorized: bool)
    requires GoalOk(g, executions) && ReportMay(g, r) && !g.cancellationRequested && ObserveTeam(g, r, authorized).Ok?
    ensures var n, over := ObserveTeam(g, r, authorized).value, r.usage.Some? && !Within(r.usage, g.budget);
            && (over ==> n.reasonCode == "GOAL_BUDGET_OVERRUN")
            && (!over && GroupEnded(r.status) && UsageAfter(g, r.usage) == None ==> n.reasonCode == "GOAL_USAGE_UNKNOWN")
            && (n.status == Failed && r.status == AwaitingAcceptance ==> n.reasonCode == "GOAL_DELIVERY_INCOMPLETE")
            && (n.status == r.status && !over && !(GroupEnded(r.status) && UsageAfter(g, r.usage) == None) ==> n.reasonCode == r.reasonCode)
  {
  }

  /** The accounting pass over a group: it settles, closes a cancellation, fails a broken group, and otherwise keeps the goal's status. */
  lemma TeamAccountingVerdicts(g: Goal, executions: map<nat, Execution>, r: Report, authorized: bool)
    requires GoalOk(g, executions) && ReportMay(g, r) && g.coordinationRef.Some? && g.status != Accepted
    ensures GroupEnded(r.status) && !UsageFits(g, r.usage) ==> ReconcileTeam(g, r, authorized).Err?
    ensures !GroupEnded(r.status) || UsageFits(g, r.usage) ==> ReconcileTeam(g, r, authorized).Ok?
    ensures ReconcileTeam(g, r, authorized).Ok? ==>
              var n, ended, after := ReconcileTeam(g, r, authorized).value, GroupEnded(r.status), UsageAfter(g, r.usage);
              && n.deliverySet == g.deliverySet
              && n.reservation == (if !ended then g.reservation
                                   else if after == None then Some(Reservation(Unknown, None)) else Some(Reservation(Settled, after)))
              && n.status == (if g.cancellationRequested then if ended && after != None then Cancelled else NeedsReconciliation
                              else if !authorized || (ended && !Within(after, g.budget)) || (!ended && OverBudget(g)) then NeedsReconciliation
                              else if r.status == Failed then Failed
                              else g.status)
  {
  }

  /** Goals without a group, and accepted ones, are left alone by it. */
  lemma TeamAccountingLeavesAlone(g: Goal, r: Report, authorized: bool)
    requires g.coordinationRef == None || g.status == Accepted
    ensures ReconcileTeam(g, r, authorized) == Ok(g)
  {
  }

  /** Its reasons, and those of a cancelled report, in the order of the checks. */
  lemma TeamAccountingGivesItsReason(g: Goal, executions: map<nat, Execution>, r: Report, authorized: bool)
    requires GoalOk(g, executions) && ReportMay(g, r) && g.coordinationRef.Some? && g.status != Accepted && ReconcileTeam(g, r, authorized).Ok?
    ensures var n, ended, after := ReconcileTeam(g, r, authorized).value, GroupEnded(r.status), UsageAfter(g, r.usage);
            && (!g.cancellationRequested && !authorized ==> n.reasonCode == "GOAL_AUTHORIZATION_STALE")
            && (!g.cancellationRequested && authorized && ended && after != None && !Within(after, g.budget) ==> n.reasonCode == "GOAL_BUDGET_OVERRUN")
            && (!g.cancellationRequested && authorized && ended && after == None ==> n.reasonCode == "GOAL_USAGE_UNKNOWN")
            && (!g.cancellationRequested && n.status == Failed && r.status == Failed && g.status != Failed ==>
                  n.reasonCode == (if r.reasonCode == "" then "GOAL_EXECUTION_FAILED" else r.reasonCode))
  {
  }

  lemma CancelledTeamsGiveTheirReason(g: Goal, executions: map<nat, Execution>, r: Report, authorized: bool)
    requires GoalOk(g, executions) && ReportMay(g, r) && g.cancellationRequested && ObserveTeam(g, r, authorized).Ok?
    ensures var n := ObserveTeam(g, r, authorized).value;
            && (n.status == Cancelled ==> n.reasonCode == "")
            && (r.usage.Some? && !Within(r.usage, g.budget) ==> n.reasonCode == "GOAL_BUDGET_OVERRUN")
            && (r.usage == None && !IsSettled(n) ==> n.reasonCode == "GOAL_USAGE_UNKNOWN")
            && (n.status != Cancelled && IsSettled(n) && !(r.usage.Some? && !Within(r.usage, g.budget)) ==> n.reasonCode == "GOAL_CANCELLATION_PENDING")
  {
  }

  /** A bill for a team attempt: with authority the report is observed, without it only the books are closed. */
  lemma TeamBillsExactlyWhen(g: Goal, r: Report, authorized: bool, refused: Option<string>)
    ensures var n := RecordTeam(g, r, authorized, refused);
            && (n.Ok? <==>
                  && refused == None && g.coordinationRef.Some?
                  && (if authorized then ObserveTeam(g, r, true).Ok?
                      else r.usage.Some? && GroupEnded(r.status) && r.usage.value.currency == g.budget.currency))
            && (n.Ok? && authorized ==> n == ObserveTeam(g, r, true))
            && (n.Ok? && !authorized ==>
                  && n.value.reservation == Some(Reservation(Settled, r.usage))
                  && (n.value.status == NeedsReconciliation <==> !Within(r.usage, g.budget))
                  && (n.value.status == Cancelled <==> Within(r.usage, g.budget) && g.cancellationRequested)
                  && (n.value.status == Failed <==> Within(r.usage, g.budget) && !g.cancellationRequested))
  {
  }

  /** Team commands: who may be stopped, paused, resumed or led on by a human decision, and what the goal then is. */
  lemma TeamCommandsExactlyWhen(g: Goal, busy: bool, c: Command, nodeDecides: bool, authorized: bool, refused: Option<string>, active: bool)
    requires g.executionRef == None
    ensures var n, stops := ChangeTeam(g, busy, CommandTeam(c, nodeDecides, authorized, refused, active)), c == CancelTeam || c == Stop;
            && (n.Ok? <==>
                  && g.status != Accepted && g.status != Cancelled
                  && ((c == CancelTeam && (g.cancellationRequested || g.coordinationRef == None))
                      || (g.coordinationRef.Some? && refused == None
                          && (c == Resume ==> !g.cancellationRequested && (g.status == Paused || g.status == Pausing))
                          && (c == Continue || c == Stop ==> nodeDecides)
                          && (c == Resume || c == Continue || c == Stop ==> authorized))))
            && (n.Ok? && stops && !(c == CancelTeam && g.cancellationRequested) ==>
                  && n.value.cancellationRequested
                  && (n.value.status == Cancelled <==> g.coordinationRef == None || IsSettled(g))
                  && (n.value.status != Cancelled ==> n.value.status == NeedsReconciliation))
            && (n.Ok? && c == CancelTeam && g.cancellationRequested ==> n.value == g)
            && (n.Ok? && c == Pause ==> n.value == g.(status := if active then Pausing else Paused, reasonCode := ""))
            && (n.Ok? && (c == Resume || c == Continue) ==> n.value == g.(status := Running, reasonCode := ""))
            && (n.Ok? ==> n.value.reservation == g.reservation && n.value.coordinationRef == g.coordinationRef)
  {
  }

  /** A stopped team says whether its usage is still open; a goal run by one execution takes no team command at all. */
  lemma StoppedTeamsSayWhatIsOpen(g: Goal, op: TeamOperation, threadBusy: bool)
    ensures StoppedTeam(g).reasonCode == if IsSettled(g) then "" else "GOAL_USAGE_UNKNOWN"
    ensures g.executionRef.Some? ==> ChangeTeam(g, threadBusy, op).Err?
  {
  }

  /** A team starts under the conditions of a single goal, and is bound to its run instead of an execution. */
  lemma TeamStartsExactlyWhen(w: World, id: nat, plan: nat, run: nat, accepted: bool)
    requires id in w.goals && GoalOk(w.goals[id], w.executions)
    ensures var c, g := Change(w, id, Team(StartTeam(plan, run, accepted))), w.goals[id];
            && (c.Ok? <==>
                  && g.status == AwaitingAuthorization && g.plan == Some(plan) && accepted
                  && (forall e :: e in w.executions && w.executions[e].thread == g.thread ==> Ended(w.executions[e].status))
                  && (forall o :: o in w.goals && o != id && w.goals[o].thread == g.thread && (w.goals[o].executionRef != None || w.goals[o].coordinationRef != None) ==>
                        IsSettled(w.goals[o])))
            && (c.Ok? ==>
                  && c.value.goal == g.(status := Running, reservation := Some(Reservation(Reserved, None)), coordinationRef := Some(run))
                  && c.value.executions == w.executions && c.value.external == w.external)
  {
  }

  /** Planning and accepting work for team goals as they do for single ones. */
  lemma TeamPlansAndAcceptsExactlyWhen(w: World, id: nat, plan: nat, planAccepted: bool, delivery: nat, reviewed: bool, authorized: bool)
    requires id in w.goals && GoalOk(w.goals[id], w.executions) && w.goals[id].executionRef == None
    ensures Change(w, id, Team(ProposeTeam(plan, planAccepted))).Ok? <==> planAccepted && (w.goals[id].status == Draft || w.goals[id].status == AwaitingAuthorization)
    ensures var c := Change(w, id, Team(ProposeTeam(plan, planAccepted)));
            c.Ok? ==> c.value == Changed(w.goals[id].(status := AwaitingAuthorization, plan := Some(plan)), w.executions, w.external)
    ensures Change(w, id, Team(AcceptTeam(delivery, reviewed, authorized))) == Change(w, id, Accept(delivery, reviewed, authorized))
  {
  }

  /** A rework is confirmed exactly for a settled outcome with a delivery, in a thread that nobody else uses, whose plan was not archived before. */
  lemma ReworksExactlyWhen(w: World, id: nat, expected: nat, current: bool, plan: nat, run: nat)
    requires id in w.goals && GoalOk(w.goals[id], w.executions)
    ensures var c, g := ConfirmRework(w, id, expected, current, plan, run), w.goals[id];
            && (c.Ok? <==>
                  && g.streamVersion == expected && (g.status == AwaitingAcceptance || g.status == Failed) && g.deliverySet.Some? && current
                  && (forall e :: e in w.executions && w.executions[e].thread == g.thread ==> Some(e) == g.executionRef || Ended(w.executions[e].status))
                  && (forall o :: o in w.goals && o != id && w.goals[o].thread == g.thread && (w.goals[o].executionRef != None || w.goals[o].coordinationRef != None) ==>
                        IsSettled(w.goals[o]))
                  && (forall i :: 0 <= i < |w.history| ==> w.history[i].goal != id || w.history[i].plan != g.plan))
            && (c.Ok? ==>
                  && c.value.history == w.history + [History(id, g.plan, ActualOf(g).value)]
                  && c.value.goals == w.goals[id := Goal(g.thread, Running, g.budget, Some(Reservation(Reserved, None)), None, Some(run), Some(plan), None, false, "", g.streamVersion + 1)]
                  && c.value.executions == w.executions)
  {
  }

  // ---------------------------------------------------------------- mutations

  /** A new mutation is carried out exactly at the goal's present version, when its change is allowed and its answer readable. */
  lemma MutatesExactlyWhen(w: World, id: nat, op: Operation, key: string, expected: nat, unreadable: Option<string>)
    requires id in w.goals && ReceiptKey(Name(op), id, key) !in w.receipts
    ensures Mutate(w, id, op, key, expected, unreadable).Ok? <==>
              && w.goals[id].streamVersion == expected && Change(w, id, op).Ok?
              && Answer(op, Change(w, id, op).value.goal, unreadable).Ok?
  {
  }

  /** It stores the changed goal at the next version, and an unchanged one not at all, with a receipt that says what was asked and stored. */
  lemma MutationsAreStored(w: World, id: nat, op: Operation, key: string, expected: nat, unreadable: Option<string>)
    requires id in w.goals && ReceiptKey(Name(op), id, key) !in w.receipts && Mutate(w, id, op, key, expected, unreadable).Ok?
    ensures Change(w, id, op).Ok?
    ensures var c, after := Change(w, id, op).value, Mutate(w, id, op, key, expected, unreadable).value.0;
            && after.goals.Keys == w.goals.Keys && (forall o :: o in w.goals && o != id ==> after.goals[o] == w.goals[o])
            && (c.goal != w.goals[id] ==> after.goals[id] == c.goal.(streamVersion := expected + 1))
            && (c.goal == w.goals[id] ==> after.goals[id] == w.goals[id])
            && after.executions == c.executions && after.external == c.external && after.history == w.history
            && after.receipts == w.receipts[ReceiptKey(Name(op), id, key) := Receipt(InputOf(op), expected, after.goals[id])]
            && Ok(Mutate(w, id, op, key, expected, unreadable).value.1) == Answer(op, after.goals[id], unreadable)
  {
    CarriedOutIsStored(w, id, op, ReceiptKey(Name(op), id, key), expected, unreadable);
  }

  lemma CarriedOutIsStored(w: World, id: nat, op: Operation, at: ReceiptKey, expected: nat, unreadable: Option<string>)
    requires id in w.goals && CarryOut(w, id, op, at, expected, unreadable).Ok?
    ensures Change(w, id, op).Ok? && w.goals[id].streamVersion == expected
    ensures var c, after := Change(w, id, op).value, CarryOut(w, id, op, at, expected, unreadable).value.0;
            && after == Stored(w, id, c, at, Receipt(InputOf(op), expected, Versioned(w.goals[id], c.goal)))
            && Ok(CarryOut(w, id, op, at, expected, unreadable).value.1) == Answer(op, Versioned(w.goals[id], c.goal), unreadable)
  {
  }

  /** A known key is answered exactly for the request and version its receipt stands for, with the goal stored then, and changes nothing. */
  lemma KnownKeysAreAnsweredFromReceipts(w: World, id: nat, op: Operation, key: string, expected: nat, unreadable: Option<string>)
    requires id in w.goals && ReceiptKey(Name(op), id, key) in w.receipts
    ensures var receipt, m := w.receipts[ReceiptKey(Name(op), id, key)], Mutate(w, id, op, key, expected, unreadable);
            && (m.Ok? <==> receipt.input == InputOf(op) && receipt.expectedVersion == expected && Answer(op, receipt.response, unreadable).Ok?)
            && (m.Ok? ==> m.value.0 == w && Ok(m.value.1) == Answer(op, receipt.response, unreadable))
            && (receipt.input != InputOf(op) || receipt.expectedVersion != expected ==> m == Err("IDEMPOTENCY_KEY_REUSED"))
  {
  }

  /** The background passes store what they find at the next version, and nothing when the goal did not change or the pass gave up. */
  lemma PassesStoreWhatTheyFind(w: World, id: nat, r: Reading, report: Report, authorized: bool)
    requires id in w.goals
    ensures PassStores(w, id, ObserveState(w.goals[id], w.executions, r), Observe(w, id, r))
    ensures PassStores(w, id, ReconcileState(w.goals[id], w.executions, r), Reconcile(w, id, r))
    ensures PassStores(w, id, ObserveTeam(w.goals[id], report, authorized), ObserveGroup(w, id, report, authorized))
    ensures PassStores(w, id, ReconcileTeam(w.goals[id], report, authorized), ReconcileGroup(w, id, report, authorized))
  {
    assert w.goals[id := w.goals[id]] == w.goals;
  }

  predicate PassStores(w: World, id: nat, found: Result<Goal>, after: World)
    requires id in w.goals
  {
    var g := w.goals[id];
    if found.Err? || found.value == g then after == w
    else after == w.(goals := w.goals[id := found.value.(streamVersion := g.streamVersion + 1)])
  }

  /** What can no longer be read is withheld by observations, cancellations, bills for teams and pauses, and fails every other operation. */
  lemma AnswersExactlyWhen(op: Operation, g: Goal, code: string)
    ensures Answer(op, g, None) == Ok(g)
    ensures var withheld := op.Advance? || op.Cancel?
                            || (op.Team? && (op.operation.AdvanceTeam? || op.operation.RecordTeamUsage?
                                             || (op.operation.CommandTeam? && op.operation.command in {CancelTeam, Pause})));
            Answer(op, g, Some(code)) == if withheld then Ok(g.(deliverySet := None)) else Err(code)
  {
  }

  // ---------------------------------------------------------------- what a receipt stands for

  /** The two ask for the same: the same kind of operation, with the same plan, delivery, bill, command or decision. */
  predicate SameRequest(a: Operation, b: Operation) {
    match a
    case ProposePlan(plan, _) => b.ProposePlan? && b.plan == plan
    case StartPlan(plan, _, _) => b.StartPlan? && b.plan == plan
    case Advance(_) => b.Advance?
    case RecordUsage(usage, _) => b.RecordUsage? && b.usage == usage
    case Cancel(_) => b.Cancel?
    case Accept(delivery, _, _) => b.Accept? && b.deliverySet == delivery
    case Team(t) => b.Team? && SameTeamRequest(t, b.operation)
  }

  predicate SameTeamRequest(a: TeamOperation, b: TeamOperation) {
    match a
    case ProposeTeam(plan, _) => b.ProposeTeam? && b.plan == plan
    case StartTeam(plan, _, _) => b.StartTeam? && b.plan == plan
    case AdvanceTeam(_, _) => b.AdvanceTeam?
    case RecordTeamUsage(usage, _, _, _) => b.RecordTeamUsage? && b.usage == usage
    case CommandTeam(command, _, _, _, _) => b.CommandTeam? && b.command == command
    case AcceptTeam(delivery, _, _) => b.AcceptTeam? && b.deliverySet == delivery
  }

  /** The names of operations differ in length or at one of these places. */
  function Mark(name: string): (nat, char, char) {
    (|name|, if |name| > 5 then name[5] else ' ', if |name| > 13 then name[13] else ' ')
  }

  lemma NamesDiffer(a: Operation, b: Operation)
    ensures Mark(Name(a)) == Mark(Name(b)) && InputOf(a) == InputOf(b) ==> SameRequest(a, b)
  {
  }

  /** What a receipt is found by, and compared with, tells all requests apart, and nothing but requests. */
  lemma ReceiptsStandForRequests(a: Operation, b: Operation)
    ensures Name(a) == Name(b) && InputOf(a) == InputOf(b) <==> SameRequest(a, b)
  {
    NamesDiffer(a, b);
  }
}
