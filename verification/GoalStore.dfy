/**
 The stored goals, executions, archives and receipts, overwritten in place by the goal services' transactions. A
 transaction that throws puts back what it had written.
 */
module GoalStore {
  import opened Options
  import opened GoalModel
  import opened TeamGoals
  import opened GoalService

  /** The world and the answer after a transaction; one that throws changes nothing. */
  function Committed(w: World, r: Result<(World, Goal)>): (World, Result<Goal>) {
    if r.Err? then (w, Err(r.code)) else (r.value.0, Ok(r.value.1))
  }

  class GoalProjections {
    var goals: map<nat, Goal>
    var executions: map<nat, Execution>
    var external: map<nat, Usage>
    var history: seq<History>
    var receipts: map<ReceiptKey, Receipt>

    function View(): World
      reads this
    {
      World(goals, executions, external, history, receipts)
    }

    constructor ()
      ensures View() == World(map[], map[], map[], [], map[])
    {
      goals, executions, external, history, receipts := map[], map[], map[], [], map[];
    }

    /** Stores a changed goal under the next stream version and returns what was stored. */
    method Write(id: nat, previous: Goal, next: Goal) returns (stored: Goal)
      modifies this`goals
      ensures stored == Saved(previous, next)
      ensures goals == old(goals)[id := stored]
    {
      stored := next.(streamVersion := previous.streamVersion + 1);
      goals := goals[id := stored];
    }

    /** Dispatches the goal's plan: the queued execution is stored before the goal that is bound to it. */
    method StartGoal(id: nat, plan: nat, execution: nat, accepted: bool) returns (r: Result<Goal>)
      requires id in goals
      modifies this`executions
      ensures var c := StartState(old(View()), id, goals[id], plan, execution, accepted);
              if c.Ok? then r == Ok(c.value.goal) && executions == c.value.executions && external == c.value.external
              else r == Err(c.code) && executions == old(executions)
    {
      var goal := goals[id];
      if goal.plan.None? {
        return Err("GOAL_PLAN_REQUIRED");
      }
      if goal.status.Accepted? || goal.status.Cancelled? {
        return Err("GOAL_CLOSED");
      }
      if goal.plan.value != plan {
        return Err("GOAL_PLAN_CHANGED");
      }
      if !goal.status.AwaitingAuthorization? || goal.executionRef.Some? {
        return Err("GOAL_PLAN_IN_PROGRESS");
      }
      if ThreadBusy(View(), id, goal.thread, None) {
        return Err("GOAL_THREAD_BUSY");
      }
      if !accepted {
        return Err("GOAL_EXECUTION_INVALID");
      }
      executions := executions[execution := Execution(goal.thread, Queued)];
      r := Ok(goal.(status := Running, reservation := Some(Reservation(Reserved, None)), executionRef := Some(execution)));
    }

    /** Cancels the execution, unless it has ended, and marks the goal by what the execution's end leaves open. */
    method CancelGoal(id: nat, stopped: ExecutionStatus) returns (r: Result<Goal>)
      requires id in goals
      modifies this`executions
      ensures var c := CancelState(old(View()), goals[id], stopped);
              if c.Ok? then r == Ok(c.value.goal) && executions == c.value.executions && external == c.value.external
              else r == Err(c.code) && executions == old(executions)
    {
      var goal := goals[id];
      if goal.status.Accepted? || goal.status.Cancelled? {
        return Err("GOAL_CLOSED");
      }
      if goal.coordinationRef.Some? {
        return Err("GOAL_COORDINATED");
      }
      var next := goal.(cancellationRequested := true);
      if goal.executionRef.None? {
        return Ok(next.(status := Cancelled));
      }
      var at := goal.executionRef.value;
      if at !in executions {
        return Err("GOAL_EXECUTION_INVALID");
      }
      var cancelled := executions[at];
      if !Terminal(cancelled.status) {
        cancelled := cancelled.(status := stopped);
      }
      if !Terminal(cancelled.status) && !cancelled.status.ExecutionNeedsReconciliation? {
        return Err("GOAL_CANCELLATION_PENDING");
      }
      executions := executions[at := cancelled];
      if cancelled.status.ExecutionNeedsReconciliation? {
        next := next.(status := NeedsReconciliation, reasonCode := "GOAL_CANCELLATION_PENDING");
      } else if !IsSettled(goal) {
        next := next.(status := NeedsReconciliation, reasonCode := "GOAL_USAGE_UNKNOWN");
      } else {
        next := next.(status := Cancelled);
      }
      r := Ok(next);
    }

    /** Stores an external bill and observes the goal with it; a failed observation takes the bill back. */
    method RecordExternalUsage(id: nat, usage: Usage, reading: Reading) returns (r: Result<Goal>)
      requires id in goals
      modifies this`external
      ensures var c := RecordState(old(View()), goals[id], usage, reading);
              if c.Ok? then r == Ok(c.value.goal) && executions == c.value.executions && external == c.value.external
              else r == Err(c.code) && external == old(external)
    {
      var goal := goals[id];
      if goal.executionRef.None? || goal.executionRef.value !in executions {
        return Err("GOAL_EXTERNAL_USAGE_INVALID");
      }
      var at, saved := goal.executionRef.value, external;
      if !Terminal(executions[at].status) {
        return Err("GOAL_EXECUTION_PENDING");
      }
      if usage.currency != goal.budget.currency {
        return Err("GOAL_BUDGET_CURRENCY_MISMATCH");
      }
      if at in external || IsSettled(goal) {
        return Err("GOAL_USAGE_CONFLICT");
      }
      external := external[at := usage];
      r := ObserveGoal(goal, reading);
      if r.Err? {
        external := saved;
      }
    }

    /** What an observation makes of a goal: settlement first, then cancellation, budget, and the execution's status. */
    method ObserveGoal(goal: Goal, reading: Reading) returns (r: Result<Goal>)
      ensures r == ObserveState(goal, executions, reading)
    {
      if goal.status.Accepted? {
        return Err("GOAL_CLOSED");
      }
      if goal.executionRef.None? {
        return Err("GOAL_EXECUTION_REQUIRED");
      }
      if !goal.cancellationRequested && !reading.authorized {
        return Err("GOAL_AUTHORIZATION_STALE");
      }
      if goal.executionRef.value !in executions {
        return Err("GOAL_EXECUTION_INVALID");
      }
      var next, status := goal, executions[goal.executionRef.value].status;
      var terminal := Terminal(status);
      if terminal {
        if reading.usage.Some? {
          if reading.usage.value.currency != goal.budget.currency {
            return Err("GOAL_BUDGET_CURRENCY_MISMATCH");
          }
          if IsSettled(goal) && ActualOf(goal) != reading.usage {
            return Err("GOAL_USAGE_CONFLICT");
          }
          next := next.(reservation := Some(Reservation(Settled, reading.usage)));
        } else if !IsSettled(goal) {
          next := next.(reservation := Some(Reservation(Unknown, None)));
        }
      }
      if goal.cancellationRequested {
        next := CancellationOutcome(next, terminal);
      } else if OverBudget(next) {
        next := next.(status := NeedsReconciliation, reasonCode := "GOAL_BUDGET_OVERRUN");
      } else if terminal && !IsSettled(next) {
        next := next.(status := NeedsReconciliation, reasonCode := "GOAL_USAGE_UNKNOWN");
      } else {
        return Judge(next, status, reading.outputs);
      }
      r := Ok(next);
    }

    /** The same for a report on a group, where the budget comes before the cancellation. */
    method ObserveTeamGoal(goal: Goal, report: Report, authorized: bool) returns (r: Result<Goal>)
      ensures r == ObserveTeam(goal, report, authorized)
    {
      if goal.status.Accepted? {
        return Err("GOAL_CLOSED");
      }
      if !goal.cancellationRequested && !authorized {
        return Err("GOAL_AUTHORIZATION_STALE");
      }
      if goal.coordinationRef.None? || !Reportable(report.status) {
        return Err("GOAL_EXECUTION_INVALID");
      }
      var terminal := TerminalReport(report.status);
      var next := goal.(status := report.status, reasonCode := report.reasonCode);
      if report.usage.Some? {
        if report.usage.value.currency != goal.budget.currency {
          return Err("GOAL_BUDGET_CURRENCY_MISMATCH");
        }
        if IsSettled(goal) && ActualOf(goal) != report.usage {
          return Err("GOAL_USAGE_CONFLICT");
        }
        if terminal {
          next := next.(reservation := Some(Reservation(Settled, report.usage)));
        }
        if !WithinBudget(report.usage.value, goal.budget) {
          return Ok(next.(status := NeedsReconciliation, reasonCode := "GOAL_BUDGET_OVERRUN"));
        }
      } else if terminal && !IsSettled(goal) {
        next := next.(reservation := Some(Reservation(Unknown, None)));
      }
      if goal.cancellationRequested {
        return Ok(CancelledReport(next, terminal));
      }
      if terminal && !IsSettled(next) {
        return Ok(next.(status := NeedsReconciliation, reasonCode := "GOAL_USAGE_UNKNOWN"));
      }
      if report.status.AwaitingAcceptance? || (report.status.Failed? && report.delivers) {
        return Deliver(next, report);
      }
      r := Ok(next);
    }

    /** A mutation of a team goal; observing and recording a bill observe the group's report. */
    method ChangeTeamGoal(goal: Goal, threadBusy: bool, op: TeamOperation) returns (r: Result<Goal>)
      ensures r == ChangeTeam(goal, threadBusy, op)
    {
      if goal.executionRef.Some? {
        return Err("GOAL_TEAM_PLAN_REQUIRED");
      }
      match op
      case AdvanceTeam(report, authorized) => r := ObserveTeamGoal(goal, report, authorized);
      case RecordTeamUsage(_, report, authorized, refused) =>
        if refused.None? && goal.coordinationRef.Some? && authorized {
          r := ObserveTeamGoal(goal, report, true);
        } else {
          r := RecordTeam(goal, report, authorized, refused);
        }
      case StartTeam(plan, run, accepted) => r := StartTeamGoal(goal, threadBusy, plan, run, accepted);
      case ProposeTeam(plan, accepted) =>
        r := if Final(goal.status) then Err("GOAL_CLOSED")
             else if goal.coordinationRef.Some? || goal.reservation.Some? then Err("GOAL_PLAN_IN_PROGRESS")
             else if !accepted then Err("GOAL_PLAN_INVALID")
             else Ok(goal.(status := AwaitingAuthorization, plan := Some(plan)));
      case CommandTeam(c, nodeDecides, authorized, refused, active) => r := CommandState(goal, c, nodeDecides, authorized, refused, active);
      case AcceptTeam(delivery, reviewed, authorized) => r := AcceptState(goal, delivery, reviewed, authorized);
    }

    method StartTeamGoal(goal: Goal, threadBusy: bool, plan: nat, run: nat, accepted: bool) returns (r: Result<Goal>)
      requires goal.executionRef.None?
      ensures r == ChangeTeam(goal, threadBusy, StartTeam(plan, run, accepted))
    {
      if goal.plan.None? {
        return Err("GOAL_TEAM_PLAN_REQUIRED");
      }
      if Final(goal.status) {
        return Err("GOAL_CLOSED");
      }
      if goal.plan.value != plan {
        return Err("GOAL_PLAN_CHANGED");
      }
      if !goal.status.AwaitingAuthorization? || goal.coordinationRef.Some? || goal.reservation.Some? {
        return Err("GOAL_PLAN_IN_PROGRESS");
      }
      if threadBusy {
        return Err("GOAL_THREAD_BUSY");
      }
      if !accepted {
        return Err("GOAL_EXECUTION_INVALID");
      }
      r := Ok(goal.(status := Running, reservation := Some(Reservation(Reserved, None)), coordinationRef := Some(run)));
    }

    method ChangeGoal(id: nat, op: Operation) returns (r: Result<Goal>)
      requires id in goals
      modifies this`executions, this`external
      ensures var c := Change(old(View()), id, op);
              if c.Ok? then r == Ok(c.value.goal) && executions == c.value.executions && external == c.value.external
              else r == Err(c.code) && executions == old(executions) && external == old(external)
    {
      match op
      case StartPlan(plan, execution, accepted) => r := StartGoal(id, plan, execution, accepted);
      case Cancel(stopped) => r := CancelGoal(id, stopped);
      case RecordUsage(usage, reading) => r := RecordExternalUsage(id, usage, reading);
      case Advance(reading) => r := ObserveGoal(goals[id], reading);
      case ProposePlan(plan, accepted) => r := ProposeState(goals[id], plan, accepted);
      case Accept(delivery, reviewed, authorized) => r := AcceptState(goals[id], delivery, reviewed, authorized);
      case Team(t) => r := ChangeTeamGoal(goals[id], ThreadBusy(View(), id, goals[id].thread, None), t);
    }

    /** The answer is read last; if that throws, everything written is put back. */
    method CarryOutMutation(id: nat, op: Operation, at: ReceiptKey, expected: nat, unreadable: Option<string>) returns (response: Result<Goal>)
      requires id in goals
      modifies this
      ensures (View(), response) == Committed(old(View()), CarryOut(old(View()), id, op, at, expected, unreadable))
    {
      var previous := goals[id];
      if previous.streamVersion != expected {
        return Err("STREAM_VERSION_CONFLICT");
      }
      var savedGoals, savedExecutions, savedExternal, savedReceipts := goals, executions, external, receipts;
      response := ChangeGoal(id, op);
      if response.Err? {
        return;
      }
      var stored := Keep(id, response.value, at, Receipt(InputOf(op), expected, previous));
      response := Answer(op, stored, unreadable);
      if response.Err? {
        goals, executions, external, receipts := savedGoals, savedExecutions, savedExternal, savedReceipts;
      }
    }

    /** Stores a changed goal, if it changed, and the receipt with the stored goal as its response. */
    method Keep(id: nat, next: Goal, at: ReceiptKey, receipt: Receipt) returns (stored: Goal)
      requires id in goals
      modifies this`goals, this`receipts
      ensures stored == Versioned(old(goals)[id], next)
      ensures goals == old(goals)[id := stored] && receipts == old(receipts)[at := receipt.(response := stored)]
    {
      stored := next;
      if next != goals[id] {
        stored := Write(id, goals[id], next);
      }
      receipts := receipts[at := receipt.(response := stored)];
      assert goals == old(goals)[id := stored];
    }

    /** The transaction around every mutation. */
    method MutateGoal(id: nat, op: Operation, key: string, expected: nat, unreadable: Option<string>) returns (response: Result<Goal>)
      modifies this
      ensures (View(), response) == Committed(old(View()), Mutate(old(View()), id, op, key, expected, unreadable))
    {
      if id !in goals {
        return Err("GOAL_NOT_FOUND");
      }
      var at := ReceiptKey(Name(op), id, key);
      if at in receipts {
        if receipts[at].input != InputOf(op) || receipts[at].expectedVersion != expected {
          return Err("IDEMPOTENCY_KEY_REUSED");
        }
        response := Answer(op, receipts[at].response, unreadable);
        return;
      }
      response := CarryOutMutation(id, op, at, expected, unreadable);
    }

    /** The accounting-only pass over one goal: no delivery is judged, and the goal's status is kept unless the books decide it. */
    method ReconcileGoal(goal: Goal, reading: Reading) returns (r: Result<Goal>)
      ensures r == ReconcileState(goal, executions, reading)
    {
      if goal.executionRef.None? || goal.status.Accepted? {
        return Ok(goal);
      }
      if goal.executionRef.value !in executions {
        return Err("GOAL_EXECUTION_INVALID");
      }
      var next, status := goal, executions[goal.executionRef.value].status;
      var terminal := Terminal(status);
      if terminal && reading.usage.Some? {
        if reading.usage.value.currency != goal.budget.currency {
          return Err("GOAL_BUDGET_CURRENCY_MISMATCH");
        }
        if IsSettled(goal) && ActualOf(goal) != reading.usage {
          return Err("GOAL_USAGE_CONFLICT");
        }
        next := next.(reservation := Some(Reservation(Settled, reading.usage)));
      } else if terminal && !IsSettled(goal) {
        next := next.(reservation := Some(Reservation(Unknown, None)));
      }
      if goal.cancellationRequested {
        next := CancellationOutcome(next, terminal);
      } else if !reading.authorized {
        next := next.(status := NeedsReconciliation, reasonCode := "GOAL_AUTHORIZATION_STALE");
      } else if OverBudget(next) {
        next := next.(status := NeedsReconciliation, reasonCode := "GOAL_BUDGET_OVERRUN");
      } else if terminal && !IsSettled(next) {
        next := next.(status := NeedsReconciliation, reasonCode := "GOAL_USAGE_UNKNOWN");
      } else if status.ExecutionFailed? || status.ExecutionCancelled? {
        next := next.(status := Failed, reasonCode := "GOAL_EXECUTION_FAILED");
      }
      r := Ok(next);
    }

    method ReconcileGoalUsage(id: nat, r: Reading)
      modifies this
      ensures View() == Reconcile(old(View()), id, r)
    {
      if id in goals {
        var next := ReconcileGoal(goals[id], r);
        if next.Ok? && next.value != goals[id] {
          var _ := Write(id, goals[id], next.value);
        }
        assert goals == old(goals)[id := goals[id]];
      }
    }

    method DecideGoalDelivery(id: nat, expected: nat, allRequiredAccepted: bool) returns (error: Option<string>)
      modifies this
      ensures Decide(old(View()), id, expected, allRequiredAccepted).Ok? ==>
                error.None? && View() == Decide(old(View()), id, expected, allRequiredAccepted).value
      ensures Decide(old(View()), id, expected, allRequiredAccepted).Err? ==>
                error == Some(Decide(old(View()), id, expected, allRequiredAccepted).code) && View() == old(View())
    {
      if id !in goals {
        return Some("GOAL_NOT_FOUND");
      }
      var goal := goals[id];
      if !Writable(goal, expected) {
        return Some("GOAL_REWORK_PENDING");
      }
      if goal.deliverySet.None? {
        return Some("GOAL_DELIVERY_CHANGED");
      }
      var next := goal;
      if allRequiredAccepted {
        next := goal.(status := Accepted);
      }
      var _ := Write(id, goal, next);
      error := None;
    }

    /** Archives the present round and rebinds the goal; the archive is searched for an earlier entry of the same plan. */
    method ConfirmGoalRework(id: nat, expected: nat, previewCurrent: bool, plan: nat, run: nat) returns (error: Option<string>)
      modifies this
      ensures ConfirmRework(old(View()), id, expected, previewCurrent, plan, run).Ok? ==>
                error.None? && View() == ConfirmRework(old(View()), id, expected, previewCurrent, plan, run).value
      ensures ConfirmRework(old(View()), id, expected, previewCurrent, plan, run).Err? ==>
                error == Some(ConfirmRework(old(View()), id, expected, previewCurrent, plan, run).code) && View() == old(View())
    {
      if id !in goals {
        return Some("GOAL_NOT_FOUND");
      }
      var goal := goals[id];
      if !Writable(goal, expected) {
        return Some("GOAL_REWORK_PENDING");
      }
      if !previewCurrent {
        return Some("GOAL_PREVIEW_CHANGED");
      }
      if ThreadBusy(View(), id, goal.thread, goal.executionRef) {
        return Some("GOAL_THREAD_BUSY");
      }
      if goal.deliverySet.None? {
        return Some("GOAL_DELIVERY_CHANGED");
      }
      if Archived(history, id, goal.plan) {
        return Some("GOAL_HISTORY_EXISTS");
      }
      history := history + [History(id, goal.plan, ActualOf(goal).value)];
      var _ := Write(id, goal, ReworkedGoal(goal, plan, run));
      error := None;
    }
  }
}
