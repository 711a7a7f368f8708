/**
 Goals that run as a coordinated group: what the team services store on the group's reports, on control commands and on
 an external bill. Each function gives the goal that a transaction stores, not yet versioned.
 */
module TeamGoals {
  import opened Options
  import opened GoalModel

  /** The verdict on the outputs that a report carries. */
  datatype TeamOutputs = Refused(code: string) | Judged(complete: bool, deliverySet: nat)

  /** What the port reports on the group; an empty reason stands for none, `delivers` says that outputs are given. */
  datatype Report = Report(status: GoalStatus, usage: Option<Usage>, reasonCode: string, delivers: bool, outputs: TeamOutputs)

  datatype Command = Pause | Resume | CancelTeam | Continue | Stop

  /** `refused` is the error of the coordination service, if any; `active` says that an attempt still runs. */
  datatype TeamOperation =
    | ProposeTeam(plan: nat, planAccepted: bool)
    | StartTeam(plan: nat, run: nat, planAccepted: bool)
    | AdvanceTeam(report: Report, authorized: bool)
    | RecordTeamUsage(usage: Usage, report: Report, authorized: bool, refused: Option<string>)
    | CommandTeam(command: Command, nodeDecides: bool, authorized: bool, refused: Option<string>, active: bool)
    | AcceptTeam(deliverySet: nat, reviewed: bool, authorized: bool)

  predicate TerminalReport(s: GoalStatus) { s.AwaitingAcceptance? || s.Failed? || s.Cancelled? }

  predicate Reportable(s: GoalStatus) { !s.Draft? && !s.AwaitingAuthorization? && !s.Accepted? }

  /** The reservation after a report: any reported usage is checked, and a terminal report settles it. */
  function SettleReported(g: Goal, terminal: bool, usage: Option<Usage>): Result<Goal> {
    if usage.Some? then
      if usage.value.currency != g.budget.currency then Err("GOAL_BUDGET_CURRENCY_MISMATCH")
      else if IsSettled(g) && ActualOf(g) != usage then Err("GOAL_USAGE_CONFLICT")
      else Ok(if terminal then g.(reservation := Some(Reservation(Settled, usage))) else g)
    else if terminal && !IsSettled(g) then Ok(g.(reservation := Some(Reservation(Unknown, None))))
    else Ok(g)
  }

  function CancelledReport(g: Goal, terminal: bool): Goal {
    g.(status := if terminal && IsSettled(g) then Cancelled else NeedsReconciliation,
       reasonCode := if !IsSettled(g) then "GOAL_USAGE_UNKNOWN" else if terminal then "" else "GOAL_CANCELLATION_PENDING")
  }

  /** A report that delivers registers the delivery set, unless another one is registered already. */
  function Deliver(g: Goal, r: Report): Result<Goal> {
    if r.outputs.Refused? then Err(r.outputs.code)
    else if r.status.AwaitingAcceptance? && !r.outputs.complete then Ok(g.(status := Failed, reasonCode := "GOAL_DELIVERY_INCOMPLETE"))
    else if g.deliverySet.Some? && g.deliverySet.value != r.outputs.deliverySet then Err("GOAL_OUTPUT_INVALID")
    else Ok(g.(deliverySet := Some(r.outputs.deliverySet)))
  }

  /** Observing a report. The budget is compared before the cancellation is looked at. */
  function ObserveTeam(g: Goal, r: Report, authorized: bool): Result<Goal> {
    if g.status.Accepted? then Err("GOAL_CLOSED")
    else if !g.cancellationRequested && !authorized then Err("GOAL_AUTHORIZATION_STALE")
    else if g.coordinationRef.None? || !Reportable(r.status) then Err("GOAL_EXECUTION_INVALID")
    else
      var terminal := TerminalReport(r.status);
      var settled := SettleReported(g, terminal, r.usage);
      if settled.Err? then settled
      else
        var next := settled.value.(status := r.status, reasonCode := r.reasonCode);
        if r.usage.Some? && !WithinBudget(r.usage.value, g.budget)
        then Ok(next.(status := NeedsReconciliation, reasonCode := "GOAL_BUDGET_OVERRUN"))
        else if g.cancellationRequested then Ok(CancelledReport(next, terminal))
        else if terminal && !IsSettled(next) then Ok(next.(status := NeedsReconciliation, reasonCode := "GOAL_USAGE_UNKNOWN"))
        else if r.status.AwaitingAcceptance? || (r.status.Failed? && r.delivers) then Deliver(next, r)
        else Ok(next)
  }

  /** The accounting-only pass; here a requested cancellation comes before the budget. */
  function ReconcileTeam(g: Goal, r: Report, authorized: bool): Result<Goal> {
    if g.coordinationRef.None? || g.status.Accepted? then Ok(g)
    else
      var terminal := TerminalReport(r.status);
      var settled := Settle(g, terminal, r.usage);
      if settled.Err? then settled
      else
        var next := settled.value;
        if g.cancellationRequested then Ok(CancellationOutcome(next, terminal))
        else if !authorized then Ok(next.(status := NeedsReconciliation, reasonCode := "GOAL_AUTHORIZATION_STALE"))
        else if OverBudget(next) then Ok(next.(status := NeedsReconciliation, reasonCode := "GOAL_BUDGET_OVERRUN"))
        else if terminal && !IsSettled(next) then Ok(next.(status := NeedsReconciliation, reasonCode := "GOAL_USAGE_UNKNOWN"))
        else if r.status.Failed? || r.status.Cancelled?
        then Ok(next.(status := Failed, reasonCode := if r.reasonCode == "" then "GOAL_EXECUTION_FAILED" else r.reasonCode))
        else Ok(next)
  }

  /** Recording an external bill; without authority only the accounting is closed. */
  function RecordTeam(g: Goal, r: Report, authorized: bool, refused: Option<string>): Result<Goal> {
    if refused.Some? then Err(refused.value)
    else if g.coordinationRef.None? then Err("GOAL_EXTERNAL_USAGE_INVALID")
    else if authorized then ObserveTeam(g, r, true)
    else if r.usage.None? || !TerminalReport(r.status) then Err("GOAL_USAGE_UNKNOWN")
    else if r.usage.value.currency != g.budget.currency then Err("GOAL_BUDGET_CURRENCY_MISMATCH")
    else
      var over := !WithinBudget(r.usage.value, g.budget);
      Ok(g.(reservation := Some(Reservation(Settled, r.usage)),
            status := if over then NeedsReconciliation else if g.cancellationRequested then Cancelled else Failed,
            reasonCode := if over then "GOAL_BUDGET_OVERRUN" else "GOAL_AUTHORIZATION_STALE"))
  }

  function CommandState(g: Goal, c: Command, nodeDecides: bool, authorized: bool, refused: Option<string>, active: bool): Result<Goal> {
    if Final(g.status) then Err("GOAL_CLOSED")
    else if c.CancelTeam? && g.cancellationRequested then Ok(g)
    else if c.Resume? && (g.cancellationRequested || !(g.status.Paused? || g.status.Pausing?)) then Err("GOAL_RESUME_INVALID")
    else if (c.Continue? || c.Stop?) && !nodeDecides then Err("GOAL_DECISION_INVALID")
    else if !c.CancelTeam? && !c.Pause? && !authorized then Err("GOAL_AUTHORIZATION_STALE")
    else if g.coordinationRef.None? && c.CancelTeam? then Ok(g.(status := Cancelled, cancellationRequested := true))
    else if g.coordinationRef.None? then Err("GOAL_EXECUTION_INVALID")
    else if refused.Some? then Err(refused.value)
    else
      match c
      case CancelTeam => Ok(StoppedTeam(g))
      case Stop => Ok(StoppedTeam(g))
      case Pause => Ok(g.(status := if active then Pausing else Paused, reasonCode := ""))
      case Resume => Ok(g.(status := Running, reasonCode := ""))
      case Continue => Ok(g.(status := Running, reasonCode := ""))
  }

  function StoppedTeam(g: Goal): Goal {
    g.(cancellationRequested := true, status := if IsSettled(g) then Cancelled else NeedsReconciliation,
       reasonCode := if IsSettled(g) then "" else "GOAL_USAGE_UNKNOWN")
  }

  /** One mutation of a team goal. The first guard stands for the routing of goals whose plan is a single execution. */
  function ChangeTeam(g: Goal, threadBusy: bool, op: TeamOperation): Result<Goal> {
    if g.executionRef.Some? then Err("GOAL_TEAM_PLAN_REQUIRED")
    else
      match op
      case ProposeTeam(plan, accepted) =>
        if Final(g.status) then Err("GOAL_CLOSED")
        else if g.coordinationRef.Some? || g.reservation.Some? then Err("GOAL_PLAN_IN_PROGRESS")
        else if !accepted then Err("GOAL_PLAN_INVALID")
        else Ok(g.(status := AwaitingAuthorization, plan := Some(plan)))
      case StartTeam(plan, run, accepted) =>
        if g.plan.None? then Err("GOAL_TEAM_PLAN_REQUIRED")
        else if Final(g.status) then Err("GOAL_CLOSED")
        else if g.plan.value != plan then Err("GOAL_PLAN_CHANGED")
        else if !g.status.AwaitingAuthorization? || g.coordinationRef.Some? || g.reservation.Some? then Err("GOAL_PLAN_IN_PROGRESS")
        else if threadBusy then Err("GOAL_THREAD_BUSY")
        else if !accepted then Err("GOAL_EXECUTION_INVALID")
        else Ok(g.(status := Running, reservation := Some(Reservation(Reserved, None)), coordinationRef := Some(run)))
      case AdvanceTeam(r, authorized) => ObserveTeam(g, r, authorized)
      case RecordTeamUsage(_, r, authorized, refused) => RecordTeam(g, r, authorized, refused)
      case CommandTeam(c, nodeDecides, authorized, refused, active) => CommandState(g, c, nodeDecides, authorized, refused, active)
      case AcceptTeam(delivery, reviewed, authorized) => AcceptState(g, delivery, reviewed, authorized)
  }
}
