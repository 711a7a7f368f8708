/**
 The goal services over one tenant's stored goals and executions: plan, start, observe, reconcile, cancel, accept,
 decide and rework. Each function is one transaction; `Err` carries the error code of an aborted one.
 */
module GoalService {
  import opened Options
  import opened GoalModel
  import opened TeamGoals

  datatype ExecutionStatus =
    | Queued
    | ExecutionRunning
    | ExecutionWaitingApproval
    | ExecutionPaused
    | Interrupted
    | ExecutionNeedsReconciliation
    | Completed
    | ExecutionFailed
    | ExecutionCancelled

  datatype Execution = Execution(thread: nat, status: ExecutionStatus)

  predicate Terminal(s: ExecutionStatus) { s.Completed? || s.ExecutionFailed? || s.ExecutionCancelled? }

  /** An archived delivery round: the goal, its plan and the usage that was settled for it. */
  datatype History = History(goal: nat, plan: Option<nat>, usage: Usage)

  /** What identifies a mutation for idempotency: its operation, goal and key. */
  datatype ReceiptKey = ReceiptKey(operation: string, goal: nat, key: string)
  datatype Receipt = Receipt(input: Input, expectedVersion: nat, response: Goal)

  datatype World = World(
    goals: map<nat, Goal>,
    executions: map<nat, Execution>,
    external: map<nat, Usage>,
    history: seq<History>,
    receipts: map<ReceiptKey, Receipt>)

  /** The verdict of `checkOutputs` on what an execution produced. */
  datatype Outputs =
    | UnreadableOutput
    | RejectedOutput(code: string)
    | JudgedOutput(complete: bool, deliverySet: nat)

  /** What the observation port reports, and whether the stored authorization is still current. */
  datatype Reading = Reading(usage: Option<Usage>, outputs: Outputs, authorized: bool)

  datatype Input =
    | PlanInput(plan: nat)
    | StartInput(plan: nat)
    | NoInput
    | UsageInput(usage: Usage)
    | AcceptInput(deliverySet: nat)
    | DecisionInput(stop: bool)

  datatype Operation =
    | ProposePlan(plan: nat, planAccepted: bool)
    | StartPlan(plan: nat, execution: nat, planAccepted: bool)
    | Advance(reading: Reading)
    | RecordUsage(usage: Usage, reading: Reading)
    | Cancel(stopped: ExecutionStatus)
    | Accept(deliverySet: nat, reviewed: bool, authorized: bool)
    | Team(operation: TeamOperation)

  function Name(op: Operation): string {
    match op
    case ProposePlan(_, _) => "plan_proposed"
    case StartPlan(_, _, _) => "started"
    case Advance(_) => "observed"
    case RecordUsage(_, _) => "external_usage_recorded"
    case Cancel(_) => "cancelled"
    case Accept(_, _, _) => "accepted"
    case Team(t) => TeamName(t)
  }

  function TeamName(op: TeamOperation): string {
    match op
    case ProposeTeam(_, _) => "team.plan_proposed"
    case StartTeam(_, _, _) => "team.started"
    case AdvanceTeam(_, _) => "team.observed"
    case RecordTeamUsage(_, _, _, _) => "team.external_usage_recorded"
    case CommandTeam(c, _, _, _, _) =>
      if c.Pause? then "team.command_pause" else if c.Resume? then "team.command_resume"
      else if c.CancelTeam? then "team.command_cancel" else "team.command_decide"
    case AcceptTeam(_, _, _) => "team.accepted"
  }

  function InputOf(op: Operation): Input {
    match op
    case ProposePlan(plan, _) => PlanInput(plan)
    case StartPlan(plan, _, _) => StartInput(plan)
    case Advance(_) => NoInput
    case RecordUsage(usage, _) => UsageInput(usage)
    case Cancel(_) => NoInput
    case Accept(deliverySet, _, _) => AcceptInput(deliverySet)
    case Team(t) => TeamInput(t)
  }

  function TeamInput(op: TeamOperation): Input {
    match op
    case ProposeTeam(plan, _) => PlanInput(plan)
    case StartTeam(plan, _, _) => StartInput(plan)
    case AdvanceTeam(_, _) => NoInput
    case RecordTeamUsage(usage, _, _, _) => UsageInput(usage)
    case CommandTeam(c, _, _, _, _) => if c.Continue? || c.Stop? then DecisionInput(c.Stop?) else NoInput
    case AcceptTeam(deliverySet, _, _) => AcceptInput(deliverySet)
  }

  /** Operations that answer without the delivery when it can no longer be read; any other then fails. */
  predicate Redacted(op: Operation) {
    op.Advance? || op.Cancel? ||
    (op.Team? && (op.operation.AdvanceTeam? || op.operation.RecordTeamUsage?
                  || (op.operation.CommandTeam? && (op.operation.command.CancelTeam? || op.operation.command.Pause?))))
  }

  /** What the caller is told of a goal; `unreadable` is the error of reading its resources or delivery, if any. */
  function Answer(op: Operation, g: Goal, unreadable: Option<string>): Result<Goal> {
    if unreadable.None? then Ok(g) else if Redacted(op) then Ok(g.(deliverySet := None)) else Err(unreadable.value)
  }

  // ---------------------------------------------------------------- observation

  function Judge(g: Goal, status: ExecutionStatus, outputs: Outputs): Result<Goal> {
    match status
    case ExecutionFailed => Ok(g.(status := Failed, reasonCode := "GOAL_EXECUTION_FAILED"))
    case ExecutionCancelled => Ok(g.(status := Failed, reasonCode := "GOAL_EXECUTION_FAILED"))
    case Completed =>
      (match outputs
       case UnreadableOutput => Ok(g.(status := Failed, reasonCode := "GOAL_OUTPUT_INVALID"))
       case RejectedOutput(code) => Err(code)
       case JudgedOutput(complete, delivery) =>
         if !complete then Ok(g.(status := Failed, reasonCode := "GOAL_DELIVERY_INCOMPLETE"))
         else if g.deliverySet.Some? && g.deliverySet != Some(delivery) then Err("GOAL_OUTPUT_INVALID")
         else Ok(g.(status := AwaitingAcceptance, deliverySet := Some(delivery), reasonCode := "")))
    case ExecutionWaitingApproval => Ok(g.(status := WaitingApproval))
    case ExecutionNeedsReconciliation => Ok(g.(status := NeedsReconciliation, reasonCode := "GOAL_EXECUTION_PENDING"))
    case ExecutionPaused => Ok(g.(status := NeedsReconciliation, reasonCode := "GOAL_EXECUTION_PENDING"))
    case Interrupted => Ok(g.(status := NeedsReconciliation, reasonCode := "GOAL_EXECUTION_PENDING"))
    case Queued => Ok(g.(status := Running, reasonCode := ""))
    case ExecutionRunning => Ok(g.(status := Running, reasonCode := ""))
  }

  function ObserveState(g: Goal, executions: map<nat, Execution>, r: Reading): Result<Goal> {
    if g.status.Accepted? then Err("GOAL_CLOSED")
    else if g.executionRef.None? then Err("GOAL_EXECUTION_REQUIRED")
    else if !g.cancellationRequested && !r.authorized then Err("GOAL_AUTHORIZATION_STALE")
    else if g.executionRef.value !in executions then Err("GOAL_EXECUTION_INVALID")
    else
      var status := executions[g.executionRef.value].status;
      var settled := Settle(g, Terminal(status), r.usage);
      if settled.Err? then settled
      else
        var next := settled.value;
        if g.cancellationRequested then Ok(CancellationOutcome(next, Terminal(status)))
        else if OverBudget(next) then Ok(next.(status := NeedsReconciliation, reasonCode := "GOAL_BUDGET_OVERRUN"))
        else if Terminal(status) && !IsSettled(next) then Ok(next.(status := NeedsReconciliation, reasonCode := "GOAL_USAGE_UNKNOWN"))
        else Judge(next, status, r.outputs)
  }

  /** The accounting-only pass, which registers no delivery and never raises a status by itself. */
  function ReconcileState(g: Goal, executions: map<nat, Execution>, r: Reading): Result<Goal> {
    if g.executionRef.None? || g.status.Accepted? then Ok(g)
    else if g.executionRef.value !in executions then Err("GOAL_EXECUTION_INVALID")
    else
      var status := executions[g.executionRef.value].status;
      var settled := Settle(g, Terminal(status), r.usage);
      if settled.Err? then settled
      else
        var next := settled.value;
        if g.cancellationRequested then Ok(CancellationOutcome(next, Terminal(status)))
        else if !r.authorized then Ok(next.(status := NeedsReconciliation, reasonCode := "GOAL_AUTHORIZATION_STALE"))
        else if OverBudget(next) then Ok(next.(status := NeedsReconciliation, reasonCode := "GOAL_BUDGET_OVERRUN"))
        else if Terminal(status) && !IsSettled(next) then Ok(next.(status := NeedsReconciliation, reasonCode := "GOAL_USAGE_UNKNOWN"))
        else if status.ExecutionFailed? || status.ExecutionCancelled? then Ok(next.(status := Failed, reasonCode := "GOAL_EXECUTION_FAILED"))
        else Ok(next)
  }

  // ---------------------------------------------------------------- mutations

  /** A goal that may still be using its thread. */
  predicate Busy(g: Goal) { Dispatched(g) && !IsSettled(g) }

  predicate ThreadBusy(w: World, id: nat, thread: nat, except: Option<nat>) {
    || (exists e :: e in w.executions && w.executions[e].thread == thread && Some(e) != except && !Terminal(w.executions[e].status))
    || (exists other :: other in w.goals && other != id && w.goals[other].thread == thread && Busy(w.goals[other]))
  }

  function PutGoal(w: World, id: nat, g: Goal): World { w.(goals := w.goals[id := g]) }

  /** What one mutation changes: the goal, not yet versioned, the executions and the external bills. */
  datatype Changed = Changed(goal: Goal, executions: map<nat, Execution>, external: map<nat, Usage>)

  function OnlyGoal(w: World, next: Result<Goal>): Result<Changed> {
    if next.Err? then Err(next.code) else Ok(Changed(next.value, w.executions, w.external))
  }

  function StartState(w: World, id: nat, g: Goal, plan: nat, execution: nat, accepted: bool): Result<Changed> {
    if g.plan.None? then Err("GOAL_PLAN_REQUIRED")
    else if Final(g.status) then Err("GOAL_CLOSED")
    else if g.plan.value != plan then Err("GOAL_PLAN_CHANGED")
    else if !g.status.AwaitingAuthorization? || g.executionRef.Some? then Err("GOAL_PLAN_IN_PROGRESS")
    else if ThreadBusy(w, id, g.thread, None) then Err("GOAL_THREAD_BUSY")
    else if !accepted then Err("GOAL_EXECUTION_INVALID")
    else Ok(Changed(StartedGoal(g, execution), w.executions[execution := Execution(g.thread, Queued)], w.external))
  }

  /** The second guard stands for the routing of coordinated goals to the team services. */
  function CancelState(w: World, g: Goal, stopped: ExecutionStatus): Result<Changed> {
    if Final(g.status) then Err("GOAL_CLOSED")
    else if g.coordinationRef.Some? then Err("GOAL_COORDINATED")
    else if g.executionRef.None? then
      Ok(Changed(g.(status := Cancelled, cancellationRequested := true), w.executions, w.external))
    else if g.executionRef.value !in w.executions then Err("GOAL_EXECUTION_INVALID")
    else
      var e := w.executions[g.executionRef.value];
      var after := if Terminal(e.status) then e.status else stopped;
      if !Terminal(after) && !after.ExecutionNeedsReconciliation? then Err("GOAL_CANCELLATION_PENDING")
      else Ok(Changed(CancelledGoal(g, after), w.executions[g.executionRef.value := e.(status := after)], w.external))
  }

  function CancelledGoal(g: Goal, after: ExecutionStatus): Goal {
    var next :=
      if after.ExecutionNeedsReconciliation? then g.(status := NeedsReconciliation, reasonCode := "GOAL_CANCELLATION_PENDING")
      else if !IsSettled(g) then g.(status := NeedsReconciliation, reasonCode := "GOAL_USAGE_UNKNOWN")
      else g.(status := Cancelled);
    next.(cancellationRequested := true)
  }

  function RecordState(w: World, g: Goal, usage: Usage, r: Reading): Result<Changed> {
    if g.executionRef.None? || g.executionRef.value !in w.executions then Err("GOAL_EXTERNAL_USAGE_INVALID")
    else if !Terminal(w.executions[g.executionRef.value].status) then Err("GOAL_EXECUTION_PENDING")
    else if usage.currency != g.budget.currency then Err("GOAL_BUDGET_CURRENCY_MISMATCH")
    else if g.executionRef.value in w.external || IsSettled(g) then Err("GOAL_USAGE_CONFLICT")
    else
      var next := ObserveState(g, w.executions, r);
      if next.Err? then Err(next.code) else Ok(Changed(next.value, w.executions, w.external[g.executionRef.value := usage]))
  }

  function ProposeState(g: Goal, plan: nat, accepted: bool): Result<Goal> {
    if Final(g.status) then Err("GOAL_CLOSED")
    else if g.executionRef.Some? || g.reservation.Some? then Err("GOAL_PLAN_IN_PROGRESS")
    else if !accepted then Err("GOAL_PLAN_INVALID")
    else Ok(g.(status := AwaitingAuthorization, plan := Some(plan)))
  }

  function Change(w: World, id: nat, op: Operation): Result<Changed>
    requires id in w.goals
  {
    var g := w.goals[id];
    match op
    case ProposePlan(plan, accepted) => OnlyGoal(w, ProposeState(g, plan, accepted))
    case StartPlan(plan, execution, accepted) => StartState(w, id, g, plan, execution, accepted)
    case Advance(r) => OnlyGoal(w, ObserveState(g, w.executions, r))
    case RecordUsage(usage, r) => RecordState(w, g, usage, r)
    case Cancel(stopped) => CancelState(w, g, stopped)
    case Accept(delivery, reviewed, authorized) => OnlyGoal(w, AcceptState(g, delivery, reviewed, authorized))
    case Team(t) => OnlyGoal(w, ChangeTeam(g, ThreadBusy(w, id, g.thread, None), t))
  }

  /** A changed goal takes the next stream version; an unchanged one is not stored again. */
  function Versioned(g: Goal, next: Goal): Goal { if next == g then g else Saved(g, next) }

  function Stored(w: World, id: nat, c: Changed, at: ReceiptKey, receipt: Receipt): World
    requires id in w.goals
  {
    World(w.goals[id := Versioned(w.goals[id], c.goal)], c.executions, c.external, w.history, w.receipts[at := receipt])
  }

  /** A mutation that is not a repetition: the version check, the change, the version step, the receipt and the answer. */
  function CarryOut(w: World, id: nat, op: Operation, at: ReceiptKey, expected: nat, unreadable: Option<string>): Result<(World, Goal)>
    requires id in w.goals
  {
    if w.goals[id].streamVersion != expected then Err("STREAM_VERSION_CONFLICT")
    else
      var changed := Change(w, id, op);
      if changed.Err? then Err(changed.code)
      else
        var next := Versioned(w.goals[id], changed.value.goal);
        var answer := Answer(op, next, unreadable);
        if answer.Err? then Err(answer.code)
        else Ok((Stored(w, id, changed.value, at, Receipt(InputOf(op), expected, next)), answer.value))
  }

  /**
   `mutate`: a repetition is answered by its receipt, anything else is carried out. An answer that cannot be read aborts the
   transaction with everything it stored.
   */
  function Mutate(w: World, id: nat, op: Operation, key: string, expected: nat, unreadable: Option<string>): Result<(World, Goal)> {
    if id !in w.goals then Err("GOAL_NOT_FOUND")
    else
      var at := ReceiptKey(Name(op), id, key);
      if at in w.receipts then
        if w.receipts[at].input != InputOf(op) || w.receipts[at].expectedVersion != expected then Err("IDEMPOTENCY_KEY_REUSED")
        else
          var answer := Answer(op, w.receipts[at].response, unreadable);
          if answer.Err? then Err(answer.code) else Ok((w, answer.value))
      else CarryOut(w, id, op, at, expected, unreadable)
  }

  // ---------------------------------------------------------------- background passes

  /** A pass that stores the goal only when it changed and gives up on an error. */
  function Polled(w: World, id: nat, next: Result<Goal>): World
    requires id in w.goals
  {
    if next.Err? then w else PutGoal(w, id, Versioned(w.goals[id], next.value))
  }

  function Observe(w: World, id: nat, r: Reading): World {
    if id !in w.goals then w else Polled(w, id, ObserveState(w.goals[id], w.executions, r))
  }

  function Reconcile(w: World, id: nat, r: Reading): World {
    if id !in w.goals then w else Polled(w, id, ReconcileState(w.goals[id], w.executions, r))
  }

  function ObserveGroup(w: World, id: nat, r: Report, authorized: bool): World {
    if id !in w.goals then w else Polled(w, id, ObserveTeam(w.goals[id], r, authorized))
  }

  function ReconcileGroup(w: World, id: nat, r: Report, authorized: bool): World {
    if id !in w.goals then w else Polled(w, id, ReconcileTeam(w.goals[id], r, authorized))
  }

  // ---------------------------------------------------------------- delivery decisions and rework

  predicate Writable(g: Goal, expected: nat) {
    && g.streamVersion == expected
    && (g.status.AwaitingAcceptance? || g.status.Failed?)
    && IsSettled(g) && ActualOf(g).Some?
  }

  function Decide(w: World, id: nat, expected: nat, allRequiredAccepted: bool): Result<World> {
    if id !in w.goals then Err("GOAL_NOT_FOUND")
    else
      var g := w.goals[id];
      if !Writable(g, expected) then Err("GOAL_REWORK_PENDING")
      else if g.deliverySet.None? then Err("GOAL_DELIVERY_CHANGED")
      else Ok(PutGoal(w, id, Saved(g, if allRequiredAccepted then g.(status := Accepted) else g)))
  }

  predicate Archived(history: seq<History>, id: nat, plan: Option<nat>) {
    exists i :: 0 <= i < |history| && history[i].goal == id && history[i].plan == plan
  }

  function ReworkedGoal(g: Goal, plan: nat, run: nat): Goal {
    g.(status := Running, plan := Some(plan), reservation := Some(Reservation(Reserved, None)), executionRef := None,
       coordinationRef := Some(run), deliverySet := None, cancellationRequested := false, reasonCode := "")
  }

  /** `previewCurrent` stands for the preview, evidence, reuse and capacity checks of the confirmation. */
  function ConfirmRework(w: World, id: nat, expected: nat, previewCurrent: bool, plan: nat, run: nat): Result<World> {
    if id !in w.goals then Err("GOAL_NOT_FOUND")
    else
      var g := w.goals[id];
      if !Writable(g, expected) then Err("GOAL_REWORK_PENDING")
      else if !previewCurrent then Err("GOAL_PREVIEW_CHANGED")
      else if ThreadBusy(w, id, g.thread, g.executionRef) then Err("GOAL_THREAD_BUSY")
      else if g.deliverySet.None? then Err("GOAL_DELIVERY_CHANGED")
      else if Archived(w.history, id, g.plan) then Err("GOAL_HISTORY_EXISTS")
      else Ok(PutGoal(w, id, Saved(g, ReworkedGoal(g, plan, run))).(history := w.history + [History(id, g.plan, ActualOf(g).value)]))
  }
}
