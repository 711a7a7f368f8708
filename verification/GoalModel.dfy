/**
 Goal records as the host stores them, shared by the goal services and by the follow-up scheduler.
 Only the fields that decide a transition are kept.
 */
module GoalModel {
  import opened Options

  datatype GoalStatus =
    | Draft
    | AwaitingAuthorization
    | Running
    | WaitingApproval
    | Pausing
    | Paused
    | AwaitingAcceptance
    | Failed
    | NeedsReconciliation
    | Accepted
    | Cancelled

  /** Usage or a budget cap: tokens and minor currency units are unbounded non-negative integers. */
  datatype Usage = Usage(currency: string, tokens: nat, cost: nat)

  datatype ReservationStatus = Reserved | Unknown | Settled
  datatype Reservation = Reservation(status: ReservationStatus, actual: Option<Usage>)

  datatype Goal = Goal(
    thread: nat,
    status: GoalStatus,
    budget: Usage,
    reservation: Option<Reservation>,
    executionRef: Option<nat>,
    coordinationRef: Option<nat>,
    plan: Option<nat>,
    deliverySet: Option<nat>,
    cancellationRequested: bool,
    reasonCode: string,
    streamVersion: nat)

  predicate Dispatched(g: Goal) {
    g.executionRef.Some? || g.coordinationRef.Some?
  }

  predicate IsSettled(g: Goal) {
    g.reservation.Some? && g.reservation.value.status.Settled?
  }

  function ActualOf(g: Goal): Option<Usage> {
    if g.reservation.Some? then g.reservation.value.actual else None
  }

  predicate Final(s: GoalStatus) {
    s.Accepted? || s.Cancelled?
  }

  predicate WithinBudget(u: Usage, budget: Usage) {
    u.tokens <= budget.tokens && u.cost <= budget.cost
  }

  /** A goal as `createGoalInTransaction` stores it. */
  function NewGoal(thread: nat, budget: Usage): Goal {
    Goal(thread, Draft, budget, None, None, None, None, None, false, "", 1)
  }

  /** What a successful start stores: the whole budget is reserved and the execution is bound. */
  function StartedGoal(g: Goal, execution: nat): Goal {
    g.(status := Running, reservation := Some(Reservation(Reserved, None)), executionRef := Some(execution))
  }

  /** `write`: every stored change takes the next stream version. */
  function Saved(previous: Goal, next: Goal): Goal {
    next.(streamVersion := previous.streamVersion + 1)
  }

  /** The reservation after a terminal or a still running execution was read. */
  function Settle(g: Goal, terminal: bool, usage: Option<Usage>): Result<Goal> {
    if terminal && usage.Some? then
      if usage.value.currency != g.budget.currency then Err("GOAL_BUDGET_CURRENCY_MISMATCH")
      else if IsSettled(g) && ActualOf(g) != usage then Err("GOAL_USAGE_CONFLICT")
      else Ok(g.(reservation := Some(Reservation(Settled, usage))))
    else if terminal && !IsSettled(g) then Ok(g.(reservation := Some(Reservation(Unknown, None))))
    else Ok(g)
  }

  function CancellationOutcome(g: Goal, terminal: bool): Goal {
    g.(status := if terminal && IsSettled(g) then Cancelled else NeedsReconciliation,
       reasonCode := if !terminal then "GOAL_CANCELLATION_PENDING" else if !IsSettled(g) then "GOAL_USAGE_UNKNOWN" else "")
  }

  /** Accepting a delivery; `reviewed` and `authorized` are the verdicts of the output and authority checks. */
  function AcceptState(g: Goal, delivery: nat, reviewed: bool, authorized: bool): Result<Goal> {
    if g.plan.None? then Err("GOAL_PLAN_REQUIRED")
    else if Final(g.status) then Err("GOAL_CLOSED")
    else if !g.status.AwaitingAcceptance? || g.deliverySet != Some(delivery) then Err("GOAL_DELIVERY_NOT_READY")
    else if !authorized then Err("GOAL_AUTHORIZATION_STALE")
    else if !reviewed then Err("GOAL_CRITERIA_NOT_REVIEWED")
    else Ok(g.(status := Accepted))
  }

  predicate OverBudget(g: Goal) {
    ActualOf(g).Some? && !WithinBudget(ActualOf(g).value, g.budget)
  }

  /** A cancelled coordinated goal whose settled usage exceeds its budget goes back to reconciliation when it is observed. */
  predicate Reopens(before: Goal, after: Goal) {
    before.status.Cancelled? && before.coordinationRef.Some? && OverBudget(before) && after.status.NeedsReconciliation?
  }

  /**
   What any goal service other than a start may do to a stored goal, seen from outside: the budget is fixed; accepted
   and cancelled goals keep their settlement, their binding and, one case apart, their outcome; a goal that was never
   dispatched is not dispatched and holds no reservation; and a dispatched goal stays bound to some execution.
   */
  predicate Evolves(before: Goal, after: Goal) {
    && after.budget == before.budget
    && (Final(before.status) ==>
          && (after.status == before.status || Reopens(before, after))
          && after.reservation == before.reservation
          && after.executionRef == before.executionRef && after.coordinationRef == before.coordinationRef)
    && (!Dispatched(before) ==> !Dispatched(after) && after.reservation == before.reservation)
    && (Dispatched(before) ==> Dispatched(after))
  }
}
