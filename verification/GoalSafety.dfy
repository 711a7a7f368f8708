/**
 What every run of the goal and team services keeps: outcomes with settled usage inside the budget, final outcomes and
 settlements, at most one goal per thread that may still be spending, and receipts that answer for ever.
 */
module GoalSafety {
  import opened Options
  import opened GoalModel
  import opened TeamGoals
  import opened GoalService

  predicate SettlementOk(g: Goal, executions: map<nat, Execution>) {
    && g.reservation.Some?
    && (g.reservation.value.status.Settled? <==> g.reservation.value.actual.Some?)
    && (IsSettled(g) ==> ActualOf(g).value.currency == g.budget.currency)
    && (g.executionRef.Some? ==>
          && g.executionRef.value in executions
          && executions[g.executionRef.value].thread == g.thread
          && (IsSettled(g) ==> Terminal(executions[g.executionRef.value].status)))
  }

  predicate GoalOk(g: Goal, executions: map<nat, Execution>) {
    && !(g.executionRef.Some? && g.coordinationRef.Some?)
    && (if Dispatched(g) then SettlementOk(g, executions)
        else g.reservation.None? && g.deliverySet.None? && (g.status.Draft? || g.status.AwaitingAuthorization? || g.status.Cancelled?))
    && (g.status.Draft? || g.status.AwaitingAuthorization? ==> !Dispatched(g))
    && (g.status.AwaitingAcceptance? || g.status.Failed? || g.status.Accepted? ==> IsSettled(g) && WithinBudget(ActualOf(g).value, g.budget))
    && (g.status.AwaitingAcceptance? || g.status.Accepted? ==> g.deliverySet.Some?)
    && (g.executionRef.Some? && g.deliverySet.Some? ==> executions[g.executionRef.value].status.Completed?)
    && (g.status.Cancelled? ==> g.cancellationRequested && (Dispatched(g) ==> IsSettled(g)))
    && (g.cancellationRequested ==> g.status.Cancelled? || g.status.NeedsReconciliation?)
  }

  predicate AllGoalsOk(w: World) {
    forall id :: id in w.goals ==> GoalOk(w.goals[id], w.executions)
  }

  /** At most one goal of a thread may still be spending. */
  predicate ThreadsExclusive(goals: map<nat, Goal>) {
    forall a, b :: a in goals && b in goals && a != b && Busy(goals[a]) && Busy(goals[b]) ==> goals[a].thread != goals[b].thread
  }

  predicate Inv(w: World) { AllGoalsOk(w) && ThreadsExclusive(w.goals) }

  /** Executions are only added, keep their thread, and stay finished once they finished. */
  predicate ExecutionsAdvance(before: map<nat, Execution>, after: map<nat, Execution>) {
    forall e :: e in before ==>
      && e in after && after[e].thread == before[e].thread
      && (Terminal(before[e].status) ==> after[e].status == before[e].status)
  }

  // ---------------------------------------------------------------- steps

  datatype Step =
    | MutateStep(goal: nat, operation: Operation, key: string, expected: nat, unreadable: Option<string>)
    | ObserveStep(goal: nat, reading: Reading)
    | ReconcileStep(goal: nat, reading: Reading)
    | ObserveGroupStep(goal: nat, report: Report, authorized: bool)
    | ReconcileGroupStep(goal: nat, report: Report, authorized: bool)
    | DecideStep(goal: nat, expected: nat, allRequiredAccepted: bool)
    | ReworkStep(goal: nat, expected: nat, previewCurrent: bool, plan: nat, run: nat)
    | CreateStep(goal: nat, thread: nat, budget: Usage)
    | ExecutionsStep(executions: map<nat, Execution>)

  function Apply(w: World, step: Step): World {
    match step
    case MutateStep(id, op, key, expected, unreadable) =>
      (var r := Mutate(w, id, op, key, expected, unreadable); if r.Ok? then r.value.0 else w)
    case ObserveStep(id, r) => Observe(w, id, r)
    case ReconcileStep(id, r) => Reconcile(w, id, r)
    case ObserveGroupStep(id, r, authorized) => ObserveGroup(w, id, r, authorized)
    case ReconcileGroupStep(id, r, authorized) => ReconcileGroup(w, id, r, authorized)
    case DecideStep(id, expected, all) => (var r := Decide(w, id, expected, all); if r.Ok? then r.value else w)
    case ReworkStep(id, expected, current, plan, run) => (var r := ConfirmRework(w, id, expected, current, plan, run); if r.Ok? then r.value else w)
    case CreateStep(id, thread, budget) => PutGoal(w, id, NewGoal(thread, budget))
    case ExecutionsStep(executions) => w.(executions := executions)
  }

  /**
   The contract of the port that reports on a group: a group is reported cancelled only after it was cancelled; a
   terminal report on a settled goal carries its usage again; and a settled cancelled group has stopped.
   */
  predicate ReportMay(g: Goal, r: Report) {
    && (r.status.Cancelled? ==> g.cancellationRequested)
    && (IsSettled(g) && TerminalReport(r.status) ==> r.usage.Some?)
    && (IsSettled(g) && g.cancellationRequested ==> TerminalReport(r.status))
  }

  /** A cancelled group takes no further command, and a bill is recorded only for an attempt that is not settled. */
  predicate TeamMay(g: Goal, op: TeamOperation) {
    match op
    case AdvanceTeam(r, _) => ReportMay(g, r)
    case RecordTeamUsage(_, r, _, refused) => ReportMay(g, r) && (IsSettled(g) ==> refused.Some?)
    case CommandTeam(c, _, _, refused, _) => (c.Pause? || c.Continue?) && g.cancellationRequested ==> refused.Some?
    case _ => true
  }

  predicate OperationMay(w: World, id: nat, op: Operation) {
    && (op.StartPlan? ==> op.execution !in w.executions)
    && (op.Team? && id in w.goals ==> TeamMay(w.goals[id], op.operation))
  }

  /** New ids are fresh, executions advance, and the coordination service keeps its contract. */
  predicate Enabled(w: World, step: Step) {
    match step
    case MutateStep(id, op, _, _, _) => OperationMay(w, id, op)
    case ObserveGroupStep(id, r, _) => id in w.goals ==> ReportMay(w.goals[id], r)
    case ReconcileGroupStep(id, r, _) => id in w.goals ==> ReportMay(w.goals[id], r)
    case CreateStep(id, _, _) => id !in w.goals
    case ExecutionsStep(executions) => ExecutionsAdvance(w.executions, executions)
    case _ => true
  }

  // ---------------------------------------------------------------- one goal

  /** What every operation but a start and a rework does to its goal. */
  predicate Moves(g: Goal, n: Goal, executions: map<nat, Execution>) {
    && GoalOk(n, executions) && Evolves(g, n) && n.thread == g.thread
    && (IsSettled(g) ==> n.reservation == g.reservation)
    && (Busy(n) ==> Busy(g))
  }

  lemma SettlingKeepsGoal(g: Goal, executions: map<nat, Execution>, usage: Option<Usage>)
    requires GoalOk(g, executions) && g.executionRef.Some?
    ensures var next := Settle(g, Terminal(executions[g.executionRef.value].status), usage);
            next.Ok? ==> SettlementOk(next.value, executions) && (IsSettled(g) ==> next.value == g)
  {
  }

  lemma ObservingKeepsGoal(g: Goal, executions: map<nat, Execution>, r: Reading)
    requires GoalOk(g, executions)
    ensures var next := ObserveState(g, executions, r);
            next.Ok? ==> Moves(g, next.value, executions)
  {
    if g.executionRef.Some? {
      SettlingKeepsGoal(g, executions, r.usage);
    }
  }

  lemma ReconcilingKeepsGoal(g: Goal, executions: map<nat, Execution>, r: Reading)
    requires GoalOk(g, executions)
    ensures var next := ReconcileState(g, executions, r);
            next.Ok? ==> Moves(g, next.value, executions)
  {
    if g.executionRef.Some? {
      SettlingKeepsGoal(g, executions, r.usage);
    }
  }

  lemma SettlingKeepsTeam(g: Goal, executions: map<nat, Execution>, terminal: bool, usage: Option<Usage>)
    requires GoalOk(g, executions) && g.coordinationRef.Some?
    ensures var next := SettleReported(g, terminal, usage);
            next.Ok? ==> SettlementOk(next.value, executions) && (IsSettled(g) ==> next.value == g)
    ensures var next := Settle(g, terminal, usage);
            next.Ok? ==> SettlementOk(next.value, executions) && (IsSettled(g) ==> next.value == g)
  {
  }

  /** A coordinated goal with a kept settlement and a new status, whose status fits its settlement and cancellation. */
  lemma RestatedTeamMoves(g: Goal, n: Goal, executions: map<nat, Execution>)
    requires GoalOk(g, executions) && g.coordinationRef.Some? && SettlementOk(n, executions)
    requires IsSettled(g) ==> n.reservation == g.reservation
    requires n == g.(reservation := n.reservation, status := n.status, reasonCode := n.reasonCode, deliverySet := n.deliverySet)
    requires !n.status.Draft? && !n.status.AwaitingAuthorization?
    requires n.status.AwaitingAcceptance? || n.status.Failed? || n.status.Accepted? ==> IsSettled(n) && WithinBudget(ActualOf(n).value, n.budget)
    requires n.status.AwaitingAcceptance? || n.status.Accepted? ==> n.deliverySet.Some?
    requires n.status.Cancelled? ==> n.cancellationRequested && IsSettled(n)
    requires n.cancellationRequested ==> n.status.Cancelled? || n.status.NeedsReconciliation?
    requires Final(g.status) ==> n.status == g.status || Reopens(g, n)
    ensures Moves(g, n, executions)
  {
  }

  lemma ObservingKeepsTeam(g: Goal, executions: map<nat, Execution>, r: Report, authorized: bool)
    requires GoalOk(g, executions) && ReportMay(g, r)
    ensures var next := ObserveTeam(g, r, authorized);
            next.Ok? ==> Moves(g, next.value, executions)
  {
    if ObserveTeam(g, r, authorized).Ok? {
      SettlingKeepsTeam(g, executions, TerminalReport(r.status), r.usage);
      RestatedTeamMoves(g, ObserveTeam(g, r, authorized).value, executions);
    }
  }

  lemma ReconcilingKeepsTeam(g: Goal, executions: map<nat, Execution>, r: Report, authorized: bool)
    requires GoalOk(g, executions) && ReportMay(g, r)
    ensures var next := ReconcileTeam(g, r, authorized);
            next.Ok? ==> Moves(g, next.value, executions)
  {
    if ReconcileTeam(g, r, authorized).Ok? && g.coordinationRef.Some? {
      SettlingKeepsTeam(g, executions, TerminalReport(r.status), r.usage);
      RestatedTeamMoves(g, ReconcileTeam(g, r, authorized).value, executions);
    }
  }

  lemma RecordingKeepsTeam(g: Goal, executions: map<nat, Execution>, r: Report, authorized: bool, refused: Option<string>)
    requires GoalOk(g, executions) && ReportMay(g, r) && (IsSettled(g) ==> refused.Some?)
    ensures var next := RecordTeam(g, r, authorized, refused);
            next.Ok? ==> Moves(g, next.value, executions)
  {
    ObservingKeepsTeam(g, executions, r, true);
  }

  lemma CommandKeepsTeam(g: Goal, executions: map<nat, Execution>, c: Command, nodeDecides: bool, authorized: bool, refused: Option<string>, active: bool)
    requires GoalOk(g, executions) && TeamMay(g, CommandTeam(c, nodeDecides, authorized, refused, active)) && g.executionRef.None?
    ensures var next := CommandState(g, c, nodeDecides, authorized, refused, active);
            next.Ok? ==> Moves(g, next.value, executions)
  {
  }

  lemma AcceptingKeepsGoal(g: Goal, executions: map<nat, Execution>, delivery: nat, reviewed: bool, authorized: bool)
    requires GoalOk(g, executions)
    ensures var next := AcceptState(g, delivery, reviewed, authorized);
            next.Ok? ==> Moves(g, next.value, executions)
  {
  }

  lemma ProposingKeepsGoal(g: Goal, executions: map<nat, Execution>, plan: nat, accepted: bool)
    requires GoalOk(g, executions)
    ensures var next := ProposeState(g, plan, accepted);
            next.Ok? ==> Moves(g, next.value, executions)
    ensures var next := ChangeTeam(g, false, ProposeTeam(plan, accepted));
            next.Ok? ==> Moves(g, next.value, executions)
  {
  }

  lemma AdvancingKeepsGoal(g: Goal, before: map<nat, Execution>, after: map<nat, Execution>)
    requires GoalOk(g, before) && ExecutionsAdvance(before, after)
    ensures GoalOk(g, after)
  {
  }

  lemma AdvancingKeepsGoals(w: World, after: map<nat, Execution>)
    requires AllGoalsOk(w) && ExecutionsAdvance(w.executions, after)
    ensures AllGoalsOk(w.(executions := after))
  {
    forall id | id in w.goals ensures GoalOk(w.goals[id], after) {
      AdvancingKeepsGoal(w.goals[id], w.executions, after);
    }
  }

  lemma VersionsKeepGoal(g: Goal, n: Goal, executions: map<nat, Execution>)
    requires Moves(g, n, executions)
    ensures Moves(g, Versioned(g, n), executions)
  {
  }

  // ---------------------------------------------------------------- one change

  /** The goal is bound for the first time, in a thread where nothing else may be spending. */
  predicate Begins(w: World, id: nat, n: Goal, executions: map<nat, Execution>)
    requires id in w.goals
  {
    var g := w.goals[id];
    && GoalOk(n, executions) && n.thread == g.thread && n.budget == g.budget
    && !Dispatched(g) && g.reservation.None? && !Final(g.status) && Busy(n) && !ThreadBusy(w, id, g.thread, None)
  }

  predicate Binds(op: Operation) { op.StartPlan? || (op.Team? && op.operation.StartTeam?) }

  lemma StartBegins(w: World, id: nat, plan: nat, execution: nat, accepted: bool)
    requires id in w.goals && GoalOk(w.goals[id], w.executions) && execution !in w.executions
    ensures var c := StartState(w, id, w.goals[id], plan, execution, accepted);
            c.Ok? ==> Begins(w, id, c.value.goal, c.value.executions) && ExecutionsAdvance(w.executions, c.value.executions)
  {
  }

  lemma TeamStartBegins(w: World, id: nat, plan: nat, run: nat, accepted: bool)
    requires id in w.goals && GoalOk(w.goals[id], w.executions)
    ensures var n := ChangeTeam(w.goals[id], ThreadBusy(w, id, w.goals[id].thread, None), StartTeam(plan, run, accepted));
            n.Ok? ==> Begins(w, id, n.value, w.executions)
  {
  }

  lemma CancellingKeepsGoal(w: World, g: Goal, stopped: ExecutionStatus)
    requires GoalOk(g, w.executions)
    ensures var c := CancelState(w, g, stopped);
            c.Ok? ==> ExecutionsAdvance(w.executions, c.value.executions) && Moves(g, c.value.goal, c.value.executions)
  {
    if g.executionRef.Some? && CancelState(w, g, stopped).Ok? {
      var c := CancelState(w, g, stopped).value;
      AdvancingKeepsGoal(g, w.executions, c.executions);
      CancelledKeepsGoal(g, c.executions[g.executionRef.value].status, c.executions);
    }
  }

  lemma CancelledKeepsGoal(g: Goal, after: ExecutionStatus, executions: map<nat, Execution>)
    requires GoalOk(g, executions) && g.executionRef.Some? && g.coordinationRef.None? && !Final(g.status)
    requires executions[g.executionRef.value].status == after && (Terminal(after) || after.ExecutionNeedsReconciliation?)
    ensures Moves(g, CancelledGoal(g, after), executions)
  {
  }

  lemma TeamChangeMoves(g: Goal, executions: map<nat, Execution>, busy: bool, op: TeamOperation)
    requires GoalOk(g, executions) && TeamMay(g, op) && !op.StartTeam?
    ensures var n := ChangeTeam(g, busy, op);
            n.Ok? ==> Moves(g, n.value, executions)
  {
    match op
    case ProposeTeam(plan, accepted) => ProposingKeepsGoal(g, executions, plan, accepted);
    case AdvanceTeam(r, authorized) => ObservingKeepsTeam(g, executions, r, authorized);
    case RecordTeamUsage(_, r, authorized, refused) => RecordingKeepsTeam(g, executions, r, authorized, refused);
    case CommandTeam(c, nodeDecides, authorized, refused, active) =>
      if g.executionRef.None? {
        CommandKeepsTeam(g, executions, c, nodeDecides, authorized, refused, active);
      }
    case AcceptTeam(delivery, reviewed, authorized) => AcceptingKeepsGoal(g, executions, delivery, reviewed, authorized);
  }

  lemma ChangeMoves(w: World, id: nat, op: Operation)
    requires id in w.goals && GoalOk(w.goals[id], w.executions) && OperationMay(w, id, op)
    ensures var c := Change(w, id, op);
            c.Ok? ==>
              && ExecutionsAdvance(w.executions, c.value.executions)
              && (if Binds(op) then Begins(w, id, c.value.goal, c.value.executions) else Moves(w.goals[id], c.value.goal, c.value.executions))
  {
    var g := w.goals[id];
    match op
    case StartPlan(plan, execution, accepted) => StartBegins(w, id, plan, execution, accepted);
    case Cancel(stopped) => CancellingKeepsGoal(w, g, stopped);
    case Advance(r) => ObservingKeepsGoal(g, w.executions, r);
    case RecordUsage(_, r) => ObservingKeepsGoal(g, w.executions, r);
    case ProposePlan(plan, accepted) => ProposingKeepsGoal(g, w.executions, plan, accepted);
    case Accept(delivery, reviewed, authorized) => AcceptingKeepsGoal(g, w.executions, delivery, reviewed, authorized);
    case Team(t) =>
      if t.StartTeam? {
        TeamStartBegins(w, id, t.plan, t.run, t.planAccepted);
      } else {
        TeamChangeMoves(g, w.executions, ThreadBusy(w, id, g.thread, None), t);
      }
  }

  // ---------------------------------------------------------------- one step

  /** The step rewrites one goal; executions advance. */
  predicate Touches(w: World, after: World, id: nat) {
    && id in w.goals && id in after.goals && after.goals == w.goals[id := after.goals[id]]
    && ExecutionsAdvance(w.executions, after.executions)
  }

  lemma TouchingKeepsInv(w: World, after: World, id: nat)
    requires Inv(w) && Touches(w, after, id) && GoalOk(after.goals[id], after.executions)
    requires after.goals[id].thread == w.goals[id].thread
    requires Busy(after.goals[id]) && !Busy(w.goals[id]) ==>
               forall x :: x in w.goals && x != id && w.goals[x].thread == w.goals[id].thread ==> !Busy(w.goals[x])
    ensures Inv(after)
  {
    AdvancingKeepsGoals(w, after.executions);
    forall x | x in after.goals ensures GoalOk(after.goals[x], after.executions) {
      assert x != id ==> GoalOk(w.goals[x], after.executions);
    }
  }

  lemma MoveKeepsInv(w: World, after: World, id: nat)
    requires Inv(w) && Touches(w, after, id) && Moves(w.goals[id], after.goals[id], after.executions)
    ensures Inv(after)
  {
    TouchingKeepsInv(w, after, id);
  }

  lemma BeginKeepsInv(w: World, after: World, id: nat)
    requires Inv(w) && Touches(w, after, id) && Begins(w, id, after.goals[id], after.executions)
    ensures Inv(after)
  {
    TouchingKeepsInv(w, after, id);
  }

  lemma PollMoves(w: World, id: nat, next: Result<Goal>)
    requires id in w.goals && next.Ok? && Moves(w.goals[id], next.value, w.executions)
    ensures Touches(w, Polled(w, id, next), id) && Moves(w.goals[id], Polled(w, id, next).goals[id], w.executions)
  {
    VersionsKeepGoal(w.goals[id], next.value, w.executions);
  }

  lemma StoredMoves(w: World, id: nat, c: Changed, at: ReceiptKey, receipt: Receipt)
    requires id in w.goals && ExecutionsAdvance(w.executions, c.executions) && Moves(w.goals[id], c.goal, c.executions)
    ensures var after := Stored(w, id, c, at, receipt);
            Touches(w, after, id) && Moves(w.goals[id], after.goals[id], after.executions)
  {
    VersionsKeepGoal(w.goals[id], c.goal, c.executions);
  }

  lemma StoredBegins(w: World, id: nat, c: Changed, at: ReceiptKey, receipt: Receipt)
    requires id in w.goals && ExecutionsAdvance(w.executions, c.executions) && Begins(w, id, c.goal, c.executions)
    ensures var after := Stored(w, id, c, at, receipt);
            Touches(w, after, id) && Begins(w, id, after.goals[id], after.executions)
  {
  }

  /** A mutation that stores something changed its goal and kept a receipt. */
  lemma MutationStores(w: World, id: nat, op: Operation, key: string, expected: nat, unreadable: Option<string>)
    requires var r := Mutate(w, id, op, key, expected, unreadable); r.Ok? && r.value.0 != w
    ensures id in w.goals && ReceiptKey(Name(op), id, key) !in w.receipts && Change(w, id, op).Ok?
    ensures var c := Change(w, id, op).value;
            Mutate(w, id, op, key, expected, unreadable).value.0
            == Stored(w, id, c, ReceiptKey(Name(op), id, key), Receipt(InputOf(op), expected, Versioned(w.goals[id], c.goal)))
  {
  }

  /** What a step does to the one goal it addresses. */
  predicate Steps(w: World, after: World, id: nat, starts: bool) {
    && Touches(w, after, id)
    && (if starts then Begins(w, id, after.goals[id], after.executions) else Moves(w.goals[id], after.goals[id], after.executions))
  }

  predicate StartStep(step: Step) { step.MutateStep? && Binds(step.operation) }

  lemma MutationSteps(w: World, step: Step)
    requires AllGoalsOk(w) && Enabled(w, step) && step.MutateStep? && Apply(w, step) != w
    ensures Steps(w, Apply(w, step), step.goal, StartStep(step))
  {
    var id, op := step.goal, step.operation;
    MutationStores(w, id, op, step.key, step.expected, step.unreadable);
    ChangeMoves(w, id, op);
    var c := Change(w, id, op).value;
    var at, receipt := ReceiptKey(Name(op), id, step.key), Receipt(InputOf(op), step.expected, Versioned(w.goals[id], c.goal));
    if Binds(op) {
      StoredBegins(w, id, c, at, receipt);
    } else {
      StoredMoves(w, id, c, at, receipt);
    }
  }

  lemma DecisionSteps(w: World, step: Step)
    requires AllGoalsOk(w) && step.DecideStep? && Apply(w, step) != w
    ensures Steps(w, Apply(w, step), step.goal, false)
  {
    assert GoalOk(w.goals[step.goal], w.executions);
  }

  predicate Poll(step: Step) { step.ObserveStep? || step.ReconcileStep? || step.ObserveGroupStep? || step.ReconcileGroupStep? }

  function PolledGoal(w: World, step: Step): Result<Goal>
    requires Poll(step) && step.goal in w.goals
  {
    match step
    case ObserveStep(id, r) => ObserveState(w.goals[id], w.executions, r)
    case ReconcileStep(id, r) => ReconcileState(w.goals[id], w.executions, r)
    case ObserveGroupStep(id, r, authorized) => ObserveTeam(w.goals[id], r, authorized)
    case ReconcileGroupStep(id, r, authorized) => ReconcileTeam(w.goals[id], r, authorized)
  }

  lemma PolledGoalMoves(w: World, step: Step)
    requires AllGoalsOk(w) && Enabled(w, step) && Poll(step) && step.goal in w.goals
    ensures PolledGoal(w, step).Ok? ==> Moves(w.goals[step.goal], PolledGoal(w, step).value, w.executions)
  {
    var g := w.goals[step.goal];
    match step
    case ObserveStep(_, r) => ObservingKeepsGoal(g, w.executions, r);
    case ReconcileStep(_, r) => ReconcilingKeepsGoal(g, w.executions, r);
    case ObserveGroupStep(_, r, authorized) => ObservingKeepsTeam(g, w.executions, r, authorized);
    case ReconcileGroupStep(_, r, authorized) => ReconcilingKeepsTeam(g, w.executions, r, authorized);
  }

  lemma PollIs(w: World, step: Step)
    requires Poll(step) && Apply(w, step) != w
    ensures step.goal in w.goals && PolledGoal(w, step).Ok? && Apply(w, step) == Polled(w, step.goal, PolledGoal(w, step))
  {
  }

  lemma PollSteps(w: World, step: Step)
    requires AllGoalsOk(w) && Enabled(w, step) && Poll(step) && Apply(w, step) != w
    ensures Steps(w, Apply(w, step), step.goal, false)
  {
    PollIs(w, step);
    PolledGoalMoves(w, step);
    PollMoves(w, step.goal, PolledGoal(w, step));
  }

  predicate Ordinary(step: Step) { step.MutateStep? || step.DecideStep? || Poll(step) }

  lemma OrdinarySteps(w: World, step: Step)
    requires AllGoalsOk(w) && Enabled(w, step) && Ordinary(step) && Apply(w, step) != w
    ensures Steps(w, Apply(w, step), step.goal, StartStep(step))
  {
    if step.MutateStep? {
      MutationSteps(w, step);
    } else if step.DecideStep? {
      DecisionSteps(w, step);
    } else {
      PollSteps(w, step);
    }
  }

  /** A confirmed rework rebinds a settled goal in a free thread and archives its round. */
  lemma ReworkSteps(w: World, step: Step)
    requires AllGoalsOk(w) && step.ReworkStep? && Apply(w, step) != w
    ensures var after, id := Apply(w, step), step.goal;
            && Touches(w, after, id) && GoalOk(after.goals[id], after.executions) && after.goals[id].thread == w.goals[id].thread
            && Evolves(w.goals[id], after.goals[id]) && !ThreadBusy(w, id, w.goals[id].thread, w.goals[id].executionRef)
            && IsSettled(w.goals[id]) && !Final(w.goals[id].status)
            && after.history == w.history + [History(id, w.goals[id].plan, ActualOf(w.goals[id]).value)]
  {
    assert GoalOk(w.goals[step.goal], w.executions);
  }

  lemma StepKeepsInv(w: World, step: Step)
    requires Inv(w) && Enabled(w, step)
    ensures Inv(Apply(w, step))
  {
    if Apply(w, step) != w {
      if Ordinary(step) {
        OrdinarySteps(w, step);
        if StartStep(step) {
          BeginKeepsInv(w, Apply(w, step), step.goal);
        } else {
          MoveKeepsInv(w, Apply(w, step), step.goal);
        }
      } else if step.ReworkStep? {
        ReworkSteps(w, step);
        TouchingKeepsInv(w, Apply(w, step), step.goal);
      } else if step.ExecutionsStep? {
        AdvancingKeepsGoals(w, step.executions);
      }
    }
  }

  function Outcome(w: World, steps: seq<Step>): World {
    if steps == [] then w else Apply(Outcome(w, steps[..|steps| - 1]), steps[|steps| - 1])
  }

  predicate AllEnabled(w: World, steps: seq<Step>) {
    steps == [] || (AllEnabled(w, steps[..|steps| - 1]) && Enabled(Outcome(w, steps[..|steps| - 1]), steps[|steps| - 1]))
  }

  lemma {:induction false} EveryRunKeepsInv(w: World, steps: seq<Step>)
    requires Inv(w) && AllEnabled(w, steps)
    ensures Inv(Outcome(w, steps))
  {
    if steps != [] {
      EveryRunKeepsInv(w, steps[..|steps| - 1]);
      StepKeepsInv(Outcome(w, steps[..|steps| - 1]), steps[|steps| - 1]);
    }
  }

  // ---------------------------------------------------------------- outcomes and threads

  const EMPTY := World(map[], map[], map[], [], map[])

  /** The outcome of a goal, single or coordinated, over every run from an empty tenant. */
  lemma OutcomesAreSettled(steps: seq<Step>, id: nat)
    requires AllEnabled(EMPTY, steps) && id in Outcome(EMPTY, steps).goals
    ensures var w := Outcome(EMPTY, steps);
            var g := w.goals[id];
            && (g.status.AwaitingAcceptance? || g.status.Failed? || g.status.Accepted? ==>
                  && IsSettled(g) && ActualOf(g).Some? && ActualOf(g).value.currency == g.budget.currency
                  && WithinBudget(ActualOf(g).value, g.budget))
            && (g.status.Cancelled? && Dispatched(g) ==> IsSettled(g))
            && (g.status.Cancelled? && g.executionRef.Some? ==>
                  g.executionRef.value in w.executions && Terminal(w.executions[g.executionRef.value].status))
  {
    EveryRunKeepsInv(EMPTY, steps);
    assert GoalOk(Outcome(EMPTY, steps).goals[id], Outcome(EMPTY, steps).executions);
  }

  /** What was delivered, and hence accepted, is the work of a completed execution, or of a group, over every run. */
  lemma DeliveriesAreCompletedWork(steps: seq<Step>, id: nat)
    requires AllEnabled(EMPTY, steps) && id in Outcome(EMPTY, steps).goals
    ensures var w := Outcome(EMPTY, steps);
            var g := w.goals[id];
            && (g.status.AwaitingAcceptance? || g.status.Accepted? ==> g.deliverySet.Some? && Dispatched(g))
            && (g.deliverySet.Some? && g.executionRef.Some? ==>
                  g.executionRef.value in w.executions && w.executions[g.executionRef.value] == Execution(g.thread, Completed))
  {
    EveryRunKeepsInv(EMPTY, steps);
    assert GoalOk(Outcome(EMPTY, steps).goals[id], Outcome(EMPTY, steps).executions);
  }

  /** At most one goal of a thread holds an execution or group whose usage is not settled, over every run. */
  lemma ThreadsAreExclusive(steps: seq<Step>, a: nat, b: nat)
    requires AllEnabled(EMPTY, steps)
    requires var w := Outcome(EMPTY, steps); a in w.goals && b in w.goals && w.goals[a].thread == w.goals[b].thread
    requires Busy(Outcome(EMPTY, steps).goals[a]) && Busy(Outcome(EMPTY, steps).goals[b])
    ensures a == b
  {
    EveryRunKeepsInv(EMPTY, steps);
  }

  // ---------------------------------------------------------------- how goals evolve

  /** The step dispatches the goal for the first time. */
  predicate Starts(step: Step, id: nat) { StartStep(step) && step.goal == id }

  /** The step opens a new rework round of the goal. */
  predicate Reworks(step: Step, id: nat) { step.ReworkStep? && step.goal == id }

  /**
   What one step may do to any goal: unless it starts that goal, the goal evolves as `GoalModel.Evolves` says, which is
   all the follow-up scheduler assumes; and a settled amount changes only when a rework round archives it.
   */
  lemma StepsEvolveGoals(w: World, step: Step, id: nat)
    requires Inv(w) && Enabled(w, step) && id in w.goals
    ensures id in Apply(w, step).goals
    ensures !Starts(step, id) ==> Evolves(w.goals[id], Apply(w, step).goals[id])
    ensures Final(w.goals[id].status) ==> !Starts(step, id) || Apply(w, step).goals[id] == w.goals[id]
    ensures IsSettled(w.goals[id]) && Apply(w, step).goals[id].reservation != w.goals[id].reservation ==>
              && Reworks(step, id)
              && Apply(w, step).history == w.history + [History(id, w.goals[id].plan, ActualOf(w.goals[id]).value)]
  {
    if Apply(w, step) != w {
      if Ordinary(step) {
        OrdinarySteps(w, step);
      } else if step.ReworkStep? {
        ReworkSteps(w, step);
      }
    }
  }

  /** A goal that stays as it ended: any but a coordinated cancelled goal over its budget. */
  predicate Concluded(g: Goal) { Final(g.status) && !(g.status.Cancelled? && g.coordinationRef.Some? && OverBudget(g)) }

  lemma SettledStepStays(w: World, step: Step, id: nat)
    requires Inv(w) && Enabled(w, step) && id in w.goals && Concluded(w.goals[id])
    ensures id in Apply(w, step).goals && Concluded(Apply(w, step).goals[id])
    ensures Apply(w, step).goals[id].status == w.goals[id].status
    ensures Apply(w, step).goals[id].reservation == w.goals[id].reservation
  {
    StepsEvolveGoals(w, step, id);
  }

  /** Accepted goals, and cancelled ones that are single or within budget, are never left, however the run continues. */
  lemma {:induction false} FinalGoalsStay(w: World, steps: seq<Step>, id: nat)
    requires Inv(w) && AllEnabled(w, steps) && id in w.goals && Concluded(w.goals[id])
    ensures id in Outcome(w, steps).goals && Concluded(Outcome(w, steps).goals[id])
    ensures Outcome(w, steps).goals[id].status == w.goals[id].status
    ensures Outcome(w, steps).goals[id].reservation == w.goals[id].reservation
  {
    if steps != [] {
      var front := steps[..|steps| - 1];
      FinalGoalsStay(w, front, id);
      EveryRunKeepsInv(w, front);
      SettledStepStays(Outcome(w, front), steps[|steps| - 1], id);
    }
  }

  /**
   A cancelled coordinated goal is taken up again by the next observation exactly when its usage exceeds its budget: the
   budget is compared before the cancellation. Cancelling it once more then changes nothing.
   */
  lemma CancelledTeamReopensExactlyWhen(g: Goal, executions: map<nat, Execution>, r: Report, authorized: bool)
    requires GoalOk(g, executions) && g.status.Cancelled? && g.coordinationRef.Some?
    requires ReportMay(g, r) && ObserveTeam(g, r, authorized).Ok?
    ensures ObserveTeam(g, r, authorized).value.status.Cancelled? <==> !OverBudget(g)
    ensures OverBudget(g) ==>
              var n := ObserveTeam(g, r, authorized).value;
              && n.status.NeedsReconciliation? && n.reservation == g.reservation
              && forall refused, active :: CommandState(n, CancelTeam, false, authorized, refused, active) == Ok(n)
  {
  }

  lemma OneMore(w: World, steps: seq<Step>, step: Step)
    requires AllEnabled(w, steps) && Enabled(Outcome(w, steps), step)
    ensures AllEnabled(w, steps + [step]) && Outcome(w, steps + [step]) == Apply(Outcome(w, steps), step)
  {
    assert (steps + [step])[..|steps|] == steps;
  }

  const TEN := Usage("CNY", 10, 10)
  const TWENTY := Usage("CNY", 20, 10)

  const PROPOSED := Goal(0, AwaitingAuthorization, TEN, None, None, None, Some(0), None, false, "", 2)
  const STARTED := PROPOSED.(status := Running, reservation := Some(Reservation(Reserved, None)), coordinationRef := Some(0), streamVersion := 3)
  const OVERRUN := STARTED.(status := NeedsReconciliation, reservation := Some(Reservation(Settled, Some(TWENTY))), reasonCode := "GOAL_BUDGET_OVERRUN", streamVersion := 4)
  const CANCELLED := OVERRUN.(status := Cancelled, cancellationRequested := true, reasonCode := "", streamVersion := 5)
  const REOPENED := CANCELLED.(status := NeedsReconciliation, reasonCode := "GOAL_BUDGET_OVERRUN", streamVersion := 6)

  /** The run leads to a tenant with this one goal, no execution, and receipts of these operations only. */
  predicate LeadsTo(steps: seq<Step>, g: Goal, names: set<string>) {
    && AllEnabled(EMPTY, steps)
    && Outcome(EMPTY, steps).goals == map[0 := g] && Outcome(EMPTY, steps).executions == map[]
    && forall at :: at in Outcome(EMPTY, steps).receipts ==> at.operation in names
  }

  function Mutation(g: Goal, op: TeamOperation): Step { MutateStep(0, Team(op), "", g.streamVersion, None) }

  lemma MutationLeadsOn(steps: seq<Step>, g: Goal, names: set<string>, op: TeamOperation, n: Goal)
    requires LeadsTo(steps, g, names) && TeamName(op) !in names && TeamMay(g, op)
    requires ChangeTeam(g, false, op) == Ok(n) && n != g
    ensures LeadsTo(steps + [Mutation(g, op)], Saved(g, n), names + {TeamName(op)})
  {
    var w := Outcome(EMPTY, steps);
    OneMore(EMPTY, steps, Mutation(g, op));
    assert !ThreadBusy(w, 0, g.thread, None);
    assert ReceiptKey(TeamName(op), 0, "") !in w.receipts;
  }

  lemma ReportLeadsOn(steps: seq<Step>, g: Goal, names: set<string>, r: Report, n: Goal)
    requires LeadsTo(steps, g, names) && ReportMay(g, r) && ObserveTeam(g, r, true) == Ok(n) && n != g
    ensures LeadsTo(steps + [ObserveGroupStep(0, r, true)], Saved(g, n), names)
  {
    OneMore(EMPTY, steps, ObserveGroupStep(0, r, true));
  }

  lemma TeamStarts() returns (steps: seq<Step>)
    ensures LeadsTo(steps, STARTED, {"team.plan_proposed", "team.started"})
  {
    var g := NewGoal(0, TEN);
    OneMore(EMPTY, [], CreateStep(0, 0, TEN));
    assert LeadsTo([CreateStep(0, 0, TEN)], g, {}) by {
      assert [] + [CreateStep(0, 0, TEN)] == [CreateStep(0, 0, TEN)];
    }
    MutationLeadsOn([CreateStep(0, 0, TEN)], g, {}, ProposeTeam(0, true), PROPOSED.(streamVersion := 1));
    steps := [CreateStep(0, 0, TEN)] + [Mutation(g, ProposeTeam(0, true))];
    MutationLeadsOn(steps, PROPOSED, {"team.plan_proposed"}, StartTeam(0, 0, true), STARTED.(streamVersion := 2));
    steps := steps + [Mutation(PROPOSED, StartTeam(0, 0, true))];
    assert {"team.plan_proposed"} + {"team.started"} == {"team.plan_proposed", "team.started"};
  }

  lemma TeamOverruns() returns (steps: seq<Step>)
    ensures LeadsTo(steps, OVERRUN, {"team.plan_proposed", "team.started"})
  {
    var failed := Report(Failed, Some(TWENTY), "", false, Refused(""));
    steps := TeamStarts();
    ReportLeadsOn(steps, STARTED, {"team.plan_proposed", "team.started"}, failed, OVERRUN.(streamVersion := 3));
    steps := steps + [ObserveGroupStep(0, failed, true)];
  }

  lemma TeamIsCancelled() returns (steps: seq<Step>)
    ensures LeadsTo(steps, CANCELLED, {"team.plan_proposed", "team.started", "team.command_cancel"})
  {
    var names, cancel := {"team.plan_proposed", "team.started"}, CommandTeam(CancelTeam, false, true, None, false);
    steps := TeamOverruns();
    MutationLeadsOn(steps, OVERRUN, names, cancel, CANCELLED.(streamVersion := 4));
    steps := steps + [Mutation(OVERRUN, cancel)];
    assert names + {"team.command_cancel"} == {"team.plan_proposed", "team.started", "team.command_cancel"};
  }

  /** A team that overran its budget is cancelled by its user, and then reopened when its user refreshes it. */
  lemma CancelledTeamsAreReopened() returns (steps: seq<Step>, refresh: Step)
    ensures AllEnabled(EMPTY, steps) && Outcome(EMPTY, steps).goals == map[0 := CANCELLED]
    ensures AllEnabled(EMPTY, steps + [refresh]) && Outcome(EMPTY, steps + [refresh]).goals == map[0 := REOPENED]
  {
    var gone := Report(Cancelled, Some(TWENTY), "", false, Refused(""));
    steps := TeamIsCancelled();
    refresh := Mutation(CANCELLED, AdvanceTeam(gone, true));
    MutationLeadsOn(steps, CANCELLED, {"team.plan_proposed", "team.started", "team.command_cancel"}, AdvanceTeam(gone, true), REOPENED.(streamVersion := 5));
  }

  // ---------------------------------------------------------------- archives and receipts

  lemma StepKeepsReceipts(w: World, step: Step, at: ReceiptKey)
    requires at in w.receipts
    ensures at in Apply(w, step).receipts && Apply(w, step).receipts[at] == w.receipts[at]
  {
    if step.MutateStep? && Apply(w, step) != w {
      MutationStores(w, step.goal, step.operation, step.key, step.expected, step.unreadable);
    }
  }

  lemma StepKeepsHistory(w: World, step: Step, id: nat)
    ensures w.history <= Apply(w, step).history && (id in w.goals ==> id in Apply(w, step).goals)
  {
    if step.MutateStep? && Apply(w, step) != w {
      MutationStores(w, step.goal, step.operation, step.key, step.expected, step.unreadable);
    }
  }

  /** Archived rounds are never rewritten, over any run. */
  lemma {:induction false} HistoryOnlyGrows(w: World, steps: seq<Step>)
    ensures w.history <= Outcome(w, steps).history
  {
    if steps != [] {
      HistoryOnlyGrows(w, steps[..|steps| - 1]);
      StepKeepsHistory(Outcome(w, steps[..|steps| - 1]), steps[|steps| - 1], 0);
    }
  }

  lemma {:induction false} ReceiptsStay(w: World, steps: seq<Step>, at: ReceiptKey)
    requires at in w.receipts && at.goal in w.goals
    ensures at in Outcome(w, steps).receipts && Outcome(w, steps).receipts[at] == w.receipts[at] && at.goal in Outcome(w, steps).goals
  {
    if steps != [] {
      ReceiptsStay(w, steps[..|steps| - 1], at);
      StepKeepsReceipts(Outcome(w, steps[..|steps| - 1]), steps[|steps| - 1], at);
      StepKeepsHistory(Outcome(w, steps[..|steps| - 1]), steps[|steps| - 1], at.goal);
    }
  }

  /** The receipt of a carried-out mutation holds the stored goal, with its delivery. */
  lemma MutationKeepsReceipt(w: World, id: nat, op: Operation, key: string, expected: nat, unreadable: Option<string>)
    requires Mutate(w, id, op, key, expected, unreadable).Ok? && ReceiptKey(Name(op), id, key) !in w.receipts
    ensures var after, at := Mutate(w, id, op, key, expected, unreadable).value.0, ReceiptKey(Name(op), id, key);
            && id in after.goals && at in after.receipts && after.receipts[at] == Receipt(InputOf(op), expected, after.goals[id])
  {
  }

  /**
   A carried-out mutation repeated after any further steps changes nothing and answers with the goal it stored then, as
   far as that can still be read; and its key answers no other request.
   */
  lemma MutationsReplay(w: World, id: nat, op: Operation, key: string, expected: nat, unreadable: Option<string>, steps: seq<Step>,
                        again: Operation, expectedAgain: nat, unreadableNow: Option<string>)
    requires Mutate(w, id, op, key, expected, unreadable).Ok? && ReceiptKey(Name(op), id, key) !in w.receipts && Name(again) == Name(op)
    ensures var after := Mutate(w, id, op, key, expected, unreadable).value.0;
            && id in after.goals
            && var last, answer := Outcome(after, steps), Answer(again, after.goals[id], unreadableNow);
               Mutate(last, id, again, key, expectedAgain, unreadableNow) ==
                 if InputOf(again) != InputOf(op) || expectedAgain != expected then Err("IDEMPOTENCY_KEY_REUSED")
                 else if answer.Err? then Err(answer.code) else Ok((last, answer.value))
  {
    MutationKeepsReceipt(w, id, op, key, expected, unreadable);
    ReceiptsStay(Mutate(w, id, op, key, expected, unreadable).value.0, steps, ReceiptKey(Name(op), id, key));
  }
}
