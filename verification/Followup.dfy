/**
 One follow-up policy with its runs, cursor and goals, and every transaction that may touch them. Each function
 below is one atomic `store.transact`; recovery workers and users may apply them in any order.
 */
module Followup {
  import opened Options
  import opened GoalModel

  type Time = int

  const STOPPED := "FOLLOWUP_STOPPED"
  const EXPIRED := "FOLLOWUP_EXPIRED"
  const MAX_SAFE_INTEGER := 9007199254740991

  datatype PolicyStatus = Active | PausedPolicy | Stopped | Invalidated | Expired | Exhausted

  /** The accepted definition (constant over the life of a policy) and the mutable status. */
  datatype Policy = Policy(
    status: PolicyStatus,
    createdAt: Time,
    expiresAt: Time,
    cap: Usage,
    periodMs: nat,
    periodMaxRuns: nat,
    periodLimit: Usage,
    maxRuns: nat,
    streamVersion: nat)

  datatype RunStatus =
    | RunPending
    | RunRunning
    | RunAccepted
    | RunCancelled
    | RunFailed
    | RunAwaitingAcceptance
    | RunNeedsReconciliation

  /** A run id is the digest of the source reference and its content; digests are injective. */
  datatype RunKey = RunKey(sourceVersion: nat, content: nat)

  datatype Run = Run(
    key: RunKey,
    status: RunStatus,
    periodStart: Time,
    reserved: Usage,
    actual: Option<Usage>,
    goalId: nat,
    executionId: Option<nat>,
    reasonCode: string,
    streamVersion: nat)

  /** The kernel events appended for the policy and its runs. */
  datatype Event =
    | PolicyChanged(status: PolicyStatus)
    | RunReserved(key: RunKey)
    | RunStarted(key: RunKey)
    | RunObserved(key: RunKey)
    | RunCancelledPending(key: RunKey)

  datatype Command = Pause | Resume | Stop
  datatype Receipt = Receipt(expectedVersion: nat, command: Command)

  datatype State = State(
    policy: Policy,
    runs: seq<Run>,
    cursor: Option<nat>,
    goals: map<nat, Goal>,
    receipts: map<string, Receipt>,
    events: seq<Event>)

  // ---------------------------------------------------------------- periods and amounts

  /** Start of the accounting period that contains `now`; times before creation count as the first period. */
  function PeriodStart(p: Policy, now: Time): Time
    requires p.periodMs > 0
  {
    var elapsed := (now - p.createdAt) / p.periodMs;
    p.createdAt + (if elapsed > 0 then elapsed else 0) * p.periodMs
  }

  function Zero(currency: string): Usage { Usage(currency, 0, 0) }

  function Add(a: Usage, b: Usage): Option<Usage> {
    if a.currency != b.currency || a.tokens + b.tokens > MAX_SAFE_INTEGER then None
    else Some(Usage(a.currency, a.tokens + b.tokens, a.cost + b.cost))
  }

  function Minus(a: nat, b: nat): nat { if a > b then a - b else 0 }

  /** The part of a run's reservation that its actual usage has not consumed. */
  function Remaining(r: Run): Usage {
    var used := if r.actual.Some? then r.actual.value else Zero(r.reserved.currency);
    Usage(r.reserved.currency, Minus(r.reserved.tokens, used.tokens), Minus(r.reserved.cost, used.cost))
  }

  predicate Finished(r: Run) { r.status.RunAccepted? || r.status.RunCancelled? }

  predicate Closed(s: PolicyStatus) { s.Stopped? || s.Expired? || s.Invalidated? }

  /** Whether the unconsumed reservation of a run still counts against its period. */
  predicate Held(status: PolicyStatus, r: Run) {
    && !Finished(r)
    && !(Closed(status) && r.actual.Some? && (r.status.RunFailed? || r.status.RunAwaitingAcceptance?))
  }

  datatype Totals = Totals(runCount: nat, settled: Usage, reserved: Usage, unknown: Usage)

  /** One iteration of the accumulation: a mixed currency or an unsafe sum fails. */
  function AddRun(status: PolicyStatus, t: Totals, r: Run): Option<Totals> {
    var settled := if r.actual.Some? then Add(t.settled, r.actual.value) else Some(t.settled);
    if settled.None? then None
    else if !Held(status, r) then Some(Totals(t.runCount + 1, settled.value, t.reserved, t.unknown))
    else if r.status.RunNeedsReconciliation? then
      var unknown := Add(t.unknown, Remaining(r));
      if unknown.None? then None else Some(Totals(t.runCount + 1, settled.value, t.reserved, unknown.value))
    else
      var reserved := Add(t.reserved, Remaining(r));
      if reserved.None? then None else Some(Totals(t.runCount + 1, settled.value, reserved.value, t.unknown))
  }

  /** Totals over the runs recorded for the period that starts at `start`. */
  function Detail(p: Policy, runs: seq<Run>, start: Time): Option<Totals> {
    if runs == [] then
      var z := Zero(p.periodLimit.currency);
      Some(Totals(0, z, z, z))
    else
      var rest := Detail(p, runs[..|runs| - 1], start);
      var last := runs[|runs| - 1];
      if rest.None? || last.periodStart != start then rest else AddRun(p.status, rest.value, last)
  }

  /** The period has room for one more run at the full cap. */
  predicate PeriodHasRoom(p: Policy, t: Totals) {
    && t.runCount < p.periodMaxRuns
    && t.settled.tokens + t.reserved.tokens + t.unknown.tokens + p.cap.tokens <= p.periodLimit.tokens
    && t.settled.cost + t.reserved.cost + t.unknown.cost + p.cap.cost <= p.periodLimit.cost
  }

  // ---------------------------------------------------------------- gates

  /** `authority` is the verdict of the membership, parent plan, model and resource checks, as an error code. */
  function AssertPolicy(p: Policy, now: Time, authority: Option<string>, dispatch: bool): Option<string> {
    if !(if dispatch then p.status.Active? else p.status.Active? || p.status.PausedPolicy? || p.status.Exhausted?)
    then Some(STOPPED)
    else if p.expiresAt <= now then Some(EXPIRED)
    else authority
  }

  // ---------------------------------------------------------------- observation

  function RunStatusOf(s: GoalStatus): RunStatus {
    match s
    case Accepted => RunAccepted
    case Cancelled => RunCancelled
    case Failed => RunFailed
    case AwaitingAcceptance => RunAwaitingAcceptance
    case NeedsReconciliation => RunNeedsReconciliation
    case _ => RunRunning
  }

  predicate Exceeds(actual: Usage, reserved: Usage) {
    actual.currency != reserved.currency || !WithinBudget(actual, reserved)
  }

  predicate Falls(actual: Usage, previous: Usage) {
    actual.tokens < previous.tokens || actual.cost < previous.cost
  }

  /** The run's status from its goal's status and reservation, before the amounts are compared. */
  function StatusFromGoal(r: Run, g: Goal): RunStatus {
    var status := if Dispatched(g) then RunStatusOf(g.status) else r.status;
    var closing := status.RunAccepted? || status.RunCancelled? || status.RunFailed?;
    if (g.reservation.Some? && g.reservation.value.status.Unknown?) || (closing && !IsSettled(g))
    then RunNeedsReconciliation else status
  }

  function ObservedStatus(r: Run, g: Goal): RunStatus {
    var actual := ActualOf(g);
    if actual.Some? && (Exceeds(actual.value, r.reserved) || (r.actual.Some? && Falls(actual.value, r.actual.value)))
    then RunNeedsReconciliation else StatusFromGoal(r, g)
  }

  /** Recorded usage never goes down: a smaller report keeps the earlier amount. */
  function ObservedActual(r: Run, g: Goal): Option<Usage> {
    var actual := ActualOf(g);
    if actual.None? || (r.actual.Some? && Falls(actual.value, r.actual.value)) then r.actual else actual
  }

  function Observed(r: Run, goals: map<nat, Goal>): Run {
    if (r.status.RunCancelled? && r.executionId.None?) || r.goalId !in goals then r
    else
      var g := goals[r.goalId];
      var next := r.(status := ObservedStatus(r, g), actual := ObservedActual(r, g),
                     executionId := if g.executionRef.Some? then g.executionRef else r.executionId,
                     reasonCode := g.reasonCode);
      if next == r then r else next.(streamVersion := r.streamVersion + 1)
  }

  function ObservedRuns(runs: seq<Run>, goals: map<nat, Goal>): (observed: seq<Run>)
    ensures |observed| == |runs|
    ensures forall i :: 0 <= i < |runs| ==> observed[i] == Observed(runs[i], goals)
  {
    seq(|runs|, i requires 0 <= i < |runs| => Observed(runs[i], goals))
  }

  function ObservationEvents(runs: seq<Run>, goals: map<nat, Goal>): seq<Event> {
    if runs == [] then []
    else
      var last := runs[|runs| - 1];
      ObservationEvents(runs[..|runs| - 1], goals) + (if Observed(last, goals) == last then [] else [RunObserved(last.key)])
  }

  function ObserveAll(s: State): State {
    s.(runs := ObservedRuns(s.runs, s.goals), events := s.events + ObservationEvents(s.runs, s.goals))
  }

  // ---------------------------------------------------------------- cancellation and invalidation

  predicate CancellablePending(r: Run) { r.status.RunPending? && r.executionId.None? }

  function CancelledIfPending(r: Run, code: string): Run {
    if CancellablePending(r)
    then r.(status := RunCancelled, actual := Some(Zero(r.reserved.currency)), reasonCode := code, streamVersion := r.streamVersion + 1)
    else r
  }

  function CancelledRuns(runs: seq<Run>, code: string): (cancelled: seq<Run>)
    ensures |cancelled| == |runs|
    ensures forall i :: 0 <= i < |runs| ==> cancelled[i] == CancelledIfPending(runs[i], code)
  {
    seq(|runs|, i requires 0 <= i < |runs| => CancelledIfPending(runs[i], code))
  }

  function CancellationEvents(runs: seq<Run>): seq<Event> {
    if runs == [] then []
    else
      var last := runs[|runs| - 1];
      CancellationEvents(runs[..|runs| - 1]) + (if CancellablePending(last) then [RunCancelledPending(last.key)] else [])
  }

  function CancelPending(s: State, code: string): State {
    s.(runs := CancelledRuns(s.runs, code), events := s.events + CancellationEvents(s.runs))
  }

  function SetStatus(s: State, status: PolicyStatus): State {
    s.(policy := s.policy.(status := status, streamVersion := s.policy.streamVersion + 1),
       events := s.events + [PolicyChanged(status)])
  }

  function Invalidate(s: State, code: string): State {
    CancelPending(SetStatus(s, if code == EXPIRED then Expired else Invalidated), code)
  }

  // ---------------------------------------------------------------- claim

  /** The readings of one claim: three clock readings, the authority verdict, the business source and a new goal id. */
  datatype ClaimInput = ClaimInput(
    policyNow: Time,
    detailNow: Time,
    periodNow: Time,
    authority: Option<string>,
    source: Option<RunKey>,
    goalId: nat)

  datatype ClaimOutcome = NoDispatch | Dispatch(key: RunKey) | Threw(code: string)

  predicate IsPending(r: Run) { r.status.RunPending? }

  predicate Blocks(r: Run) { r.status.RunRunning? || r.status.RunNeedsReconciliation? }

  function FirstPending(runs: seq<Run>): (found: Option<RunKey>)
    ensures found.None? <==> forall i :: 0 <= i < |runs| ==> !IsPending(runs[i])
    ensures found.Some? ==> exists i :: 0 <= i < |runs| && IsPending(runs[i]) && runs[i].key == found.value
  {
    if runs == [] then None
    else if IsPending(runs[0]) then Some(runs[0].key)
    else
      assert forall i :: 1 <= i < |runs| ==> runs[i] == runs[1..][i - 1];
      FirstPending(runs[1..])
  }

  function NewRun(p: Policy, key: RunKey, goalId: nat, now: Time): Run
    requires p.periodMs > 0
  {
    Run(key, RunPending, PeriodStart(p, now), p.cap, None, goalId, None, "", 1)
  }

  function Reserve(s: State, key: RunKey, goalId: nat, now: Time): State
    requires s.policy.periodMs > 0
  {
    s.(runs := s.runs + [NewRun(s.policy, key, goalId, now)],
       goals := s.goals[goalId := NewGoal(goalId, s.policy.cap)],
       cursor := Some(key.content),
       events := s.events + [RunReserved(key)])
  }

  predicate HasRun(s: State, key: RunKey) {
    exists i :: 0 <= i < |s.runs| && s.runs[i].key == key
  }

  /** The tail of a claim, after the runs were observed and the policy was found active and authorised. */
  function ClaimChange(s: State, c: ClaimInput): (State, ClaimOutcome)
    requires s.policy.periodMs > 0
  {
    var pending := FirstPending(s.runs);
    if pending.Some? then (s, Dispatch(pending.value))
    else if exists i :: 0 <= i < |s.runs| && Blocks(s.runs[i]) then (s, NoDispatch)
    else if |s.runs| >= s.policy.maxRuns then (SetStatus(s, Exhausted), NoDispatch)
    else if c.source.None? then (s, Threw("BUSINESS_CONTEXT_NOT_FOUND"))
    else if s.cursor.None? then (s, Threw("FOLLOWUP_CURSOR_MISSING"))
    else if s.cursor.value == c.source.value.content then (s, NoDispatch)
    else
      var detail := Detail(s.policy, s.runs, PeriodStart(s.policy, c.detailNow));
      if detail.None? then (s, Threw("FOLLOWUP_USAGE_INVALID"))
      else if !PeriodHasRoom(s.policy, detail.value) || HasRun(s, c.source.value) then (s, NoDispatch)
      else (Reserve(s, c.source.value, c.goalId, c.periodNow), Dispatch(c.source.value))
  }

  /** One claim. A thrown error aborts the transaction, so the state is then the one before the call. */
  function Claim(s: State, c: ClaimInput): (State, ClaimOutcome)
    requires s.policy.periodMs > 0
  {
    var o := ObserveAll(s);
    if s.policy.status.Stopped? || s.policy.status.Invalidated? || s.policy.status.Expired? || s.policy.status.Exhausted?
    then (o, NoDispatch)
    else
      var error := AssertPolicy(s.policy, c.policyNow, c.authority, false);
      if error.Some? then (Invalidate(o, error.value), NoDispatch)
      else if !s.policy.status.Active? then (o, NoDispatch)
      else
        var (next, outcome) := ClaimChange(o, c);
        if outcome.Threw? then (s, outcome) else (next, outcome)
  }

  // ---------------------------------------------------------------- dispatch, commands, recovery

  datatype StartInput = StartInput(key: RunKey, now: Time, authority: Option<string>, goalReady: bool, execution: nat)

  function IndexOf(runs: seq<Run>, key: RunKey): (found: Option<nat>)
    ensures found.None? <==> forall i :: 0 <= i < |runs| ==> runs[i].key != key
    ensures found.Some? ==> found.value < |runs| && runs[found.value].key == key
  {
    if runs == [] then None
    else if runs[|runs| - 1].key == key then Some(|runs| - 1)
    else IndexOf(runs[..|runs| - 1], key)
  }

  /**
   The start transaction of a dispatch: the goal service's own checks, the follow-up gate on the plan, and the
   start port, which binds the execution and marks the run as running. `goalReady` stands for the goal service's
   thread, plan, version and resource checks.
   */
  function Start(s: State, d: StartInput): Result<State> {
    var found := IndexOf(s.runs, d.key);
    if found.None? || s.runs[found.value].goalId !in s.goals then Err("FOLLOWUP_GOAL_MISSING")
    else
      var run := s.runs[found.value];
      var goal := s.goals[run.goalId];
      if Final(goal.status) then Err("GOAL_CLOSED")
      else if !goal.status.AwaitingAuthorization? || goal.executionRef.Some? then Err("GOAL_PLAN_IN_PROGRESS")
      else if !d.goalReady then Err("GOAL_THREAD_BUSY")
      else if AssertPolicy(s.policy, d.now, d.authority, false).Some? then Err(AssertPolicy(s.policy, d.now, d.authority, false).value)
      else if !run.status.RunPending? then Err("FOLLOWUP_DISPATCH_REQUIRED")
      else if AssertPolicy(s.policy, d.now, d.authority, true).Some? then Err(AssertPolicy(s.policy, d.now, d.authority, true).value)
      else Ok(s.(runs := s.runs[found.value := run.(status := RunRunning, executionId := Some(d.execution), streamVersion := run.streamVersion + 1)],
                 goals := s.goals[run.goalId := Saved(goal, StartedGoal(goal, d.execution))],
                 events := s.events + [RunStarted(d.key)]))
  }

  datatype CommandInput = CommandInput(idempotencyKey: string, request: Receipt, now: Time, authority: Option<string>)

  predicate CommandAllowed(status: PolicyStatus, c: Command) {
    match c
    case Stop => status.Active? || status.PausedPolicy? || status.Exhausted?
    case Pause => status.Active?
    case Resume => status.PausedPolicy?
  }

  function StatusAfterCommand(c: Command): PolicyStatus {
    match c
    case Stop => Stopped
    case Pause => PausedPolicy
    case Resume => Active
  }

  function CommandPolicy(s: State, c: CommandInput): Result<State> {
    if c.idempotencyKey in s.receipts then
      if s.receipts[c.idempotencyKey] != c.request then Err("IDEMPOTENCY_KEY_REUSED") else Ok(s)
    else if s.policy.streamVersion != c.request.expectedVersion then Err("STREAM_VERSION_CONFLICT")
    else if !CommandAllowed(s.policy.status, c.request.command) then Err("FOLLOWUP_COMMAND_INVALID")
    else if c.request.command.Resume? && AssertPolicy(s.policy, c.now, c.authority, false).Some?
    then Err(AssertPolicy(s.policy, c.now, c.authority, false).value)
    else
      var changed := SetStatus(s, StatusAfterCommand(c.request.command));
      var settled := if c.request.command.Stop? then CancelPending(changed, STOPPED) else changed;
      Ok(settled.(receipts := s.receipts[c.idempotencyKey := c.request]))
  }

  /** The error path of a recovery worker; a storage conflict or a lost race leaves the grant alone. */
  function RecoverError(s: State, code: Option<string>): State {
    if code.None? || code.value == "STREAM_VERSION_CONFLICT" || code.value == "FOLLOWUP_RUN_CHANGED" || code.value == STOPPED then s
    else
      var o := ObserveAll(s);
      var i := if s.policy.status.Active? || s.policy.status.PausedPolicy? then Invalidate(o, code.value) else o;
      CancelPending(i, code.value)
  }

  /** Any other goal service changes one goal of the policy. */
  function ChangeGoal(s: State, id: nat, g: Goal): State {
    s.(goals := s.goals[id := g])
  }

  // ---------------------------------------------------------------- creation

  /** The budget and limit checks of `parseFollowup` and the reservation caps of `validateGoalBudget`. */
  predicate DefinitionAccepted(p: Policy, now: Time) {
    && 1 <= p.maxRuns <= 1000
    && 1 <= p.periodMaxRuns <= 1000
    && (p.periodMs == 86400000 || p.periodMs == 604800000)
    && p.periodLimit.currency == p.cap.currency
    && p.cap.tokens <= p.periodLimit.tokens
    && p.cap.cost <= p.periodLimit.cost
    && now < p.expiresAt <= now + 366 * 86400000
  }

  function Create(p: Policy, now: Time, content: nat): Result<State> {
    if !DefinitionAccepted(p, now) then Err("FOLLOWUP_BUDGET_INVALID")
    else Ok(State(p.(status := Active, createdAt := now, streamVersion := 1), [], Some(content), map[], map[], [PolicyChanged(Active)]))
  }
}
