/**
 Deciding external calls whose outcome is unknown: what a reviewer may choose, how a call is settled, verified or
 replaced, and the jobs and receipts that a decision writes in its one transaction.
 */
module Reconciliation {
  import opened Options

  datatype Status = Queued | Running | NeedsReconciliation | Completed | Failed | Cancelled

  datatype Decision = Terminate | MarkCompleted | CreateNewCall

  datatype Invocation = Started | Unknown | Settled

  datatype Verdict = Pending | Passed | Rejected

  datatype Verification = Verification(verdict: Verdict, job: nat)

  /** The kernel's view of an execution. */
  datatype Execution = Execution(status: Status, streamVersion: nat, task: nat)

  /** The coding checkpoint of an execution that has started its external runner. */
  datatype Run = Run(
    status: Status,
    streamVersion: nat,
    invocation: Invocation,
    stopped: bool,
    verification: Option<Verification>,
    decision: Option<Decision>,
    cleanupJob: Option<nat>,
    cleaned: bool)

  datatype Task = Task(status: Status, streamVersion: nat)

  datatype JobKind = VerifyJob | CleanupJob | RunJob

  datatype JobStatus = Available | Leased | Done | JobFailed

  datatype Job = Job(kind: JobKind, execution: nat, status: JobStatus, fence: nat)

  datatype Replacement = Replacement(former: nat, next: nat)

  datatype Response = Response(
    decision: Decision,
    execution: Execution,
    run: Run,
    task: Task,
    job: nat,
    replacement: Option<nat>)

  datatype Receipt = Receipt(request: nat, response: Response)

  datatype Key = Key(scope: nat, key: nat)

  /** `settled` and `replacements` list the settlement and replacement events in the order they were appended. */
  datatype State = State(
    executions: map<nat, Execution>,
    runs: map<nat, Run>,
    tasks: map<nat, Task>,
    jobs: map<nat, Job>,
    receipts: map<Key, Receipt>,
    settled: seq<nat>,
    replacements: seq<Replacement>)

  const EMPTY := State(map[], map[], map[], map[], map[], [], [])

  /**
   One decision. `reviewer`, `consistent`, `callReady` are the verdicts of checks on other records; `runtime` is the
   caller's own readiness check for a new call, absent when it made none; the ids are the ones the host draws.
   */
  datatype Input = Input(
    key: Key,
    request: nat,
    execution: nat,
    expected: int,
    expectedRun: int,
    decision: Decision,
    reviewer: bool,
    consistent: bool,
    verifierReady: bool,
    callReady: bool,
    runtime: Option<bool>,
    job: nat,
    newExecution: nat,
    runJob: nat)

  datatype Outcome = Outcome(state: State, result: Result<Response>)

  predicate Live(j: Job) { j.status.Available? || j.status.Leased? }

  predicate VerificationPending(r: Run) { r.verification.Some? && r.verification.value.verdict.Pending? }

  /** The choices the host offers for one unknown call. */
  function Choices(stopped: bool, pending: bool, markCompleted: bool, newCall: bool): seq<Decision> {
    if !stopped then []
    else if pending then [Terminate]
    else [Terminate] + (if markCompleted then [MarkCompleted] else []) + (if newCall then [CreateNewCall] else [])
  }

  function ChoicesFor(r: Run, verifierReady: bool, newCall: bool): seq<Decision> {
    Choices(r.stopped, VerificationPending(r), r.stopped && r.verification.None? && verifierReady, newCall)
  }

  predicate CanCall(r: Run, i: Input) {
    if r.stopped && i.callReady then i.runtime == Some(true) else false
  }

  /** The execution awaits a decision: its run, invocation and task all say so. */
  predicate Awaits(s: State, e: nat, consistent: bool) {
    && e in s.executions && e in s.runs
    && s.executions[e].status.NeedsReconciliation?
    && s.runs[e].status.NeedsReconciliation? && s.runs[e].invocation.Unknown?
    && s.executions[e].task in s.tasks && s.tasks[s.executions[e].task].status.NeedsReconciliation?
    && consistent
  }

  /** The first check a decision fails, if any, in the order the host makes them. */
  function Refusal(s: State, i: Input): Option<string> {
    if i.execution !in s.executions then Some("EXECUTION_NOT_FOUND")
    else if !i.reviewer then Some("WORKSPACE_ACCESS_DENIED")
    else if s.executions[i.execution].streamVersion != i.expected then Some("STREAM_VERSION_CONFLICT")
    else if !s.executions[i.execution].status.NeedsReconciliation? then Some("INVALID_EXECUTION_TRANSITION")
    else if i.execution !in s.runs then Some("CODING_RECONCILIATION_STATE_INVALID")
    else if s.runs[i.execution].streamVersion != i.expectedRun then Some("STREAM_VERSION_CONFLICT")
    else if !Awaits(s, i.execution, i.consistent) then Some("CODING_RECONCILIATION_STATE_INVALID")
    else Unavailable(s.runs[i.execution], i)
  }

  /** Why a choice is not on offer. */
  function Unavailable(r: Run, i: Input): Option<string> {
    if i.decision in ChoicesFor(r, i.verifierReady, CanCall(r, i)) then None
    else if !r.stopped then Some("CODING_RUNNER_TERMINATION_UNCONFIRMED")
    else if VerificationPending(r) then Some("CODING_RECONCILIATION_DECISION_UNAVAILABLE")
    else if i.decision.MarkCompleted? && !i.verifierReady then Some("CODING_RECONCILIATION_VERIFICATION_UNAVAILABLE")
    else if i.decision.CreateNewCall? && !CanCall(r, i) then Some("CODING_NEW_CALL_NOT_READY")
    else Some("CODING_RECONCILIATION_DECISION_UNAVAILABLE")
  }

  /** The pending verification job may be taken back: it is this execution's and not over. */
  predicate CanInvalidate(s: State, e: nat, job: nat) {
    job in s.jobs && s.jobs[job].kind.VerifyJob? && s.jobs[job].execution == e && Live(s.jobs[job])
  }

  /** Taking a job back ends it and raises its fence, so that no lease granted before is valid any longer. */
  function Invalidate(jobs: map<nat, Job>, job: nat): map<nat, Job>
    requires job in jobs
  {
    jobs[job := jobs[job].(status := JobFailed, fence := jobs[job].fence + 1)]
  }

  function SettleRun(r: Run, decision: Decision, cleanup: nat): Run {
    r.(status := Cancelled, invocation := Settled, decision := Some(decision), cleanupJob := Some(cleanup),
       verification := if VerificationPending(r) then Some(r.verification.value.(verdict := Rejected)) else r.verification,
       streamVersion := r.streamVersion + 1)
  }

  /** The state in which the call is cancelled, its task follows and its cleanup job exists. */
  function CancelCall(s: State, i: Input): State
    requires Awaits(s, i.execution, i.consistent)
    requires VerificationPending(s.runs[i.execution]) ==> s.runs[i.execution].verification.value.job in s.jobs
  {
    var e, r := s.executions[i.execution], s.runs[i.execution];
    var jobs := if VerificationPending(r) then Invalidate(s.jobs, r.verification.value.job) else s.jobs;
    var task := Task(if i.decision.CreateNewCall? then Running else Cancelled, s.tasks[e.task].streamVersion + 1);
    s.(executions := s.executions[i.execution := e.(status := Cancelled, streamVersion := e.streamVersion + 1)],
       runs := s.runs[i.execution := SettleRun(r, i.decision, i.job)],
       tasks := s.tasks[e.task := task],
       jobs := jobs[i.job := Job(CleanupJob, i.execution, Available, 0)],
       settled := s.settled + [i.execution])
  }

  /** Terminating or replacing; a pending verification must first be taken back. */
  function SettleCall(s: State, i: Input): Outcome
    requires Awaits(s, i.execution, i.consistent)
  {
    var r := s.runs[i.execution];
    if VerificationPending(r) && !CanInvalidate(s, i.execution, r.verification.value.job) then
      Outcome(s, Err("CODING_RECONCILIATION_STATE_INVALID"))
    else
      var settled := CancelCall(s, i);
      var after := if i.decision.CreateNewCall? then Replace(settled, i.execution, i.newExecution, i.runJob) else settled;
      var response := Response(i.decision, settled.executions[i.execution], settled.runs[i.execution],
                               settled.tasks[s.executions[i.execution].task], i.job,
                               if i.decision.CreateNewCall? then Some(i.newExecution) else None);
      Outcome(after.(receipts := after.receipts[i.key := Receipt(i.request, response)]), Ok(response))
  }

  /** A new call is a new queued execution of the same task, with its own first job. */
  function Replace(s: State, former: nat, next: nat, job: nat): State
    requires former in s.executions
  {
    s.(executions := s.executions[next := Execution(Queued, 1, s.executions[former].task)],
       jobs := s.jobs[job := Job(RunJob, next, Available, 0)],
       replacements := s.replacements + [Replacement(former, next)])
  }

  /** Marking completed only asks for a verification of what was kept: the call stays undecided. */
  function AskVerification(s: State, i: Input): Outcome
    requires Awaits(s, i.execution, i.consistent)
  {
    var e, r := s.executions[i.execution], s.runs[i.execution];
    if r.verification.Some? then Outcome(s, Err("CODING_RECONCILIATION_VERIFICATION_UNAVAILABLE"))
    else
      var bumped := e.(streamVersion := e.streamVersion + 1);
      var task := s.tasks[e.task].(streamVersion := s.tasks[e.task].streamVersion + 1);
      var run := r.(verification := Some(Verification(Pending, i.job)), decision := Some(MarkCompleted), streamVersion := r.streamVersion + 1);
      var response := Response(MarkCompleted, bumped, run, task, i.job, None);
      Outcome(s.(executions := s.executions[i.execution := bumped],
                 runs := s.runs[i.execution := run],
                 tasks := s.tasks[e.task := task],
                 jobs := s.jobs[i.job := Job(VerifyJob, i.execution, Available, 0)],
                 receipts := s.receipts[i.key := Receipt(i.request, response)]),
              Ok(response))
  }

  /** One decision request: a receipt answers it, a failed check refuses it, or it is carried out. */
  function Decide(s: State, i: Input): Outcome {
    if i.expected < 1 || i.expectedRun < 1 then Outcome(s, Err("EXPECTED_STREAM_VERSION_REQUIRED"))
    else if i.key in s.receipts then
      Outcome(s, if s.receipts[i.key].request != i.request then Err("IDEMPOTENCY_KEY_REUSED") else Ok(s.receipts[i.key].response))
    else
      var refusal := Refusal(s, i);
      if refusal.Some? then Outcome(s, Err(refusal.value))
      else if i.decision.MarkCompleted? then AskVerification(s, i)
      else SettleCall(s, i)
  }

  /** What the review page shows. */
  datatype Page = Page(expected: int, expectedRun: int, choices: seq<Decision>)

  /** The review page, with the readiness resolver's answer when the page has one. */
  function Review(s: State, e: nat, reviewer: bool, consistent: bool, verifierReady: bool, callReady: bool, resolver: Option<bool>): Result<Page> {
    if e !in s.executions then Err("EXECUTION_NOT_FOUND")
    else if !reviewer then Err("WORKSPACE_ACCESS_DENIED")
    else if !Awaits(s, e, consistent) then Err("CODING_RECONCILIATION_STATE_INVALID")
    else
      var r := s.runs[e];
      var newCall := r.stopped && callReady && (resolver.None? || resolver.value);
      Ok(Page(s.executions[e].streamVersion, r.streamVersion, ChoicesFor(r, verifierReady, newCall)))
  }

  // ---------------------------------------------------------------- the worker's side

  /** The lease check of every transaction of a worker: the job is leased and no later lease has been given. */
  predicate HoldsLease(s: State, job: nat, fence: nat) {
    job in s.jobs && s.jobs[job].status.Leased? && s.jobs[job].fence == fence
  }

  /**
   Recording a verdict: only the pending verification of an undecided call is heard. A passed one settles the call and
   starts its cleanup in the same transaction. The job itself stays leased: it is closed by a later transaction.
   */
  function Recorded(s: State, job: nat, passed: bool, cleanup: nat): State
    requires job in s.jobs
  {
    var id := s.jobs[job].execution;
    if !Awaits(s, id, true) || s.runs[id].verification != Some(Verification(Pending, job)) then s
    else
      var e, r := s.executions[id], s.runs[id];
      var task := Task(if passed then Completed else NeedsReconciliation, s.tasks[e.task].streamVersion + 1);
      var bumped := e.(status := if passed then Completed else NeedsReconciliation, streamVersion := e.streamVersion + 1);
      if passed then
        s.(executions := s.executions[id := bumped], tasks := s.tasks[e.task := task],
           runs := s.runs[id := r.(status := Completed, invocation := Settled, verification := Some(Verification(Passed, job)),
                                   cleanupJob := Some(cleanup), streamVersion := r.streamVersion + 1)],
           jobs := s.jobs[cleanup := Job(CleanupJob, id, Available, 0)],
           settled := s.settled + [id])
      else
        s.(executions := s.executions[id := bumped], tasks := s.tasks[e.task := task],
           runs := s.runs[id := r.(verification := Some(Verification(Rejected, job)), streamVersion := r.streamVersion + 1)])
  }

  /** The cleanup handler notes on the checkpoint that the artifacts are gone. */
  function CleanRun(s: State, job: nat): State
    requires job in s.jobs
  {
    var id := s.jobs[job].execution;
    if id !in s.runs || s.runs[id].cleaned then s
    else s.(runs := s.runs[id := s.runs[id].(cleaned := true, streamVersion := s.runs[id].streamVersion + 1)])
  }

  /** A handler returns normally only after its work is on record; it may be stopped or fail at any time. */
  predicate MayComplete(s: State, job: nat)
    requires job in s.jobs
  {
    var id := s.jobs[job].execution;
    match s.jobs[job].kind
    case RunJob => true
    case VerifyJob => id in s.runs && s.runs[id].verification.Some? && !VerificationPending(s.runs[id])
    case CleanupJob => id in s.runs && s.runs[id].cleaned
  }

  /**
   `Finish` is a call with a known outcome, which has a cleanup job when its runner is known to have stopped. `Lease`
   is a claim of an available job or of one whose lease expired. `EndJob` is the worker's last transaction on a job.
   */
  datatype Step =
    | Enqueue(execution: nat, task: nat)
    | Begin(execution: nat)
    | Finish(execution: nat, status: Status, stopped: bool, cleanup: nat)
    | LoseOutcome(execution: nat, stopped: bool)
    | ConfirmStop(execution: nat)
    | Lease(job: nat)
    | Record(job: nat, fence: nat, passed: bool, cleanup: nat)
    | Clean(job: nat, fence: nat)
    | EndJob(job: nat, fence: nat, completed: bool)
    | DecideStep(input: Input)

  predicate Fresh(s: State, i: Input) {
    i.job !in s.jobs && i.runJob !in s.jobs && i.job != i.runJob && i.newExecution !in s.executions
  }

  predicate InRun(s: State, e: nat, invocation: Invocation) {
    e in s.runs && e in s.executions && s.runs[e].invocation == invocation
  }

  predicate Enabled(s: State, step: Step) {
    match step
    case Enqueue(e, _) => e !in s.executions
    case Begin(e) => e in s.executions && e !in s.runs && s.executions[e].status.Queued?
    case Finish(e, status, _, cleanup) =>
      InRun(s, e, Started) && (status.Completed? || status.Failed? || status.Cancelled?) && cleanup !in s.jobs
    case LoseOutcome(e, _) => InRun(s, e, Started)
    case ConfirmStop(e) => InRun(s, e, Unknown)
    case Lease(j) => j in s.jobs && Live(s.jobs[j])
    case Record(j, fence, _, cleanup) => HoldsLease(s, j, fence) && s.jobs[j].kind.VerifyJob? && cleanup !in s.jobs
    case Clean(j, fence) => HoldsLease(s, j, fence) && s.jobs[j].kind.CleanupJob?
    case EndJob(j, fence, completed) => HoldsLease(s, j, fence) && (completed ==> MayComplete(s, j))
    case DecideStep(i) => Fresh(s, i)
  }

  function WithJob(s: State, j: nat, status: JobStatus, fence: nat): State
    requires j in s.jobs
  {
    s.(jobs := s.jobs[j := s.jobs[j].(status := status, fence := fence)])
  }

  function WithStatus(s: State, e: nat, status: Status, r: Run): State
    requires e in s.executions
  {
    var x := s.executions[e];
    s.(executions := s.executions[e := x.(status := status, streamVersion := x.streamVersion + 1)],
       runs := s.runs[e := r.(status := status)],
       tasks := if x.task in s.tasks then s.tasks[x.task := Task(status, s.tasks[x.task].streamVersion + 1)]
                else s.tasks[x.task := Task(status, 1)])
  }

  function FinishCall(s: State, e: nat, status: Status, stopped: bool, cleanup: nat): State
    requires e in s.executions && e in s.runs
  {
    var r := s.runs[e].(invocation := Settled, stopped := stopped, streamVersion := s.runs[e].streamVersion + 1);
    if stopped then
      WithStatus(s, e, status, r.(cleanupJob := Some(cleanup))).(jobs := s.jobs[cleanup := Job(CleanupJob, e, Available, 0)])
    else WithStatus(s, e, status, r)
  }

  function Apply(s: State, step: Step): State
    requires Enabled(s, step)
  {
    match step
    case Enqueue(e, task) => s.(executions := s.executions[e := Execution(Queued, 1, task)])
    case Begin(e) => WithStatus(s, e, Running, Run(Running, 1, Started, false, None, None, None, false))
    case Finish(e, status, stopped, cleanup) => FinishCall(s, e, status, stopped, cleanup)
    case LoseOutcome(e, stopped) =>
      WithStatus(s, e, NeedsReconciliation, s.runs[e].(invocation := Unknown, stopped := stopped, streamVersion := s.runs[e].streamVersion + 1))
    case ConfirmStop(e) => s.(runs := s.runs[e := s.runs[e].(stopped := true, streamVersion := s.runs[e].streamVersion + 1)])
    case Lease(j) => WithJob(s, j, Leased, s.jobs[j].fence + 1)
    case Record(j, _, passed, cleanup) => Recorded(s, j, passed, cleanup)
    case Clean(j, _) => CleanRun(s, j)
    case EndJob(j, _, completed) => WithJob(s, j, if completed then Done else JobFailed, s.jobs[j].fence)
    case DecideStep(i) => Decide(s, i).state
  }

  /** The transaction object: the projections and receipts that decisions overwrite. */
  class ReconciliationStore {
    var executions: map<nat, Execution>
    var runs: map<nat, Run>
    var tasks: map<nat, Task>
    var jobs: map<nat, Job>
    var receipts: map<Key, Receipt>
    var settled: seq<nat>
    var replacements: seq<Replacement>

    function View(): State
      reads this
    {
      State(executions, runs, tasks, jobs, receipts, settled, replacements)
    }

    constructor ()
      ensures View() == EMPTY
    {
      executions, runs, tasks, jobs, receipts := map[], map[], map[], map[], map[];
      settled, replacements := [], [];
    }

    method InvalidateVerificationJob(execution: nat, job: nat) returns (ok: bool)
      modifies this`jobs
      ensures ok == old(CanInvalidate(View(), execution, job))
      ensures View() == if ok then old(View()).(jobs := Invalidate(old(jobs), job)) else old(View())
    {
      ok := job in jobs && jobs[job].kind.VerifyJob? && jobs[job].execution == execution
            && (jobs[job].status.Available? || jobs[job].status.Leased?);
      if ok {
        jobs := jobs[job := jobs[job].(status := JobFailed, fence := jobs[job].fence + 1)];
      }
    }

    method CreateNewCall(former: nat, next: nat, job: nat)
      requires former in executions
      modifies this`executions, this`jobs, this`replacements
      ensures View() == Replace(old(View()), former, next, job)
    {
      executions := executions[next := Execution(Queued, 1, executions[former].task)];
      replacements := replacements + [Replacement(former, next)];
      jobs := jobs[job := Job(RunJob, next, Available, 0)];
    }

    method RequestVerification(i: Input) returns (result: Result<Response>)
      requires Awaits(View(), i.execution, i.consistent)
      modifies this
      ensures Outcome(View(), result) == AskVerification(old(View()), i)
    {
      var e, r := executions[i.execution], runs[i.execution];
      if r.verification.Some? {
        return Err("CODING_RECONCILIATION_VERIFICATION_UNAVAILABLE");
      }
      var bumped := e.(streamVersion := e.streamVersion + 1);
      var task := tasks[e.task].(streamVersion := tasks[e.task].streamVersion + 1);
      var run := r.(verification := Some(Verification(Pending, i.job)), decision := Some(MarkCompleted), streamVersion := r.streamVersion + 1);
      executions := executions[i.execution := bumped];
      tasks := tasks[e.task := task];
      runs := runs[i.execution := run];
      jobs := jobs[i.job := Job(VerifyJob, i.execution, Available, 0)];
      result := Ok(Response(MarkCompleted, bumped, run, task, i.job, None));
      receipts := receipts[i.key := Receipt(i.request, result.value)];
    }

    method DecideCodingReconciliation(i: Input) returns (result: Result<Response>)
      requires Fresh(View(), i)
      modifies this
      ensures Outcome(View(), result) == Decide(old(View()), i)
    {
      if i.expected < 1 || i.expectedRun < 1 {
        return Err("EXPECTED_STREAM_VERSION_REQUIRED");
      }
      if i.key in receipts {
        var previous := receipts[i.key];
        return if previous.request != i.request then Err("IDEMPOTENCY_KEY_REUSED") else Ok(previous.response);
      }
      var refusal := Refusal(View(), i);
      if refusal.Some? {
        return Err(refusal.value);
      }
      if i.decision.MarkCompleted? {
        result := RequestVerification(i);
        return;
      }
      result := SettleUndecidedCall(i);
    }

    /** Terminates or replaces the call, after a pending verification was taken back. */
    method SettleUndecidedCall(i: Input) returns (result: Result<Response>)
      requires Awaits(View(), i.execution, i.consistent)
      modifies this
      ensures Outcome(View(), result) == SettleCall(old(View()), i)
    {
      var e, r := executions[i.execution], runs[i.execution];
      if VerificationPending(r) {
        var ok := InvalidateVerificationJob(i.execution, r.verification.value.job);
        if !ok {
          return Err("CODING_RECONCILIATION_STATE_INVALID");
        }
      }
      var cancelled := e.(status := Cancelled, streamVersion := e.streamVersion + 1);
      var task := Task(if i.decision.CreateNewCall? then Running else Cancelled, tasks[e.task].streamVersion + 1);
      var run := SettleRun(r, i.decision, i.job);
      executions := executions[i.execution := cancelled];
      tasks := tasks[e.task := task];
      runs := runs[i.execution := run];
      settled := settled + [i.execution];
      jobs := jobs[i.job := Job(CleanupJob, i.execution, Available, 0)];
      var replacement := None;
      if i.decision.CreateNewCall? {
        CreateNewCall(i.execution, i.newExecution, i.runJob);
        replacement := Some(i.newExecution);
      }
      result := Ok(Response(i.decision, cancelled, run, task, i.job, replacement));
      receipts := receipts[i.key := Receipt(i.request, result.value)];
    }
  }
}
