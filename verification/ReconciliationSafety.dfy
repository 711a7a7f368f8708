/** Safety of reconciliation over every run: decisions, replays, verdicts, lost leases and broken jobs interleaved. */
module ReconciliationSafety {
  import opened Options
  import opened Reconciliation

  // ---------------------------------------------------------------- invariant

  /** The parts of a checkpoint, and the status of its execution, fit together. */
  predicate Shape(r: Run, status: Status) {
    && r.status == status
    && (r.invocation.Unknown? <==> r.status.NeedsReconciliation?)
    && (r.invocation.Started? ==> r.verification.None? && r.decision.None? && r.cleanupJob.None?)
    && (r.invocation.Unknown? ==> r.cleanupJob.None?)
    && (VerificationPending(r) ==> r.invocation.Unknown? && r.stopped && r.decision == Some(MarkCompleted))
    && (r.verification.Some? && r.verification.value.verdict.Passed? ==> r.status.Completed? && r.decision == Some(MarkCompleted))
    && (r.cleanupJob.Some? ==> r.invocation.Settled? && r.stopped)
    && (r.decision.Some? && !r.decision.value.MarkCompleted? ==> r.status.Cancelled?)
  }

  predicate JobIs(jobs: map<nat, Job>, j: nat, kind: JobKind, e: nat) {
    j in jobs && jobs[j].kind == kind && jobs[j].execution == e
  }

  /** The jobs a checkpoint names exist and are its own, whatever has become of them. */
  predicate NamesItsJobs(jobs: map<nat, Job>, e: nat, r: Run) {
    && (r.verification.Some? ==> JobIs(jobs, r.verification.value.job, VerifyJob, e))
    && (r.cleanupJob.Some? ==> JobIs(jobs, r.cleanupJob.value, CleanupJob, e))
  }

  /** The events agree with the checkpoint: settled calls, calls finished without reconciliation, replaced calls. */
  predicate Booked(r: Run, settled: bool, replaced: bool) {
    && (settled ==> r.cleanupJob.Some? && r.decision.Some?)
    && (settled && r.status.Completed? ==> r.verification.Some? && r.verification.value.verdict.Passed? && r.decision == Some(MarkCompleted))
    && (settled && !r.status.Completed? ==> r.status.Cancelled?)
    && (!settled && r.invocation.Settled? ==> r.verification.None? && r.decision.None?)
    && (replaced <==> r.decision == Some(CreateNewCall))
  }

  predicate Replaced(replacements: seq<Replacement>, e: nat) {
    exists k :: 0 <= k < |replacements| && replacements[k].former == e
  }

  predicate RunOk(s: State, e: nat)
    requires e in s.runs
  {
    && e in s.executions && Shape(s.runs[e], s.executions[e].status)
    && NamesItsJobs(s.jobs, e, s.runs[e])
    && Booked(s.runs[e], e in s.settled, Replaced(s.replacements, e))
  }

  /** A verification or cleanup job is the one its call names; a completed verification has left its verdict. */
  predicate JobOk(runs: map<nat, Run>, j: nat, job: Job) {
    && (job.kind.VerifyJob? ==>
          && job.execution in runs && runs[job.execution].verification.Some?
          && runs[job.execution].verification.value.job == j
          && (job.status.Done? ==> !VerificationPending(runs[job.execution])))
    && (job.kind.CleanupJob? ==> job.execution in runs && runs[job.execution].cleanupJob == Some(j))
  }

  predicate ReplacementsOk(s: State) {
    && (forall k :: 0 <= k < |s.replacements| ==> s.replacements[k].former in s.runs && s.replacements[k].next in s.executions)
    && (forall i, j :: 0 <= i < j < |s.replacements| ==>
          s.replacements[i].former != s.replacements[j].former && s.replacements[i].next != s.replacements[j].next)
    && (forall i, j :: 0 <= i <= j < |s.replacements| ==> s.replacements[i].former != s.replacements[j].next)
  }

  predicate SettledOnce(s: State) {
    && (forall k :: 0 <= k < |s.settled| ==> s.settled[k] in s.runs)
    && (forall i, j :: 0 <= i < j < |s.settled| ==> s.settled[i] != s.settled[j])
  }

  predicate RunsOk(s: State) { forall e :: e in s.runs ==> RunOk(s, e) }

  predicate JobsOk(s: State) { forall j :: j in s.jobs ==> JobOk(s.runs, j, s.jobs[j]) }

  predicate Inv(s: State) { RunsOk(s) && JobsOk(s) && ReplacementsOk(s) && SettledOnce(s) }

  // ---------------------------------------------------------------- what a change of one call leaves alone

  /** Only the call `e` changes; jobs are added or change their status, and events concern `e` only. */
  ghost predicate Around(s: State, next: State, e: nat) {
    && (forall x :: x in next.runs <==> x in s.runs || x == e)
    && (forall x :: x in s.runs && x != e ==> next.runs[x] == s.runs[x])
    && (forall x :: x in s.executions && x != e ==> x in next.executions && next.executions[x] == s.executions[x])
    && (forall j :: j in s.jobs ==> JobIs(next.jobs, j, s.jobs[j].kind, s.jobs[j].execution))
    && (forall x :: x != e ==> (x in next.settled <==> x in s.settled))
    && (forall x :: x != e ==> (Replaced(next.replacements, x) <==> Replaced(s.replacements, x)))
  }

  /** How a change of one call is recognised. */
  lemma ChangesOneCall(s: State, next: State, e: nat)
    requires e in next.runs && next.runs == s.runs[e := next.runs[e]]
    requires e in next.executions && next.executions == s.executions[e := next.executions[e]]
    requires forall j :: j in s.jobs ==> JobIs(next.jobs, j, s.jobs[j].kind, s.jobs[j].execution)
    requires next.settled == s.settled || next.settled == s.settled + [e]
    requires next.replacements == s.replacements
    ensures Around(s, next, e)
  {
    assert next.settled == s.settled + [e] ==> next.settled[|s.settled|] == e;
  }

  lemma OthersStay(s: State, next: State, e: nat)
    requires RunsOk(s) && Around(s, next, e)
    ensures forall x :: x in next.runs && x != e ==> RunOk(next, x)
  {
    forall x | x in next.runs && x != e ensures RunOk(next, x) {
      assert RunOk(s, x);
    }
  }

  /** The jobs of other calls are as before. */
  lemma OtherJobsStay(s: State, next: State, e: nat)
    requires JobsOk(s) && Around(s, next, e)
    requires forall j :: j in next.jobs && next.jobs[j].execution != e && next.jobs[j].kind != RunJob ==> j in s.jobs && next.jobs[j] == s.jobs[j]
    requires forall j :: j in next.jobs && next.jobs[j].execution == e ==> JobOk(next.runs, j, next.jobs[j])
    ensures JobsOk(next)
  {
    forall j | j in next.jobs ensures JobOk(next.runs, j, next.jobs[j]) {
      if next.jobs[j].execution != e && !next.jobs[j].kind.RunJob? {
        assert JobOk(s.runs, j, s.jobs[j]);
      }
    }
  }

  lemma OneCallKeepsInv(s: State, next: State, e: nat)
    requires Inv(s) && Around(s, next, e) && e in next.runs && RunOk(next, e)
    requires next.replacements == s.replacements && next.settled == s.settled
    requires forall j :: j in next.jobs && next.jobs[j].execution != e && next.jobs[j].kind != RunJob ==> j in s.jobs && next.jobs[j] == s.jobs[j]
    requires forall j :: j in next.jobs && next.jobs[j].execution == e ==> JobOk(next.runs, j, next.jobs[j])
    requires forall x :: x in s.executions ==> x in next.executions
    ensures Inv(next)
  {
    OthersStay(s, next, e);
    OtherJobsStay(s, next, e);
  }

  // ---------------------------------------------------------------- starting and finishing a call

  /** A call that has not been asked about has neither verification nor cleanup jobs. */
  lemma BareCallsHaveNoJobs(s: State, e: nat)
    requires Inv(s) && (e !in s.runs || s.runs[e].invocation.Started?)
    ensures e !in s.settled && !Replaced(s.replacements, e)
    ensures forall j :: j in s.jobs && s.jobs[j].execution == e ==> s.jobs[j].kind.RunJob?
  {
    assert e in s.runs ==> RunOk(s, e);
    forall j | j in s.jobs && s.jobs[j].execution == e ensures s.jobs[j].kind.RunJob? {
      assert JobOk(s.runs, j, s.jobs[j]);
    }
  }

  lemma StatusKeepsInv(s: State, e: nat, status: Status, r: Run)
    requires Inv(s) && e in s.executions
    requires e !in s.runs || s.runs[e].invocation.Started?
    requires r.verification.None? && r.decision.None? && r.cleanupJob.None?
    requires r.invocation.Unknown? <==> status.NeedsReconciliation?
    ensures Inv(WithStatus(s, e, status, r))
  {
    var next := WithStatus(s, e, status, r);
    BareCallsHaveNoJobs(s, e);
    ChangesOneCall(s, next, e);
    assert RunOk(next, e);
    OneCallKeepsInv(s, next, e);
  }

  lemma FinishingKeepsInv(s: State, e: nat, status: Status, stopped: bool, cleanup: nat)
    requires Inv(s) && Enabled(s, Finish(e, status, stopped, cleanup))
    ensures Inv(FinishCall(s, e, status, stopped, cleanup))
  {
    var next := FinishCall(s, e, status, stopped, cleanup);
    FinishedCallIsOk(s, e, status, stopped, cleanup);
    ChangesOneCall(s, next, e);
    OneCallKeepsInv(s, next, e);
  }

  lemma FinishedCallIsOk(s: State, e: nat, status: Status, stopped: bool, cleanup: nat)
    requires Inv(s) && Enabled(s, Finish(e, status, stopped, cleanup))
    ensures var next := FinishCall(s, e, status, stopped, cleanup);
            && RunOk(next, e)
            && forall j :: j in next.jobs && next.jobs[j].execution == e ==> JobOk(next.runs, j, next.jobs[j])
  {
    BareCallsHaveNoJobs(s, e);
    assert RunOk(s, e);
  }

  // ---------------------------------------------------------------- jobs

  lemma JobStatusKeepsInv(s: State, j: nat, status: JobStatus, fence: nat)
    requires Inv(s) && j in s.jobs
    requires s.jobs[j].kind.VerifyJob? && status.Done? ==> MayComplete(s, j)
    ensures Inv(WithJob(s, j, status, fence))
  {
    var next := WithJob(s, j, status, fence);
    forall x | x in next.runs ensures RunOk(next, x) {
      assert RunOk(s, x);
    }
    forall k | k in next.jobs ensures JobOk(next.runs, k, next.jobs[k]) {
      assert JobOk(s.runs, k, s.jobs[k]);
    }
  }

  lemma CleaningKeepsInv(s: State, j: nat)
    requires Inv(s) && j in s.jobs && s.jobs[j].kind.CleanupJob?
    ensures Inv(CleanRun(s, j))
  {
    var e := s.jobs[j].execution;
    if CleanRun(s, j) != s {
      assert RunOk(s, e);
      CheckpointKeepsInv(s, e, s.runs[e].(cleaned := true, streamVersion := s.runs[e].streamVersion + 1));
    }
  }

  /** Changing nothing that jobs, events and the execution depend on. */
  lemma CheckpointKeepsInv(s: State, e: nat, r: Run)
    requires Inv(s) && e in s.runs && Shape(r, s.runs[e].status)
    requires r.verification == s.runs[e].verification && r.decision == s.runs[e].decision && r.cleanupJob == s.runs[e].cleanupJob
    requires r.invocation == s.runs[e].invocation
    ensures Inv(s.(runs := s.runs[e := r]))
  {
    var next := s.(runs := s.runs[e := r]);
    assert RunOk(s, e);
    forall j | j in next.jobs && next.jobs[j].execution == e ensures JobOk(next.runs, j, next.jobs[j]) {
      assert JobOk(s.runs, j, s.jobs[j]);
    }
    ChangesOneCall(s, next, e);
    OneCallKeepsInv(s, next, e);
  }

  lemma ConfirmingKeepsInv(s: State, e: nat)
    requires Inv(s) && Enabled(s, ConfirmStop(e))
    ensures Inv(Apply(s, ConfirmStop(e)))
  {
    assert RunOk(s, e);
    var r := s.runs[e].(stopped := true, streamVersion := s.runs[e].streamVersion + 1);
    CheckpointKeepsInv(s, e, r);
    assert Apply(s, ConfirmStop(e)) == s.(runs := s.runs[e := r]);
  }

  // ---------------------------------------------------------------- verification

  /** A call that was never verified has no verification job, and an undecided one no cleanup job. */
  lemma UndecidedJobs(s: State, e: nat)
    requires Inv(s) && e in s.runs && s.runs[e].invocation.Unknown?
    ensures e !in s.settled && !Replaced(s.replacements, e)
    ensures forall j :: j in s.jobs && s.jobs[j].execution == e ==>
              !s.jobs[j].kind.CleanupJob? && (s.jobs[j].kind.VerifyJob? ==> s.runs[e].verification.Some? && s.runs[e].verification.value.job == j)
  {
    assert RunOk(s, e);
    forall j | j in s.jobs && s.jobs[j].execution == e
      ensures !s.jobs[j].kind.CleanupJob? && (s.jobs[j].kind.VerifyJob? ==> s.runs[e].verification.Some? && s.runs[e].verification.value.job == j)
    {
      assert JobOk(s.runs, j, s.jobs[j]);
    }
  }

  lemma AskingKeepsInv(s: State, i: Input)
    requires Inv(s) && Fresh(s, i) && Awaits(s, i.execution, i.consistent) && s.runs[i.execution].stopped
    ensures Inv(AskVerification(s, i).state)
  {
    var e := i.execution;
    var next := AskVerification(s, i).state;
    UndecidedJobs(s, e);
    assert RunOk(s, e);
    if s.runs[e].verification.None? {
      ChangesOneCall(s, next, e);
      OneCallKeepsInv(s, next, e);
    }
  }

  lemma RejectingKeepsInv(s: State, job: nat, cleanup: nat)
    requires Inv(s) && job in s.jobs && s.jobs[job].kind.VerifyJob?
    ensures Inv(Recorded(s, job, false, cleanup))
  {
    var e := s.jobs[job].execution;
    var next := Recorded(s, job, false, cleanup);
    if next != s {
      UndecidedJobs(s, e);
      assert RunOk(s, e);
      ChangesOneCall(s, next, e);
      forall j | j in next.jobs && next.jobs[j].execution == e ensures JobOk(next.runs, j, next.jobs[j]) {
        assert JobOk(s.runs, j, s.jobs[j]);
      }
      OneCallKeepsInv(s, next, e);
    }
  }

  /** Appending a settlement of a call not settled before. */
  lemma SettlementIsNew(settled: seq<nat>, e: nat)
    requires e !in settled && forall i, j :: 0 <= i < j < |settled| ==> settled[i] != settled[j]
    ensures var after := settled + [e];
            && (forall x :: x in after <==> x in settled || x == e)
            && (forall i, j :: 0 <= i < j < |after| ==> after[i] != after[j])
  {
    assert (settled + [e])[|settled|] == e;
  }

  lemma PassedCallIsOk(s: State, job: nat, cleanup: nat)
    requires Inv(s) && job in s.jobs && s.jobs[job].kind.VerifyJob? && cleanup !in s.jobs && Recorded(s, job, true, cleanup) != s
    ensures var next, e := Recorded(s, job, true, cleanup), s.jobs[job].execution;
            && e in next.runs && RunOk(next, e)
            && forall j :: j in next.jobs && next.jobs[j].execution == e ==> JobOk(next.runs, j, next.jobs[j])
  {
    var e := s.jobs[job].execution;
    var next := Recorded(s, job, true, cleanup);
    UndecidedJobs(s, e);
    assert RunOk(s, e);
    assert next.settled[|s.settled|] == e;
    forall j | j in next.jobs && next.jobs[j].execution == e ensures JobOk(next.runs, j, next.jobs[j]) {
      assert j != cleanup ==> JobOk(s.runs, j, s.jobs[j]);
    }
  }

  lemma PassingKeepsInv(s: State, job: nat, cleanup: nat)
    requires Inv(s) && job in s.jobs && s.jobs[job].kind.VerifyJob? && cleanup !in s.jobs
    ensures Inv(Recorded(s, job, true, cleanup))
  {
    var e := s.jobs[job].execution;
    var next := Recorded(s, job, true, cleanup);
    if next != s {
      PassedCallIsOk(s, job, cleanup);
      UndecidedJobs(s, e);
      SettlementKeepsInv(s, next, e);
    }
  }

  lemma SettlementKeepsInv(s: State, next: State, e: nat)
    requires Inv(s) && e in s.runs && e !in s.settled && next.settled == s.settled + [e] && next.replacements == s.replacements
    requires e in next.runs && next.runs == s.runs[e := next.runs[e]]
    requires e in next.executions && next.executions == s.executions[e := next.executions[e]]
    requires forall j :: j in s.jobs ==> JobIs(next.jobs, j, s.jobs[j].kind, s.jobs[j].execution)
    requires forall j :: j in next.jobs && next.jobs[j].execution != e ==> j in s.jobs && next.jobs[j] == s.jobs[j]
    requires forall j :: j in next.jobs && next.jobs[j].execution == e ==> JobOk(next.runs, j, next.jobs[j])
    ensures forall x :: x in next.runs && x != e ==> RunOk(next, x)
    ensures JobsOk(next) && ReplacementsOk(next) && SettledOnce(next)
  {
    ChangesOneCall(s, next, e);
    OthersStay(s, next, e);
    OtherJobsStay(s, next, e);
    SettlementIsNew(s.settled, e);
  }

  // ---------------------------------------------------------------- settling and replacing

  /** A carried-out decision found its call stopped. */
  lemma OfferedMeansStopped(s: State, i: Input)
    requires i.key !in s.receipts && Refusal(s, i).None?
    ensures Awaits(s, i.execution, i.consistent) && s.runs[i.execution].stopped
    ensures VerificationPending(s.runs[i.execution]) ==> i.decision.Terminate?
    ensures i.decision.CreateNewCall? ==> CanCall(s.runs[i.execution], i)
  {
  }

  /** Cancelling settles the call once and leaves every other call as it was; the event of a replacement is still due. */
  lemma CancellingKeepsCalls(s: State, i: Input)
    requires Inv(s) && Awaits(s, i.execution, i.consistent) && s.runs[i.execution].stopped && !i.decision.MarkCompleted? && i.job !in s.jobs
    requires VerificationPending(s.runs[i.execution]) ==> s.runs[i.execution].verification.value.job in s.jobs
    ensures var next := CancelCall(s, i);
            && (forall x :: x in next.runs && x != i.execution ==> RunOk(next, x))
            && JobsOk(next) && SettledOnce(next) && ReplacementsOk(next)
            && i.execution in next.settled && !Replaced(next.replacements, i.execution)
            && Shape(next.runs[i.execution], Cancelled) && NamesItsJobs(next.jobs, i.execution, next.runs[i.execution])
  {
    var e, next := i.execution, CancelCall(s, i);
    UndecidedJobs(s, e);
    assert RunOk(s, e);
    forall j | j in next.jobs && next.jobs[j].execution == e ensures JobOk(next.runs, j, next.jobs[j]) {
      assert j != i.job ==> JobOk(s.runs, j, s.jobs[j]);
    }
    SettlementKeepsInv(s, next, e);
    assert next.settled[|s.settled|] == e;
  }

  lemma ReplacedGrows(replacements: seq<Replacement>, r: Replacement, x: nat)
    ensures Replaced(replacements + [r], x) <==> Replaced(replacements, x) || x == r.former
  {
    var after := replacements + [r];
    assert after[|replacements|] == r;
    assert forall k :: 0 <= k < |replacements| ==> after[k] == replacements[k];
  }

  lemma ReplacementsGrow(s: State, e: nat, next: nat)
    requires ReplacementsOk(s) && next !in s.executions && e in s.executions && !Replaced(s.replacements, e) && e in s.runs
    requires forall k :: 0 <= k < |s.replacements| ==> s.replacements[k].former in s.executions
    ensures var after := s.replacements + [Replacement(e, next)];
            && (forall i, j :: 0 <= i < j < |after| ==> after[i].former != after[j].former && after[i].next != after[j].next)
            && (forall i, j :: 0 <= i <= j < |after| ==> after[i].former != after[j].next)
  {
  }

  lemma ReplacingKeepsInv(s: State, e: nat, next: nat, job: nat)
    requires e in s.runs && e in s.executions && next !in s.executions && job !in s.jobs
    requires forall x :: x in s.runs && x != e ==> RunOk(s, x)
    requires JobsOk(s) && ReplacementsOk(s) && SettledOnce(s)
    requires e in s.settled && !Replaced(s.replacements, e)
    requires Shape(s.runs[e], s.executions[e].status) && NamesItsJobs(s.jobs, e, s.runs[e])
    requires s.runs[e].decision == Some(CreateNewCall) && s.runs[e].cleanupJob.Some?
    ensures Inv(Replace(s, e, next, job))
  {
    var after := Replace(s, e, next, job);
    forall x | x in after.runs ensures RunOk(after, x) {
      ReplacedGrows(s.replacements, Replacement(e, next), x);
      assert x != e ==> RunOk(s, x);
    }
    forall k | k in after.jobs ensures JobOk(after.runs, k, after.jobs[k]) {
      assert k != job ==> JobOk(s.runs, k, s.jobs[k]);
    }
    forall k | 0 <= k < |s.replacements| ensures s.replacements[k].former in s.executions {
      assert s.replacements[k].former != e ==> RunOk(s, s.replacements[k].former);
    }
    ReplacementsGrow(s, e, next);
  }

  lemma ReceiptsKeepInv(s: State, receipts: map<Key, Receipt>)
    requires Inv(s)
    ensures Inv(s.(receipts := receipts))
  {
    var next := s.(receipts := receipts);
    forall x | x in next.runs ensures RunOk(next, x) {
      assert RunOk(s, x);
    }
  }

  lemma SettlingKeepsInv(s: State, i: Input)
    requires Inv(s) && Fresh(s, i) && Awaits(s, i.execution, i.consistent) && s.runs[i.execution].stopped
    requires !i.decision.MarkCompleted? && SettleCall(s, i).result.Ok?
    ensures Inv(SettleCall(s, i).state)
  {
    CancellingKeepsCalls(s, i);
    var settled, receipts := CancelCall(s, i), SettleCall(s, i).state.receipts;
    if i.decision.Terminate? {
      assert RunOk(settled, i.execution);
      ReceiptsKeepInv(settled, receipts);
    } else {
      ReplacingKeepsInv(settled, i.execution, i.newExecution, i.runJob);
      ReceiptsKeepInv(Replace(settled, i.execution, i.newExecution, i.runJob), receipts);
    }
  }

  lemma DecidingKeepsInv(s: State, i: Input)
    requires Inv(s) && Fresh(s, i)
    ensures Inv(Decide(s, i).state)
  {
    if Decide(s, i).result.Ok? && i.key !in s.receipts {
      OfferedMeansStopped(s, i);
      if i.decision.MarkCompleted? {
        AskingKeepsInv(s, i);
      } else {
        SettlingKeepsInv(s, i);
      }
    }
  }

  // ---------------------------------------------------------------- every step, every run

  lemma EnqueuingKeepsInv(s: State, e: nat, task: nat)
    requires Inv(s) && e !in s.executions
    ensures Inv(Apply(s, Enqueue(e, task)))
  {
    var next := Apply(s, Enqueue(e, task));
    forall x | x in next.runs ensures RunOk(next, x) {
      assert RunOk(s, x);
    }
  }

  lemma CallStepKeepsInv(s: State, step: Step)
    requires Inv(s) && Enabled(s, step) && (step.Begin? || step.Finish? || step.LoseOutcome?)
    ensures Inv(Apply(s, step))
  {
    match step
    case Begin(e) => StatusKeepsInv(s, e, Running, Run(Running, 1, Started, false, None, None, None, false));
    case Finish(e, status, stopped, cleanup) => FinishingKeepsInv(s, e, status, stopped, cleanup);
    case LoseOutcome(e, stopped) =>
      assert RunOk(s, e);
      StatusKeepsInv(s, e, NeedsReconciliation, s.runs[e].(invocation := Unknown, stopped := stopped, streamVersion := s.runs[e].streamVersion + 1));
  }

  lemma WorkerStepKeepsInv(s: State, step: Step)
    requires Inv(s) && Enabled(s, step) && (step.Lease? || step.Record? || step.Clean? || step.EndJob?)
    ensures Inv(Apply(s, step))
  {
    match step
    case Lease(j) => JobStatusKeepsInv(s, j, Leased, s.jobs[j].fence + 1);
    case Record(j, _, passed, cleanup) =>
      if passed {
        PassingKeepsInv(s, j, cleanup);
      } else {
        RejectingKeepsInv(s, j, cleanup);
      }
    case Clean(j, _) => CleaningKeepsInv(s, j);
    case EndJob(j, _, completed) => JobStatusKeepsInv(s, j, if completed then Done else JobFailed, s.jobs[j].fence);
  }

  lemma StepKeepsInv(s: State, step: Step)
    requires Inv(s) && Enabled(s, step)
    ensures Inv(Apply(s, step))
  {
    if step.Enqueue? {
      EnqueuingKeepsInv(s, step.execution, step.task);
    } else if step.ConfirmStop? {
      ConfirmingKeepsInv(s, step.execution);
    } else if step.DecideStep? {
      DecidingKeepsInv(s, step.input);
    } else if step.Begin? || step.Finish? || step.LoseOutcome? {
      CallStepKeepsInv(s, step);
    } else {
      WorkerStepKeepsInv(s, step);
    }
  }

  ghost predicate Reaches(s: State, steps: seq<Step>, last: State)
    decreases |steps|
  {
    if steps == [] then s == last else Enabled(s, steps[0]) && Reaches(Apply(s, steps[0]), steps[1..], last)
  }

  lemma {:induction false} EveryRunKeepsInv(s: State, steps: seq<Step>, last: State)
    requires Inv(s) && Reaches(s, steps, last)
    ensures Inv(last)
    decreases |steps|
  {
    if steps != [] {
      StepKeepsInv(s, steps[0]);
      EveryRunKeepsInv(Apply(s, steps[0]), steps[1..], last);
    }
  }

  /** What later steps never take back: receipts, settlements and replacements. */
  predicate Extends(s: State, t: State) {
    && (forall k :: k in s.receipts ==> k in t.receipts && t.receipts[k] == s.receipts[k])
    && s.settled <= t.settled
    && s.replacements <= t.replacements
  }

  lemma DecisionExtends(s: State, i: Input)
    requires Fresh(s, i)
    ensures Extends(s, Decide(s, i).state)
  {
    if i.key !in s.receipts && Refusal(s, i).None? {
      OfferedMeansStopped(s, i);
    }
  }

  lemma StepExtends(s: State, step: Step)
    requires Enabled(s, step)
    ensures Extends(s, Apply(s, step))
  {
    if step.DecideStep? {
      DecisionExtends(s, step.input);
    }
  }

  lemma {:induction false} EveryRunExtends(s: State, steps: seq<Step>, last: State)
    requires Reaches(s, steps, last)
    ensures Extends(s, last)
    decreases |steps|
  {
    if steps != [] {
      StepExtends(s, steps[0]);
      EveryRunExtends(Apply(s, steps[0]), steps[1..], last);
    }
  }

  // ---------------------------------------------------------------- settlement and cleanup

  /**
   Each unknown call is settled at most once, and has exactly one cleanup job once it is. A cleanup job of any other
   call belongs to one that finished with a known outcome and a stopped runner, and is its only one.
   */
  lemma SettledOnceWithOneCleanup(steps: seq<Step>, last: State, e: nat, j: nat, k: nat)
    requires Reaches(EMPTY, steps, last) && j < |last.settled| && k < |last.settled|
    ensures last.settled[j] == last.settled[k] ==> j == k
    ensures e in last.settled ==> e in last.runs && last.runs[e].cleanupJob.Some?
                                  && forall x: nat :: JobIs(last.jobs, x, CleanupJob, e) <==> x == last.runs[e].cleanupJob.value
    ensures e !in last.settled ==> forall x: nat :: JobIs(last.jobs, x, CleanupJob, e) ==>
              e in last.runs && last.runs[e].cleanupJob == Some(x) && last.runs[e].stopped && last.runs[e].verification.None? && last.runs[e].decision.None?
  {
    EveryRunKeepsInv(EMPTY, steps, last);
    SettledIsUnique(last, j, k);
    forall x: nat | JobIs(last.jobs, x, CleanupJob, e) ensures e in last.runs && RunOk(last, e) && last.runs[e].cleanupJob == Some(x) {
      assert JobOk(last.runs, x, last.jobs[x]);
    }
    if e in last.settled {
      SettledHasRun(last, e);
      assert RunOk(last, e);
    }
  }

  lemma SettledIsUnique(s: State, j: nat, k: nat)
    requires SettledOnce(s) && j < |s.settled| && k < |s.settled|
    ensures s.settled[j] == s.settled[k] ==> j == k
  {
  }

  lemma SettledHasRun(s: State, e: nat)
    requires SettledOnce(s) && e in s.settled
    ensures e in s.runs
  {
    var k :| 0 <= k < |s.settled| && s.settled[k] == e;
    assert s.settled[k] in s.runs;
  }

  /** A replaced call is cancelled and its runner is known to have stopped; it is replaced only once. */
  lemma ReplacedCallsAreDead(steps: seq<Step>, last: State, j: nat, k: nat)
    requires Reaches(EMPTY, steps, last) && j < |last.replacements| && k < |last.replacements|
    ensures var e := last.replacements[j].former;
            && e in last.runs && e in last.executions && last.executions[e].status.Cancelled?
            && last.runs[e].stopped && last.runs[e].invocation.Settled? && e in last.settled
    ensures last.replacements[j].former == last.replacements[k].former ==> j == k
    ensures last.replacements[j].next == last.replacements[k].next ==> j == k
  {
    EveryRunKeepsInv(EMPTY, steps, last);
    ReplacedIsSettled(last, last.replacements[j].former, j);
  }

  lemma ReplacedIsSettled(s: State, e: nat, j: nat)
    requires Inv(s) && j < |s.replacements| && s.replacements[j].former == e
    ensures e in s.runs && e in s.executions && s.executions[e].status.Cancelled?
    ensures s.runs[e].stopped && s.runs[e].invocation.Settled? && e in s.settled
  {
    assert Replaced(s.replacements, e);
    assert RunOk(s, e);
  }

  /** `path` lists indices of replacement events, each replacing what the one before it created. */
  predicate Chain(s: State, path: seq<nat>) {
    && (forall i :: 0 <= i < |path| ==> path[i] < |s.replacements|)
    && (forall i :: 0 <= i < |path| - 1 ==> s.replacements[path[i]].next == s.replacements[path[i + 1]].former)
  }

  lemma {:induction false} ChainsAscend(s: State, path: seq<nat>, i: nat, j: nat)
    requires ReplacementsOk(s) && Chain(s, path) && i < j < |path|
    ensures path[i] < path[j]
    decreases j - i
  {
    var a, b := path[j - 1], path[j];
    assert s.replacements[a].next == s.replacements[b].former;
    if i < j - 1 {
      ChainsAscend(s, path, i, j - 1);
    }
  }

  /** Following replacements never comes back to a call already replaced, and at most the newest call is alive. */
  lemma ChainsEndInOneLiveCall(steps: seq<Step>, last: State, path: seq<nat>, i: nat, j: nat)
    requires Reaches(EMPTY, steps, last) && Chain(last, path) && i <= j < |path|
    ensures last.replacements[path[i]].former != last.replacements[path[j]].next
    ensures last.replacements[path[i]].former in last.executions
            && last.executions[last.replacements[path[i]].former].status.Cancelled?
  {
    EveryRunKeepsInv(EMPTY, steps, last);
    if i < j {
      ChainsAscend(last, path, i, j);
    }
    ReplacedCallsAreDead(steps, last, path[i], path[i]);
  }

  // ---------------------------------------------------------------- completion

  lemma SettlementCancels(s: State, i: Input)
    requires Awaits(s, i.execution, i.consistent)
    ensures var next := SettleCall(s, i).state;
            && next.executions.Keys <= s.executions.Keys + {i.newExecution}
            && forall e :: e in s.executions && e != i.newExecution ==> e in next.executions && (next.executions[e] == s.executions[e] || next.executions[e].status.Cancelled?)
    ensures var next := SettleCall(s, i).state;
            i.newExecution !in s.executions && i.newExecution in next.executions ==> next.executions[i.newExecution].status.Queued?
  {
  }

  /** A decision never completes a call: only a passed verification does, and only after a reviewer asked for it. */
  lemma DecisionsNeverComplete(s: State, i: Input, e: nat)
    requires Fresh(s, i) && e in Decide(s, i).state.executions && Decide(s, i).state.executions[e].status.Completed?
    ensures e in s.executions && s.executions[e].status.Completed?
  {
    if i.key !in s.receipts && Refusal(s, i).None? {
      OfferedMeansStopped(s, i);
      if !i.decision.MarkCompleted? {
        SettlementCancels(s, i);
      }
    }
  }

  lemma CompletionNeedsVerification(steps: seq<Step>, last: State, e: nat)
    requires Reaches(EMPTY, steps, last) && e in last.settled
    ensures e in last.executions && e in last.runs
    ensures last.executions[e].status.Completed? ==>
              last.runs[e].decision == Some(MarkCompleted) && last.runs[e].verification.Some?
              && last.runs[e].verification.value.verdict.Passed?
    ensures !last.executions[e].status.Completed? ==> last.executions[e].status.Cancelled?
  {
    EveryRunKeepsInv(EMPTY, steps, last);
    SettledHasRun(last, e);
    assert RunOk(last, e);
  }

  // ---------------------------------------------------------------- what stays

  /** The call is as it was, except that its artifacts may have been cleaned up since. */
  predicate SameCall(s: State, next: State, e: nat) {
    && e in s.runs && e in s.executions && e in next.runs && e in next.executions
    && next.executions[e] == s.executions[e]
    && next.runs[e].(cleaned := s.runs[e].cleaned, streamVersion := s.runs[e].streamVersion) == s.runs[e]
    && (s.runs[e].cleaned ==> next.runs[e] == s.runs[e])
  }

  lemma DecisionsSpareOtherCalls(s: State, i: Input, e: nat)
    requires Fresh(s, i) && e in s.runs && e in s.executions && !Awaits(s, e, true)
    ensures SameCall(s, Decide(s, i).state, e)
  {
    if i.key !in s.receipts && Refusal(s, i).None? {
      OfferedMeansStopped(s, i);
      assert i.execution != e;
    }
  }

  lemma SettledStepStays(s: State, step: Step, e: nat)
    requires Inv(s) && Enabled(s, step) && e in s.settled
    ensures SameCall(s, Apply(s, step), e) && e in Apply(s, step).settled
  {
    SettledHasRun(s, e);
    assert RunOk(s, e);
    StepExtends(s, step);
    if step.DecideStep? {
      DecisionsSpareOtherCalls(s, step.input, e);
    } else if step.Record? {
      RecordsSpareOtherCalls(s, step.job, step.passed, step.cleanup, e);
    } else if step.Begin? || step.Finish? || step.LoseOutcome? {
      CallStepsSpareOtherCalls(s, step, e);
    }
  }

  lemma RecordsSpareOtherCalls(s: State, job: nat, passed: bool, cleanup: nat, e: nat)
    requires job in s.jobs && e in s.runs && e in s.executions && !Awaits(s, e, true)
    ensures SameCall(s, Recorded(s, job, passed, cleanup), e)
  {
  }

  lemma CallStepsSpareOtherCalls(s: State, step: Step, e: nat)
    requires Enabled(s, step) && (step.Begin? || step.Finish? || step.LoseOutcome?)
    requires e in s.runs && e in s.executions && !s.runs[e].invocation.Started?
    ensures SameCall(s, Apply(s, step), e)
  {
  }

  /** A settled call stays as it is through any further run; only its cleanup may still be noted, once. */
  lemma {:induction false} SettledCallsStay(s: State, steps: seq<Step>, last: State, e: nat)
    requires Inv(s) && Reaches(s, steps, last) && e in s.settled
    ensures SameCall(s, last, e)
    decreases |steps|
  {
    if steps == [] {
      SettledHasRun(s, e);
      assert RunOk(s, e);
    } else {
      SettledStepStays(s, steps[0], e);
      StepKeepsInv(s, steps[0]);
      SettledCallsStay(Apply(s, steps[0]), steps[1..], last, e);
    }
  }

  // ---------------------------------------------------------------- receipts and refusals

  /** A repeated request gets the recorded response and changes nothing, after any further steps. */
  lemma ReplaysAnswerAlike(s: State, i: Input, steps: seq<Step>, last: State, again: Input)
    requires Fresh(s, i) && Decide(s, i).result.Ok? && Reaches(Decide(s, i).state, steps, last)
    requires again.key == i.key && again.request == i.request && again.expected >= 1 && again.expectedRun >= 1
    ensures Decide(last, again) == Outcome(last, Decide(s, i).result)
  {
    RecordsItsReceipt(s, i);
    EveryRunExtends(Decide(s, i).state, steps, last);
  }

  lemma RecordsItsReceipt(s: State, i: Input)
    requires Decide(s, i).result.Ok?
    ensures i.key in Decide(s, i).state.receipts
    ensures Decide(s, i).state.receipts[i.key] == Receipt(i.request, Decide(s, i).result.value)
  {
  }

  lemma RefusalsChangeNothing(s: State, i: Input)
    requires Decide(s, i).result.Err?
    ensures Decide(s, i).state == s
  {
  }

  /** The run without its refused decisions. */
  function Effective(s: State, steps: seq<Step>): seq<Step>
    decreases |steps|
  {
    if steps == [] || !Enabled(s, steps[0]) then []
    else if steps[0].DecideStep? && Decide(s, steps[0].input).result.Err? then Effective(s, steps[1..])
    else [steps[0]] + Effective(Apply(s, steps[0]), steps[1..])
  }

  /** Refused decisions leave no trace: without them every run reaches the same state, and none of its decisions is refused. */
  lemma {:induction false} RefusalsLeaveNoTrace(s: State, steps: seq<Step>, last: State)
    requires Reaches(s, steps, last)
    ensures Reaches(s, Effective(s, steps), last)
    ensures Effective(s, Effective(s, steps)) == Effective(s, steps)
    decreases |steps|
  {
    if steps != [] {
      if steps[0].DecideStep? && Decide(s, steps[0].input).result.Err? {
        RefusalsChangeNothing(s, steps[0].input);
        RefusalsLeaveNoTrace(s, steps[1..], last);
      } else {
        var rest := Effective(Apply(s, steps[0]), steps[1..]);
        RefusalsLeaveNoTrace(Apply(s, steps[0]), steps[1..], last);
        assert ([steps[0]] + rest)[1..] == rest;
      }
    }
  }

  // ---------------------------------------------------------------- verification jobs beside cleanup jobs

  /** A call has at most one verification job in its whole life. */
  lemma OneVerificationPerCall(steps: seq<Step>, last: State, v: nat, w: nat, e: nat)
    requires Reaches(EMPTY, steps, last) && JobIs(last.jobs, v, VerifyJob, e) && JobIs(last.jobs, w, VerifyJob, e)
    ensures v == w
  {
    EveryRunKeepsInv(EMPTY, steps, last);
    assert JobOk(last.runs, v, last.jobs[v]) && JobOk(last.runs, w, last.jobs[w]);
  }

  predicate HasCleanup(s: State, e: nat) { exists c :: c in s.jobs && s.jobs[c].kind.CleanupJob? && s.jobs[c].execution == e }

  /** A live verification job of the call, its verdict given but not yet closed by its worker. */
  predicate AwaitsClosing(s: State, v: nat, e: nat) {
    && JobIs(s.jobs, v, VerifyJob, e) && Live(s.jobs[v])
    && e in s.runs && s.runs[e].verification.Some? && !VerificationPending(s.runs[e])
  }

  /**
   A live verification job stands beside a cleanup job of its call exactly when its call is settled. Then its verdict is
   on record and only its closing is due; a verification still pending never has a cleanup beside it.
   */
  lemma OverlapExactlyWhen(steps: seq<Step>, last: State, v: nat, e: nat)
    requires Reaches(EMPTY, steps, last) && JobIs(last.jobs, v, VerifyJob, e) && Live(last.jobs[v])
    ensures HasCleanup(last, e) <==> e in last.settled
    ensures HasCleanup(last, e) ==> AwaitsClosing(last, v, e)
    ensures AwaitsClosing(last, v, e) && !HasCleanup(last, e) ==>
              e in last.executions && last.runs[e].verification == Some(Verification(Rejected, v)) && last.executions[e].status.NeedsReconciliation?
  {
    EveryRunKeepsInv(EMPTY, steps, last);
    assert JobOk(last.runs, v, last.jobs[v]);
    assert RunOk(last, e);
    if c :| c in last.jobs && last.jobs[c].kind.CleanupJob? && last.jobs[c].execution == e {
      assert JobOk(last.runs, c, last.jobs[c]);
    }
  }

  /** Every passed verification opens such an overlap: the verdict and the cleanup job come first, the closing later. */
  lemma PassedVerificationsOverlap(s: State, v: nat, fence: nat, cleanup: nat)
    requires Inv(s) && Enabled(s, Record(v, fence, true, cleanup)) && Recorded(s, v, true, cleanup) != s
    ensures var next := Apply(s, Record(v, fence, true, cleanup));
            AwaitsClosing(next, v, s.jobs[v].execution) && HasCleanup(next, s.jobs[v].execution)
  {
    var next := Apply(s, Record(v, fence, true, cleanup));
    assert JobIs(next.jobs, cleanup, CleanupJob, s.jobs[v].execution);
    assert cleanup in next.jobs;
  }

  predicate VerdictGiven(s: State, e: nat) { e in s.runs && s.runs[e].verification.Some? && !VerificationPending(s.runs[e]) }

  lemma VerdictStepStays(s: State, step: Step, e: nat)
    requires Inv(s) && Enabled(s, step) && VerdictGiven(s, e)
    ensures VerdictGiven(Apply(s, step), e) && Apply(s, step).runs[e].verification == s.runs[e].verification
  {
    assert RunOk(s, e);
    if step.DecideStep? {
      DecisionKeepsVerdict(s, step.input, e);
    } else if step.Record? {
      RecordKeepsVerdict(s, step.job, step.passed, step.cleanup, e);
    }
  }

  lemma RecordKeepsVerdict(s: State, job: nat, passed: bool, cleanup: nat, e: nat)
    requires job in s.jobs && VerdictGiven(s, e)
    ensures VerdictGiven(Recorded(s, job, passed, cleanup), e) && Recorded(s, job, passed, cleanup).runs[e].verification == s.runs[e].verification
  {
  }

  lemma DecisionKeepsVerdict(s: State, i: Input, e: nat)
    requires Fresh(s, i) && VerdictGiven(s, e)
    ensures VerdictGiven(Decide(s, i).state, e) && Decide(s, i).state.runs[e].verification == s.runs[e].verification
  {
    if i.key !in s.receipts && Refusal(s, i).None? {
      OfferedMeansStopped(s, i);
    }
  }

  /** The overlap is harmless: whatever happens later, that job's verdict stands and it can record nothing more. */
  lemma {:induction false} OverlapIsHarmless(s: State, steps: seq<Step>, last: State, v: nat, e: nat, passed: bool, cleanup: nat)
    requires Inv(s) && Reaches(s, steps, last) && AwaitsClosing(s, v, e)
    ensures v in last.jobs && Recorded(last, v, passed, cleanup) == last
    ensures e in last.runs && last.runs[e].verification == s.runs[e].verification
    decreases |steps|
  {
    if steps == [] {
      assert JobOk(s.runs, v, s.jobs[v]);
    } else {
      var next := Apply(s, steps[0]);
      VerdictStepStays(s, steps[0], e);
      StepKeepsInv(s, steps[0]);
      JobsKeepTheirCall(s, steps[0], v);
      VerdictsStand(next, steps[1..], last, v, e, passed, cleanup);
    }
  }

  lemma JobsKeepTheirCall(s: State, step: Step, j: nat)
    requires Enabled(s, step) && j in s.jobs
    ensures JobIs(Apply(s, step).jobs, j, s.jobs[j].kind, s.jobs[j].execution)
  {
    if step.DecideStep? && step.input.key !in s.receipts && Refusal(s, step.input).None? {
      OfferedMeansStopped(s, step.input);
    }
  }

  lemma {:induction false} VerdictsStand(s: State, steps: seq<Step>, last: State, v: nat, e: nat, passed: bool, cleanup: nat)
    requires Inv(s) && Reaches(s, steps, last) && VerdictGiven(s, e) && JobIs(s.jobs, v, VerifyJob, e)
    ensures v in last.jobs && Recorded(last, v, passed, cleanup) == last
    ensures e in last.runs && last.runs[e].verification == s.runs[e].verification
    decreases |steps|
  {
    if steps != [] {
      VerdictStepStays(s, steps[0], e);
      StepKeepsInv(s, steps[0]);
      JobsKeepTheirCall(s, steps[0], v);
      VerdictsStand(Apply(s, steps[0]), steps[1..], last, v, e, passed, cleanup);
    }
  }

  // ---------------------------------------------------------------- the review page

  /** The pending verification of a call whose job is over: the worker was stopped or failed before it recorded a verdict. */
  predicate Stuck(s: State, e: nat) {
    && e in s.runs && VerificationPending(s.runs[e])
    && s.runs[e].verification.value.job in s.jobs && !Live(s.jobs[s.runs[e].verification.value.job])
  }

  /** A decision passes its checks exactly when a page made with the same answers lists it, new calls without a resolver apart. */
  lemma ListedExactlyWhen(s: State, i: Input)
    requires i.execution in s.runs ==> i.execution in s.executions && s.runs[i.execution].status == s.executions[i.execution].status
    ensures var page := Review(s, i.execution, i.reviewer, i.consistent, i.verifierReady, i.callReady, i.runtime);
            Refusal(s, i).None? <==>
              && page.Ok? && page.value.expected == i.expected && page.value.expectedRun == i.expectedRun
              && i.decision in page.value.choices && !(i.decision.CreateNewCall? && i.runtime.None?)
  {
  }

  lemma UnlessStuck(s: State, i: Input)
    requires Inv(s) && i.key !in s.receipts && i.expected >= 1 && i.expectedRun >= 1 && Refusal(s, i).None?
    ensures Decide(s, i).result.Ok? <==> !Stuck(s, i.execution)
  {
    OfferedMeansStopped(s, i);
    assert RunOk(s, i.execution);
  }

  /**
   What the review page offers is exactly what a decision then carries out, with two exceptions: a page made without a
   readiness resolver may list a new call, and the page offers to terminate a call that is stuck.
   */
  lemma PageAndDecisionAgree(steps: seq<Step>, s: State, i: Input, resolver: Option<bool>)
    requires Reaches(EMPTY, steps, s) && i.key !in s.receipts && i.runtime == resolver
    requires i.expected >= 1 && i.expectedRun >= 1
    ensures var page := Review(s, i.execution, i.reviewer, i.consistent, i.verifierReady, i.callReady, resolver);
            Decide(s, i).result.Ok? <==>
              && page.Ok? && page.value.expected == i.expected && page.value.expectedRun == i.expectedRun
              && i.decision in page.value.choices
              && !(i.decision.CreateNewCall? && resolver.None?)
              && !Stuck(s, i.execution)
  {
    EveryRunKeepsInv(EMPTY, steps, s);
    assert i.execution in s.runs ==> RunOk(s, i.execution);
    ListedExactlyWhen(s, i);
    if Refusal(s, i).None? {
      UnlessStuck(s, i);
    }
  }

  lemma StuckStepStays(s: State, step: Step, e: nat)
    requires Inv(s) && Enabled(s, step) && Stuck(s, e)
    ensures Stuck(Apply(s, step), e)
  {
    assert RunOk(s, e);
    if step.DecideStep? {
      StuckDecisionsFail(s, step.input, e);
    } else if step.Record? || step.Clean? {
      StuckJobsStay(s, step, e);
    }
  }

  /** The job of a stuck call has no lease to record under, and the call has no cleanup job. */
  lemma StuckJobsStay(s: State, step: Step, e: nat)
    requires Inv(s) && Enabled(s, step) && Stuck(s, e) && (step.Record? || step.Clean?)
    ensures Stuck(Apply(s, step), e)
  {
    assert RunOk(s, e);
    assert JobOk(s.runs, step.job, s.jobs[step.job]);
    assert s.jobs[step.job].execution != e;
  }

  /** No decision reaches a stuck call, and those on other calls leave it alone. */
  lemma StuckDecisionsFail(s: State, i: Input, e: nat)
    requires Inv(s) && Fresh(s, i) && Stuck(s, e)
    ensures Stuck(Decide(s, i).state, e)
    ensures i.execution == e && i.key !in s.receipts ==> Decide(s, i).result.Err?
  {
    assert RunOk(s, e);
    if i.key !in s.receipts && Refusal(s, i).None? {
      OfferedMeansStopped(s, i);
      if i.execution != e && !i.decision.MarkCompleted? && VerificationPending(s.runs[i.execution]) {
        assert RunOk(s, i.execution);
      }
    }
  }

  /** A stuck call stays undecided for ever: through any further run it is never settled, and every new decision on it fails. */
  lemma {:induction false} StuckCallsStayStuck(s: State, steps: seq<Step>, last: State, e: nat, i: Input)
    requires Inv(s) && Reaches(s, steps, last) && Stuck(s, e)
    ensures Stuck(last, e) && e !in last.settled && e in last.executions && last.executions[e].status.NeedsReconciliation?
    ensures Fresh(last, i) && i.execution == e && i.key !in last.receipts ==> Decide(last, i).result.Err?
    decreases |steps|
  {
    if steps == [] {
      assert RunOk(s, e);
      if Fresh(s, i) {
        StuckDecisionsFail(s, i, e);
      }
    } else {
      StuckStepStays(s, steps[0], e);
      StepKeepsInv(s, steps[0]);
      StuckCallsStayStuck(Apply(s, steps[0]), steps[1..], last, e, i);
    }
  }

  // ---------------------------------------------------------------- runs that show it

  const ASK := Input(Key(0, 0), 0, 0, 3, 2, MarkCompleted, true, true, true, true, None, 0, 1, 2)
  const END := Input(Key(0, 1), 1, 0, 4, 3, Terminate, true, true, true, true, None, 1, 1, 2)

  lemma StepReaches(s: State, step: Step, steps: seq<Step>, last: State)
    requires Enabled(s, step) && Reaches(Apply(s, step), steps, last)
    ensures Reaches(s, [step] + steps, last)
  {
    assert ([step] + steps)[1..] == steps;
  }

  lemma {:induction false} RunsJoin(s: State, a: seq<Step>, mid: State, b: seq<Step>, last: State)
    requires Reaches(s, a, mid) && Reaches(mid, b, last)
    ensures Reaches(s, a + b, last)
    decreases |a|
  {
    if a == [] {
      assert a + b == b;
    } else {
      assert (a + b)[1..] == a[1..] + b;
      RunsJoin(Apply(s, a[0]), a[1..], mid, b, last);
    }
  }

  lemma LostCallIsReachable() returns (steps: seq<Step>, s: State)
    ensures Reaches(EMPTY, steps, s)
    ensures s == State(map[0 := Execution(NeedsReconciliation, 3, 0)],
                       map[0 := Run(NeedsReconciliation, 2, Unknown, true, None, None, None, false)],
                       map[0 := Task(NeedsReconciliation, 2)], map[], map[], [], [])
  {
    var s1 := Apply(EMPTY, Enqueue(0, 0));
    var s2 := Apply(s1, Begin(0));
    s := Apply(s2, LoseOutcome(0, true));
    StepReaches(s2, LoseOutcome(0, true), [], s);
    StepReaches(s1, Begin(0), [LoseOutcome(0, true)], s);
    StepReaches(EMPTY, Enqueue(0, 0), [Begin(0)] + [LoseOutcome(0, true)], s);
    steps := [Enqueue(0, 0)] + ([Begin(0)] + [LoseOutcome(0, true)]);
  }

  lemma VerificationFollows(s: State)
    requires s == State(map[0 := Execution(NeedsReconciliation, 3, 0)],
                        map[0 := Run(NeedsReconciliation, 2, Unknown, true, None, None, None, false)],
                        map[0 := Task(NeedsReconciliation, 2)], map[], map[], [], [])
    ensures Enabled(s, DecideStep(ASK)) && Refusal(s, ASK).None?
    ensures Apply(s, DecideStep(ASK)).jobs == map[0 := Job(VerifyJob, 0, Available, 0)]
  {
  }

  /** An unknown call under verification, its job leased. */
  lemma VerificationIsReachable() returns (steps: seq<Step>, s: State)
    ensures Reaches(EMPTY, steps, s)
    ensures s.executions == map[0 := Execution(NeedsReconciliation, 4, 0)] && s.tasks == map[0 := Task(NeedsReconciliation, 3)]
    ensures s.runs == map[0 := Run(NeedsReconciliation, 3, Unknown, true, Some(Verification(Pending, 0)), Some(MarkCompleted), None, false)]
    ensures s.jobs == map[0 := Job(VerifyJob, 0, Leased, 1)] && s.receipts.Keys == {Key(0, 0)}
  {
    var lost, mid := LostCallIsReachable();
    VerificationFollows(mid);
    var asked := Apply(mid, DecideStep(ASK));
    s := Apply(asked, Lease(0));
    StepReaches(asked, Lease(0), [], s);
    StepReaches(mid, DecideStep(ASK), [Lease(0)], s);
    RunsJoin(EMPTY, lost, mid, [DecideStep(ASK)] + [Lease(0)], s);
    steps := lost + ([DecideStep(ASK)] + [Lease(0)]);
  }

  /** A worker stopped during a verification leaves a stuck call: the page offers to terminate it, the decision is refused. */
  lemma StuckCallsAreReachable() returns (steps: seq<Step>, s: State)
    ensures Reaches(EMPTY, steps, s) && Stuck(s, 0)
    ensures Review(s, 0, true, true, true, true, None) == Ok(Page(4, 3, [Terminate]))
    ensures Decide(s, END).result == Err("CODING_RECONCILIATION_STATE_INVALID")
  {
    var before, mid := VerificationIsReachable();
    s := Apply(mid, EndJob(0, 1, false));
    StepReaches(mid, EndJob(0, 1, false), [], s);
    RunsJoin(EMPTY, before, mid, [EndJob(0, 1, false)] + [], s);
    steps := before + ([EndJob(0, 1, false)] + []);
    assert Refusal(s, END).None?;
  }

  /** A verification that passed stands beside its cleanup job until its worker closes it. */
  lemma OverlapIsReachable() returns (steps: seq<Step>, s: State)
    ensures Reaches(EMPTY, steps, s) && AwaitsClosing(s, 0, 0) && HasCleanup(s, 0)
  {
    var before, mid := VerificationIsReachable();
    var record := Record(0, 1, true, 9);
    EveryRunKeepsInv(EMPTY, before, mid);
    s := Apply(mid, record);
    assert s.settled == mid.settled + [0];
    PassedVerificationsOverlap(mid, 0, 1, 9);
    StepReaches(mid, record, [], s);
    RunsJoin(EMPTY, before, mid, [record] + [], s);
    steps := before + ([record] + []);
  }
}
