/** What decisions and verdicts do to the task of a call: what one decision stores, and whose status a task has over a run. */
module ReconciliationTasks {
  import opened Options
  import opened Reconciliation
  import opened ReconciliationSafety

  // ---------------------------------------------------------------- one decision

  predicate CarriedOut(s: State, i: Input) { i.key !in s.receipts && Decide(s, i).result.Ok? }

  lemma CarriedOutWas(s: State, i: Input)
    requires CarriedOut(s, i)
    ensures i.execution in s.executions && i.execution in s.runs && s.executions[i.execution].task in s.tasks
    ensures s.tasks[s.executions[i.execution].task].status == NeedsReconciliation && s.runs[i.execution].stopped
  {
    OfferedMeansStopped(s, i);
  }

  /** A carried-out termination cancels the call and its task. */
  lemma TerminationsCancelTheTask(s: State, i: Input)
    requires Fresh(s, i) && CarriedOut(s, i) && i.decision == Terminate
    ensures i.execution in s.executions
    ensures var n, e := Decide(s, i).state, i.execution;
            var task := s.executions[e].task;
            && n.executions == s.executions[e := Execution(Cancelled, s.executions[e].streamVersion + 1, task)]
            && task in s.tasks && n.tasks == s.tasks[task := Task(Cancelled, s.tasks[task].streamVersion + 1)]
            && n.replacements == s.replacements && n.settled == s.settled + [e]
  {
    CarriedOutWas(s, i);
  }

  /** A carried-out new call cancels the call, keeps its task running, and queues a new execution of that very task with a job. */
  lemma NewCallsKeepTheTaskRunning(s: State, i: Input)
    requires Fresh(s, i) && CarriedOut(s, i) && i.decision == CreateNewCall
    ensures i.execution in s.executions
    ensures var n, e := Decide(s, i).state, i.execution;
            var task := s.executions[e].task;
            && n.executions == s.executions[e := Execution(Cancelled, s.executions[e].streamVersion + 1, task)][i.newExecution := Execution(Queued, 1, task)]
            && task in s.tasks && n.tasks == s.tasks[task := Task(Running, s.tasks[task].streamVersion + 1)]
            && n.replacements == s.replacements + [Replacement(e, i.newExecution)] && n.settled == s.settled + [e]
            && JobIs(n.jobs, i.runJob, RunJob, i.newExecution) && n.jobs[i.runJob].status == Available
  {
    CarriedOutWas(s, i);
  }

  /** Both leave the checkpoint cancelled, with its decision and its own cleanup job, and a verification still pending is rejected and its lease void. */
  lemma SettlementsAreRecorded(s: State, i: Input)
    requires Fresh(s, i) && CarriedOut(s, i) && i.decision != MarkCompleted
    ensures i.execution in s.runs && i.execution in Decide(s, i).state.runs
    ensures var n, r := Decide(s, i).state, s.runs[i.execution];
            var after := n.runs[i.execution];
            && after.status == Cancelled && after.invocation == Settled && after.decision == Some(i.decision)
            && after.cleanupJob == Some(i.job) && JobIs(n.jobs, i.job, CleanupJob, i.execution) && n.jobs[i.job].status == Available
            && after.stopped == r.stopped && after.cleaned == r.cleaned && after.streamVersion == r.streamVersion + 1
            && (r.verification == None ==> after.verification == None)
            && (r.verification.Some? ==>
                  after.verification == Some(Verification(if r.verification.value.verdict == Pending then Rejected else r.verification.value.verdict,
                                                          r.verification.value.job)))
    ensures var n, r := Decide(s, i).state, s.runs[i.execution];
            r.verification.Some? && r.verification.value.verdict == Pending ==>
              var job := r.verification.value.job;
              && job in s.jobs && job in n.jobs && (job != i.job && job != i.runJob ==>
                   n.jobs[job].status == JobFailed && n.jobs[job].fence == s.jobs[job].fence + 1)
  {
    CarriedOutWas(s, i);
  }

  /** Marking completed leaves call and task to be reconciled, and asks for one verification by a new job. */
  lemma VerificationRequestsLeaveTheTask(s: State, i: Input)
    requires Fresh(s, i) && CarriedOut(s, i) && i.decision == MarkCompleted
    ensures i.execution in s.executions && i.execution in s.runs
    ensures var n, e, r := Decide(s, i).state, s.executions[i.execution], s.runs[i.execution];
            && n.executions == s.executions[i.execution := e.(streamVersion := e.streamVersion + 1)]
            && e.task in s.tasks && n.tasks == s.tasks[e.task := s.tasks[e.task].(streamVersion := s.tasks[e.task].streamVersion + 1)]
            && n.runs == s.runs[i.execution := r.(verification := Some(Verification(Pending, i.job)), decision := Some(MarkCompleted), streamVersion := r.streamVersion + 1)]
            && n.jobs == s.jobs[i.job := Job(VerifyJob, i.execution, Available, 0)]
            && n.replacements == s.replacements && n.settled == s.settled
  {
    CarriedOutWas(s, i);
  }

  /** The response carries exactly what was stored: decision, call, checkpoint, task, job and the replacing call. */
  lemma ResponsesTellWhatIsStored(s: State, i: Input)
    requires Fresh(s, i) && CarriedOut(s, i)
    ensures var n, r := Decide(s, i).state, Decide(s, i).result.value;
            && i.execution in s.executions && i.execution in n.executions && i.execution in n.runs && s.executions[i.execution].task in n.tasks
            && r.decision == i.decision && r.execution == n.executions[i.execution] && r.run == n.runs[i.execution]
            && r.task == n.tasks[s.executions[i.execution].task]
            && r.job == i.job && r.job in n.jobs && n.jobs[r.job].execution == i.execution
            && r.replacement == (if i.decision == CreateNewCall then Some(i.newExecution) else None)
            && n.receipts == s.receipts[i.key := Receipt(i.request, r)]
  {
    CarriedOutWas(s, i);
  }

  // ---------------------------------------------------------------- when a decision is offered and carried out

  /** Call, checkpoint and task all wait for a decision, and the records agree. */
  predicate Undecided(s: State, e: nat, consistent: bool) {
    && e in s.executions && s.executions[e].status == NeedsReconciliation
    && e in s.runs && s.runs[e].status == NeedsReconciliation && s.runs[e].invocation == Unknown
    && s.executions[e].task in s.tasks && s.tasks[s.executions[e].task].status == NeedsReconciliation && consistent
  }

  /** A verification has been asked for and has not been answered. */
  predicate Unanswered(r: Run) { r.verification.Some? && r.verification.value.verdict == Pending }

  /** The page shows an undecided call to a reviewer, at its versions, with every choice that is open for it. */
  lemma PagesOfferExactlyWhen(s: State, e: nat, reviewer: bool, consistent: bool, verifierReady: bool, callReady: bool, resolver: Option<bool>)
    ensures var page := Review(s, e, reviewer, consistent, verifierReady, callReady, resolver);
            && (page.Ok? <==> reviewer && Undecided(s, e, consistent))
            && (page.Ok? ==>
                  var r := s.runs[e];
                  && page.value.expected == s.executions[e].streamVersion && page.value.expectedRun == r.streamVersion
                  && (Terminate in page.value.choices <==> r.stopped)
                  && (MarkCompleted in page.value.choices <==> r.stopped && r.verification == None && verifierReady)
                  && (CreateNewCall in page.value.choices <==> r.stopped && !Unanswered(r) && callReady && (resolver.Some? ==> resolver.value)))
  {
  }

  /** What the chosen decision asks of the checkpoint and of the checks made for it. */
  predicate MayDecide(s: State, r: Run, i: Input) {
    match i.decision
    case Terminate => Unanswered(r) ==> TakesBack(s, i.execution, r)
    case MarkCompleted => r.verification == None && i.verifierReady
    case CreateNewCall => !Unanswered(r) && i.callReady && i.runtime == Some(true)
  }

  /** The job of the unanswered verification is this call's own and still waiting or leased. */
  predicate TakesBack(s: State, e: nat, r: Run)
    requires r.verification.Some?
  {
    var job := r.verification.value.job;
    job in s.jobs && s.jobs[job].kind == VerifyJob && s.jobs[job].execution == e && (s.jobs[job].status == Available || s.jobs[job].status == Leased)
  }

  /** A new decision is carried out exactly when a reviewer takes it at the current versions on an undecided, stopped call that allows it. */
  lemma DecisionsAreCarriedOutExactlyWhen(s: State, i: Input)
    requires i.key !in s.receipts
    ensures Decide(s, i).result.Ok? <==>
              && i.expected >= 1 && i.expectedRun >= 1 && i.reviewer && Undecided(s, i.execution, i.consistent)
              && s.executions[i.execution].streamVersion == i.expected && s.runs[i.execution].streamVersion == i.expectedRun
              && s.runs[i.execution].stopped && MayDecide(s, s.runs[i.execution], i)
    ensures Decide(s, i).result.Err? ==> Decide(s, i).state == s
  {
    if Undecided(s, i.execution, i.consistent) {
      OffersExactlyWhen(s.runs[i.execution], i);
    }
  }

  lemma OffersExactlyWhen(r: Run, i: Input)
    ensures Unavailable(r, i) == None <==>
              r.stopped && match i.decision {
                             case Terminate => true
                             case MarkCompleted => r.verification == None && i.verifierReady
                             case CreateNewCall => !Unanswered(r) && i.callReady && i.runtime == Some(true)
                           }
  {
  }

  /** A choice that is not open is refused for its own reason: the runner, a verification under way, or what the choice asks for. */
  lemma RefusedChoicesNameTheirReason(r: Run, i: Input)
    requires Unavailable(r, i).Some?
    ensures var code := Unavailable(r, i).value;
            && (code == "CODING_RUNNER_TERMINATION_UNCONFIRMED" <==> !r.stopped)
            && (code == "CODING_RECONCILIATION_VERIFICATION_UNAVAILABLE" <==>
                  r.stopped && !Unanswered(r) && i.decision == MarkCompleted && !i.verifierReady)
            && (code == "CODING_NEW_CALL_NOT_READY" <==>
                  r.stopped && !Unanswered(r) && i.decision == CreateNewCall && !(i.callReady && i.runtime == Some(true)))
            && (code == "CODING_RECONCILIATION_DECISION_UNAVAILABLE" <==>
                  r.stopped && (Unanswered(r) || (i.decision == MarkCompleted && i.verifierReady && r.verification.Some?)))
  {
  }

  /** A decision on a call that is not undecided, or at another version, is refused before its choice is looked at, for the first of these reasons. */
  lemma RefusalsNameTheirReason(s: State, i: Input)
    requires i.key !in s.receipts && i.expected >= 1 && i.expectedRun >= 1
    ensures var known, e := i.execution in s.executions, i.execution;
            var current := known && i.reviewer && s.executions[e].streamVersion == i.expected;
            && (Decide(s, i).result == Err("EXECUTION_NOT_FOUND") <==> !known)
            && (Decide(s, i).result == Err("WORKSPACE_ACCESS_DENIED") <==> known && !i.reviewer)
            && (Decide(s, i).result == Err("INVALID_EXECUTION_TRANSITION") <==> current && s.executions[e].status != NeedsReconciliation)
            && (Decide(s, i).result == Err("STREAM_VERSION_CONFLICT") <==>
                  && known && i.reviewer
                  && (s.executions[e].streamVersion != i.expected
                      || (s.executions[e].status == NeedsReconciliation && e in s.runs && s.runs[e].streamVersion != i.expectedRun)))
  {
  }

  /** A known key is answered from its receipt: with what was answered first, or with a conflict when the request is another. */
  lemma KnownKeysAreAnsweredFromReceipts(s: State, i: Input)
    requires i.key in s.receipts && i.expected >= 1 && i.expectedRun >= 1
    ensures Decide(s, i).state == s
    ensures s.receipts[i.key].request == i.request ==> Decide(s, i).result == Ok(s.receipts[i.key].response)
    ensures s.receipts[i.key].request != i.request ==> Decide(s, i).result.Err?
  {
  }

  // ---------------------------------------------------------------- over runs

  /** Every task is taken up once: a call is enqueued for a task that no other call has, and only decisions add further calls. */
  predicate OwnTask(s: State, step: Step) {
    step.Enqueue? ==> step.task !in s.tasks && forall e :: e in s.executions ==> s.executions[e].task != step.task
  }

  ghost predicate OwnTasks(s: State, steps: seq<Step>)
    decreases |steps|
  {
    steps == [] || (Enabled(s, steps[0]) && OwnTask(s, steps[0]) && OwnTasks(Apply(s, steps[0]), steps[1..]))
  }

  /** A task has the status of its call, and runs, if it does anything, while that call is queued. */
  predicate TaskFits(tasks: map<nat, Task>, x: Execution) {
    if x.status == Queued then x.task in tasks ==> tasks[x.task].status == Running
    else x.task in tasks && tasks[x.task].status == x.status
  }

  /** A call that was not replaced is the newest of its task. */
  predicate Newest(s: State, e: nat) { e in s.executions && !Replaced(s.replacements, e) }

  ghost predicate NewestFit(s: State) { forall e :: Newest(s, e) ==> TaskFits(s.tasks, s.executions[e]) }

  ghost predicate OneNewest(s: State) {
    forall a, b :: Newest(s, a) && Newest(s, b) && s.executions[a].task == s.executions[b].task ==> a == b
  }

  ghost predicate SameTasks(s: State) {
    forall k :: 0 <= k < |s.replacements| ==>
      && s.replacements[k].former in s.executions && s.replacements[k].next in s.executions
      && s.executions[s.replacements[k].former].task == s.executions[s.replacements[k].next].task
  }

  ghost predicate TasksOk(s: State) { NewestFit(s) && OneNewest(s) && SameTasks(s) }

  /** One newest call and its task change their status together; other calls and tasks, and who replaced whom, stay. */
  lemma MovingTogetherKeepsTasks(s: State, n: State, e: nat)
    requires TasksOk(s) && Newest(s, e) && n.replacements == s.replacements
    requires e in n.executions && n.executions == s.executions[e := n.executions[e]] && n.executions[e].task == s.executions[e].task
    requires n.executions[e].task in n.tasks && n.tasks == s.tasks[n.executions[e].task := n.tasks[n.executions[e].task]]
    requires TaskFits(n.tasks, n.executions[e])
    ensures TasksOk(n)
  {
    forall x | Newest(n, x) ensures TaskFits(n.tasks, n.executions[x]) {
      if x != e {
        assert Newest(s, x) && s.executions[x].task != s.executions[e].task;
      }
    }
    forall a, b | Newest(n, a) && Newest(n, b) && n.executions[a].task == n.executions[b].task ensures a == b {
      assert Newest(s, a) && Newest(s, b);
    }
  }

  lemma SameCallsKeepTasks(s: State, n: State)
    requires TasksOk(s) && n.executions == s.executions && n.tasks == s.tasks && n.replacements == s.replacements
    ensures TasksOk(n)
  {
    forall x | Newest(n, x) ensures TaskFits(n.tasks, n.executions[x]) {
      assert Newest(s, x);
    }
    forall a, b | Newest(n, a) && Newest(n, b) && n.executions[a].task == n.executions[b].task ensures a == b {
      assert Newest(s, a) && Newest(s, b);
    }
  }

  lemma EnqueuingKeepsTasks(s: State, e: nat, task: nat)
    requires Inv(s) && TasksOk(s) && e !in s.executions && OwnTask(s, Enqueue(e, task))
    ensures TasksOk(Apply(s, Enqueue(e, task)))
  {
    var n := Apply(s, Enqueue(e, task));
    forall x | Newest(n, x) ensures TaskFits(n.tasks, n.executions[x]) {
      assert x != e ==> Newest(s, x);
    }
    forall a, b | Newest(n, a) && Newest(n, b) && n.executions[a].task == n.executions[b].task ensures a == b {
      assert (a != e ==> Newest(s, a)) && (b != e ==> Newest(s, b));
    }
  }

  /** A call that is not cancelled, or whose runner was started and is not known to have ended, was never replaced. */
  lemma LiveIsNewest(s: State, e: nat)
    requires Inv(s) && e in s.executions
    requires s.executions[e].status != Cancelled || (e in s.runs && s.runs[e].invocation == Started)
    ensures Newest(s, e)
  {
    if Replaced(s.replacements, e) {
      var k :| 0 <= k < |s.replacements| && s.replacements[k].former == e;
      ReplacedIsSettled(s, e, k);
    }
  }

  lemma ReplacingKeepsTasks(s: State, n: State, e: nat, next: nat)
    requires TasksOk(s) && Newest(s, e) && next !in s.executions && next != e
    requires n.replacements == s.replacements + [Replacement(e, next)]
    requires e in n.executions && next in n.executions && n.executions == s.executions[e := n.executions[e]][next := n.executions[next]]
    requires n.executions[e].task == s.executions[e].task == n.executions[next].task
    requires n.executions[next].task in n.tasks && n.tasks == s.tasks[n.executions[next].task := n.tasks[n.executions[next].task]]
    requires TaskFits(n.tasks, n.executions[next])
    ensures TasksOk(n)
  {
    forall x ensures Replaced(n.replacements, x) <==> Replaced(s.replacements, x) || x == e {
      ReplacedGrows(s.replacements, Replacement(e, next), x);
    }
    forall x | Newest(n, x) ensures TaskFits(n.tasks, n.executions[x]) {
      if x != next {
        assert Newest(s, x) && s.executions[x].task != s.executions[e].task;
      }
    }
    forall a, b | Newest(n, a) && Newest(n, b) && n.executions[a].task == n.executions[b].task ensures a == b {
      assert (a != next ==> Newest(s, a)) && (b != next ==> Newest(s, b));
    }
  }

  lemma DecidingKeepsTasks(s: State, i: Input)
    requires Inv(s) && TasksOk(s) && Fresh(s, i)
    ensures TasksOk(Decide(s, i).state)
  {
    if CarriedOut(s, i) {
      CarriedOutWas(s, i);
      assert RunOk(s, i.execution);
      OfferedMeansStopped(s, i);
      LiveIsNewest(s, i.execution);
      if i.decision == Terminate {
        TerminationsCancelTheTask(s, i);
        MovingTogetherKeepsTasks(s, Decide(s, i).state, i.execution);
      } else if i.decision == CreateNewCall {
        NewCallsKeepTheTaskRunning(s, i);
        ReplacingKeepsTasks(s, Decide(s, i).state, i.execution, i.newExecution);
      } else {
        VerificationRequestsLeaveTheTask(s, i);
        MovingTogetherKeepsTasks(s, Decide(s, i).state, i.execution);
      }
    }
  }

  /** A passed verdict completes call and task, any other leaves both to be reconciled. */
  lemma VerdictsMoveTheTask(s: State, job: nat, passed: bool, cleanup: nat)
    requires job in s.jobs && Recorded(s, job, passed, cleanup) != s
    ensures var n, e := Recorded(s, job, passed, cleanup), s.jobs[job].execution;
            && e in s.executions && s.executions[e].task in s.tasks && e in s.runs
            && s.executions[e].status == NeedsReconciliation && s.runs[e].verification == Some(Verification(Pending, job))
            && var task, status := s.executions[e].task, if passed then Completed else NeedsReconciliation;
               && n.executions == s.executions[e := Execution(status, s.executions[e].streamVersion + 1, task)]
               && n.tasks == s.tasks[task := Task(status, s.tasks[task].streamVersion + 1)]
               && n.replacements == s.replacements
               && n.runs == s.runs[e := if passed
                                        then s.runs[e].(status := Completed, invocation := Settled, verification := Some(Verification(Passed, job)),
                                                        cleanupJob := Some(cleanup), streamVersion := s.runs[e].streamVersion + 1)
                                        else s.runs[e].(verification := Some(Verification(Rejected, job)), streamVersion := s.runs[e].streamVersion + 1)]
               && n.jobs == (if passed then s.jobs[cleanup := Job(CleanupJob, e, Available, 0)] else s.jobs)
               && n.settled == (if passed then s.settled + [e] else s.settled)
  {
  }

  /** Exactly the pending verification of an undecided call is heard. */
  lemma VerdictsAreHeardExactlyWhen(s: State, job: nat, passed: bool, cleanup: nat)
    requires Inv(s) && job in s.jobs && s.jobs[job].kind == VerifyJob
    ensures var e := s.jobs[job].execution;
            Recorded(s, job, passed, cleanup) != s <==>
              && e in s.runs && s.runs[e].verification == Some(Verification(Pending, job))
              && e in s.executions && s.executions[e].task in s.tasks && s.tasks[s.executions[e].task].status == NeedsReconciliation
  {
    var e := s.jobs[job].execution;
    assert e in s.runs ==> RunOk(s, e);
    if Awaits(s, e, true) && s.runs[e].verification == Some(Verification(Pending, job)) {
      assert Recorded(s, job, passed, cleanup).executions[e].streamVersion == s.executions[e].streamVersion + 1;
    }
  }

  /** A cleanup is noted once on the checkpoint of its job, and changes nothing else. */
  lemma CleaningsAreNotedOnce(s: State, job: nat)
    requires job in s.jobs
    ensures var e, n := s.jobs[job].execution, CleanRun(s, job);
            && (e in s.runs && !s.runs[e].cleaned ==> n == s.(runs := s.runs[e := s.runs[e].(cleaned := true, streamVersion := s.runs[e].streamVersion + 1)]))
            && (e !in s.runs || s.runs[e].cleaned ==> n == s)
  {
  }

  /** A worker acts on a job exactly under its latest lease; it completes a verification only with a verdict, a cleanup only when done. */
  lemma WorkersNeedTheLatestLease(s: State, j: nat, fence: nat, passed: bool, cleanup: nat)
    ensures var leased := j in s.jobs && s.jobs[j].status == Leased && s.jobs[j].fence == fence;
            && (Enabled(s, Record(j, fence, passed, cleanup)) <==> leased && s.jobs[j].kind == VerifyJob && cleanup !in s.jobs)
            && (Enabled(s, Clean(j, fence)) <==> leased && s.jobs[j].kind == CleanupJob)
            && (Enabled(s, EndJob(j, fence, false)) <==> leased)
            && (Enabled(s, EndJob(j, fence, true)) <==>
                  leased && var e := s.jobs[j].execution;
                            && (s.jobs[j].kind == VerifyJob ==> e in s.runs && s.runs[e].verification.Some? && !Unanswered(s.runs[e]))
                            && (s.jobs[j].kind == CleanupJob ==> e in s.runs && s.runs[e].cleaned))
  {
  }

  /** A claimed job is leased under the next fence, an ended one is done or failed; no other job and no record changes. */
  lemma JobsMove(s: State, j: nat, fence: nat, completed: bool)
    ensures Enabled(s, Lease(j)) <==> j in s.jobs && (s.jobs[j].status == Available || s.jobs[j].status == Leased)
    ensures Enabled(s, Lease(j)) ==> Apply(s, Lease(j)) == s.(jobs := s.jobs[j := Job(s.jobs[j].kind, s.jobs[j].execution, Leased, s.jobs[j].fence + 1)])
    ensures Enabled(s, EndJob(j, fence, completed)) ==>
              Apply(s, EndJob(j, fence, completed)) ==
                s.(jobs := s.jobs[j := Job(s.jobs[j].kind, s.jobs[j].execution, if completed then Done else JobFailed, s.jobs[j].fence)])
  {
  }

  lemma DecidingRaisesFences(s: State, i: Input, j: nat)
    requires Fresh(s, i) && j in s.jobs
    ensures j in Decide(s, i).state.jobs && s.jobs[j].fence <= Decide(s, i).state.jobs[j].fence
  {
  }

  lemma StepRaisesFences(s: State, step: Step, j: nat)
    requires Enabled(s, step) && j in s.jobs
    ensures j in Apply(s, step).jobs && s.jobs[j].fence <= Apply(s, step).jobs[j].fence
  {
    if step.DecideStep? {
      DecidingRaisesFences(s, step.input, j);
    }
  }

  lemma {:induction false} RunRaisesFences(s: State, steps: seq<Step>, last: State, j: nat)
    requires Reaches(s, steps, last) && j in s.jobs
    ensures j in last.jobs && s.jobs[j].fence <= last.jobs[j].fence
    decreases |steps|
  {
    if steps != [] {
      StepRaisesFences(s, steps[0], j);
      RunRaisesFences(Apply(s, steps[0]), steps[1..], last, j);
    }
  }

  /** A lease that was followed by another one, or taken back by a decision, never serves again, whatever happens later. */
  lemma OldLeasesNeverAct(s: State, steps: seq<Step>, last: State, j: nat, fence: nat, passed: bool, cleanup: nat)
    requires Reaches(s, steps, last) && j in s.jobs && fence < s.jobs[j].fence
    ensures !Enabled(last, Record(j, fence, passed, cleanup)) && !Enabled(last, Clean(j, fence)) && !Enabled(last, EndJob(j, fence, passed))
  {
    RunRaisesFences(s, steps, last, j);
  }

  /** Call, checkpoint and task take the same status; each version steps by one, and the first call of a task begins its record. */
  lemma CallsMoveTogether(s: State, e: nat, status: Status, r: Run)
    requires e in s.executions
    ensures var n, x := WithStatus(s, e, status, r), s.executions[e];
            && n == s.(executions := s.executions[e := Execution(status, x.streamVersion + 1, x.task)], runs := s.runs[e := r.(status := status)],
                       tasks := s.tasks[x.task := Task(status, if x.task in s.tasks then s.tasks[x.task].streamVersion + 1 else 1)])
  {
  }

  /** A call is enqueued, begun with a fresh checkpoint, and once its outcome is lost left to be reconciled with what is known of its runner. */
  lemma CallsBeginAndAreLost(s: State, e: nat, task: nat, stopped: bool)
    ensures Enabled(s, Enqueue(e, task)) ==> Apply(s, Enqueue(e, task)) == s.(executions := s.executions[e := Execution(Queued, 1, task)])
    ensures Enabled(s, Begin(e)) ==>
              Apply(s, Begin(e)).executions[e].status == Running && Apply(s, Begin(e)).runs == s.runs[e := Run(Running, 1, Started, false, None, None, None, false)]
    ensures Enabled(s, LoseOutcome(e, stopped)) ==>
              && Apply(s, LoseOutcome(e, stopped)).executions[e].status == NeedsReconciliation && Apply(s, LoseOutcome(e, stopped)).jobs == s.jobs
              && Apply(s, LoseOutcome(e, stopped)).runs ==
                   s.runs[e := s.runs[e].(status := NeedsReconciliation, invocation := Unknown, stopped := stopped, streamVersion := s.runs[e].streamVersion + 1)]
    ensures Enabled(s, ConfirmStop(e)) ==>
              Apply(s, ConfirmStop(e)) == s.(runs := s.runs[e := s.runs[e].(stopped := true, streamVersion := s.runs[e].streamVersion + 1)])
  {
  }

  /** A call with a known outcome is settled with it, and has a cleanup job of its own exactly when its runner has stopped. */
  lemma FinishedCallsAreSettled(s: State, e: nat, status: Status, stopped: bool, cleanup: nat)
    requires Enabled(s, Finish(e, status, stopped, cleanup))
    ensures var n, r := Apply(s, Finish(e, status, stopped, cleanup)), s.runs[e];
            && n.executions[e].status == status
            && n.runs == s.runs[e := r.(status := status, invocation := Settled, stopped := stopped, streamVersion := r.streamVersion + 1,
                                        cleanupJob := if stopped then Some(cleanup) else r.cleanupJob)]
            && n.jobs == (if stopped then s.jobs[cleanup := Job(CleanupJob, e, Available, 0)] else s.jobs)
            && n.settled == s.settled && n.replacements == s.replacements
  {
  }

  lemma StatusKeepsTasks(s: State, e: nat, status: Status, r: Run)
    requires TasksOk(s) && Newest(s, e) && status != Queued
    ensures TasksOk(WithStatus(s, e, status, r))
  {
    MovingTogetherKeepsTasks(s, WithStatus(s, e, status, r), e);
  }

  lemma FinishingKeepsTasks(s: State, e: nat, status: Status, stopped: bool, cleanup: nat)
    requires TasksOk(s) && Newest(s, e) && e in s.runs && status != Queued
    ensures TasksOk(FinishCall(s, e, status, stopped, cleanup))
  {
    var r := s.runs[e].(invocation := Settled, stopped := stopped, streamVersion := s.runs[e].streamVersion + 1);
    var run := if stopped then r.(cleanupJob := Some(cleanup)) else r;
    StatusKeepsTasks(s, e, status, run);
    SameCallsKeepTasks(WithStatus(s, e, status, run), FinishCall(s, e, status, stopped, cleanup));
  }

  lemma CallStepKeepsTasks(s: State, step: Step)
    requires Inv(s) && TasksOk(s) && Enabled(s, step) && (step.Begin? || step.Finish? || step.LoseOutcome?)
    ensures TasksOk(Apply(s, step))
  {
    assert step.execution in s.runs ==> RunOk(s, step.execution);
    LiveIsNewest(s, step.execution);
    match step
    case Begin(e) => StatusKeepsTasks(s, e, Running, Run(Running, 1, Started, false, None, None, None, false));
    case Finish(e, status, stopped, cleanup) => FinishingKeepsTasks(s, e, status, stopped, cleanup);
    case LoseOutcome(e, stopped) =>
      StatusKeepsTasks(s, e, NeedsReconciliation, s.runs[e].(invocation := Unknown, stopped := stopped, streamVersion := s.runs[e].streamVersion + 1));
  }

  lemma RecordingKeepsTasks(s: State, job: nat, passed: bool, cleanup: nat)
    requires Inv(s) && TasksOk(s) && job in s.jobs
    ensures TasksOk(Recorded(s, job, passed, cleanup))
  {
    if Recorded(s, job, passed, cleanup) != s {
      VerdictsMoveTheTask(s, job, passed, cleanup);
      LiveIsNewest(s, s.jobs[job].execution);
      MovingTogetherKeepsTasks(s, Recorded(s, job, passed, cleanup), s.jobs[job].execution);
    }
  }

  lemma StepKeepsTasks(s: State, step: Step)
    requires Inv(s) && TasksOk(s) && Enabled(s, step) && OwnTask(s, step)
    ensures TasksOk(Apply(s, step))
  {
    if step.Enqueue? {
      EnqueuingKeepsTasks(s, step.execution, step.task);
    } else if step.DecideStep? {
      DecidingKeepsTasks(s, step.input);
    } else if step.Record? {
      RecordingKeepsTasks(s, step.job, step.passed, step.cleanup);
    } else if step.Begin? || step.Finish? || step.LoseOutcome? {
      CallStepKeepsTasks(s, step);
    } else {
      SameCallsKeepTasks(s, Apply(s, step));
    }
  }

  lemma {:induction false} EveryRunKeepsTasks(s: State, steps: seq<Step>, last: State)
    requires Inv(s) && TasksOk(s) && Reaches(s, steps, last) && OwnTasks(s, steps)
    ensures TasksOk(last)
    decreases |steps|
  {
    if steps != [] {
      StepKeepsInv(s, steps[0]);
      StepKeepsTasks(s, steps[0]);
      EveryRunKeepsTasks(Apply(s, steps[0]), steps[1..], last);
    }
  }

  /**
   Over every run in which tasks are taken up once: a task has the status of its newest call, or runs while that call is
   queued; all calls of a task that were replaced lead to that one.
   */
  lemma TasksFollowTheirNewestCall(steps: seq<Step>, last: State, e: nat)
    requires Reaches(EMPTY, steps, last) && OwnTasks(EMPTY, steps) && Newest(last, e)
    ensures var x := last.executions[e];
            && (x.status != Queued ==> x.task in last.tasks && last.tasks[x.task].status == x.status)
            && (x.status == Queued && x.task in last.tasks ==> last.tasks[x.task].status == Running)
            && (forall o :: Newest(last, o) && last.executions[o].task == x.task ==> o == e)
    ensures forall k :: 0 <= k < |last.replacements| ==>
              && last.replacements[k].former in last.executions && last.replacements[k].next in last.executions
              && last.executions[last.replacements[k].former].task == last.executions[last.replacements[k].next].task
  {
    EveryRunKeepsTasks(EMPTY, steps, last);
  }
}
