/**
 The stored projections of one follow-up policy and the transactions that overwrite them in place. Every method is
 proved against the function of the same name in `Followup`, whose runs are studied in `FollowupSafety`.
 */
module FollowupStore {
  import opened Options
  import opened GoalModel
  import opened Followup

  /** Once a prefix of the runs cannot be added up, neither can all of them. */
  lemma {:induction false} FailureIsFinal(p: Policy, runs: seq<Run>, i: nat, start: Time)
    requires i <= |runs| && Detail(p, runs[..i], start).None?
    ensures Detail(p, runs, start).None?
  {
    if i == |runs| {
      assert runs[..i] == runs;
    } else {
      assert runs[..|runs| - 1][..i] == runs[..i];
      FailureIsFinal(p, runs[..|runs| - 1], i, start);
    }
  }

  lemma ObservationsGrow(runs: seq<Run>, i: nat, goals: map<nat, Goal>)
    requires i < |runs|
    ensures ObservationEvents(runs[..i + 1], goals)
         == ObservationEvents(runs[..i], goals) + (if Observed(runs[i], goals) == runs[i] then [] else [RunObserved(runs[i].key)])
  {
    assert runs[..i + 1][..i] == runs[..i];
  }

  lemma CancellationsGrow(runs: seq<Run>, i: nat)
    requires i < |runs|
    ensures CancellationEvents(runs[..i + 1])
         == CancellationEvents(runs[..i]) + (if CancellablePending(runs[i]) then [RunCancelledPending(runs[i].key)] else [])
  {
    assert runs[..i + 1][..i] == runs[..i];
  }

  class PolicyStore {
    var policy: Policy
    var runs: seq<Run>
    var cursor: Option<nat>
    var goals: map<nat, Goal>
    var receipts: map<string, Receipt>
    var events: seq<Event>

    function View(): State
      reads this
    {
      State(policy, runs, cursor, goals, receipts, events)
    }

    constructor (initial: State)
      ensures View() == initial
    {
      policy, runs, cursor, goals, receipts, events :=
        initial.policy, initial.runs, initial.cursor, initial.goals, initial.receipts, initial.events;
    }

    /** The current period's totals, accumulated run by run; `None` stands for FOLLOWUP_USAGE_INVALID. */
    method FollowupDetail(start: Time) returns (totals: Option<Totals>)
      ensures totals == Detail(policy, runs, start)
    {
      var zero := Zero(policy.periodLimit.currency);
      var t := Totals(0, zero, zero, zero);
      var i := 0;
      while i < |runs|
        invariant 0 <= i <= |runs|
        invariant Detail(policy, runs[..i], start) == Some(t)
      {
        assert runs[..i + 1][..i] == runs[..i];
        if runs[i].periodStart == start {
          var next := AddRun(policy.status, t, runs[i]);
          if next.None? {
            FailureIsFinal(policy, runs, i + 1, start);
            return None;
          }
          t := next.value;
        }
        i := i + 1;
      }
      assert runs[..i] == runs;
      totals := Some(t);
    }

    method Observe()
      modifies this
      ensures View() == ObserveAll(old(View()))
    {
      ghost var before := runs;
      ghost var log := events;
      var i := 0;
      assert log + [] == log;
      while i < |runs|
        invariant 0 <= i <= |runs| == |before|
        invariant policy == old(policy) && cursor == old(cursor) && goals == old(goals) && receipts == old(receipts)
        invariant forall j :: 0 <= j < i ==> runs[j] == Observed(before[j], goals)
        invariant forall j :: i <= j < |runs| ==> runs[j] == before[j]
        invariant events == log + ObservationEvents(before[..i], goals)
      {
        var run := runs[i];
        var next := Observed(run, goals);
        ObservationsGrow(before, i, goals);
        if next != run {
          runs := runs[i := next];
          events := events + [RunObserved(run.key)];
        }
        i := i + 1;
      }
      assert before[..i] == before;
      assert runs == ObservedRuns(before, goals);
    }

    method CancelPendingFollowups(code: string)
      modifies this
      ensures View() == CancelPending(old(View()), code)
    {
      ghost var before := runs;
      ghost var log := events;
      var i := 0;
      assert log + [] == log;
      while i < |runs|
        invariant 0 <= i <= |runs| == |before|
        invariant policy == old(policy) && cursor == old(cursor) && goals == old(goals) && receipts == old(receipts)
        invariant forall j :: 0 <= j < i ==> runs[j] == CancelledIfPending(before[j], code)
        invariant forall j :: i <= j < |runs| ==> runs[j] == before[j]
        invariant events == log + CancellationEvents(before[..i])
      {
        var run := runs[i];
        CancellationsGrow(before, i);
        if run.status.RunPending? && run.executionId.None? {
          runs := runs[i := run.(status := RunCancelled, actual := Some(Zero(run.reserved.currency)), reasonCode := code,
                                 streamVersion := run.streamVersion + 1)];
          events := events + [RunCancelledPending(run.key)];
        }
        i := i + 1;
      }
      assert before[..i] == before;
      assert runs == CancelledRuns(before, code);
    }

    method ChangeStatus(status: PolicyStatus)
      modifies this
      ensures View() == SetStatus(old(View()), status)
    {
      policy := policy.(status := status, streamVersion := policy.streamVersion + 1);
      events := events + [PolicyChanged(status)];
    }

    method InvalidateGrant(code: string)
      modifies this
      ensures View() == Invalidate(old(View()), code)
    {
      ChangeStatus(if code == EXPIRED then Expired else Invalidated);
      CancelPendingFollowups(code);
    }

    /** The claim transaction; on a thrown error every projection keeps its earlier value. */
    method ClaimRun(c: ClaimInput) returns (outcome: ClaimOutcome)
      requires policy.periodMs > 0
      modifies this
      ensures (View(), outcome) == Claim(old(View()), c)
    {
      var savedRuns, savedEvents := runs, events;
      Observe();
      if policy.status.Stopped? || policy.status.Invalidated? || policy.status.Expired? || policy.status.Exhausted? {
        return NoDispatch;
      }
      var error := AssertPolicy(policy, c.policyNow, c.authority, false);
      if error.Some? {
        InvalidateGrant(error.value);
        return NoDispatch;
      }
      if !policy.status.Active? {
        return NoDispatch;
      }
      var pending := FirstPending(runs);
      if pending.Some? {
        return Dispatch(pending.value);
      }
      if exists i :: 0 <= i < |runs| && Blocks(runs[i]) {
        return NoDispatch;
      }
      if |runs| >= policy.maxRuns {
        ChangeStatus(Exhausted);
        return NoDispatch;
      }
      if c.source.None? || cursor.None? {
        runs, events := savedRuns, savedEvents;
        return Threw(if c.source.None? then "BUSINESS_CONTEXT_NOT_FOUND" else "FOLLOWUP_CURSOR_MISSING");
      }
      if cursor.value == c.source.value.content {
        return NoDispatch;
      }
      var period := FollowupDetail(PeriodStart(policy, c.detailNow));
      if period.None? {
        runs, events := savedRuns, savedEvents;
        return Threw("FOLLOWUP_USAGE_INVALID");
      }
      if !PeriodHasRoom(policy, period.value) || HasRun(View(), c.source.value) {
        return NoDispatch;
      }
      goals := goals[c.goalId := NewGoal(c.goalId, policy.cap)];
      runs := runs + [NewRun(policy, c.source.value, c.goalId, c.periodNow)];
      events := events + [RunReserved(c.source.value)];
      cursor := Some(c.source.value.content);
      outcome := Dispatch(c.source.value);
    }

    method StartRun(d: StartInput) returns (error: Option<string>)
      modifies this
      ensures Start(old(View()), d).Ok? ==> error.None? && View() == Start(old(View()), d).value
      ensures Start(old(View()), d).Err? ==> error == Some(Start(old(View()), d).code) && View() == old(View())
    {
      var found := IndexOf(runs, d.key);
      if found.None? || runs[found.value].goalId !in goals {
        return Some("FOLLOWUP_GOAL_MISSING");
      }
      var run := runs[found.value];
      var goal := goals[run.goalId];
      if Final(goal.status) {
        return Some("GOAL_CLOSED");
      }
      if !goal.status.AwaitingAuthorization? || goal.executionRef.Some? {
        return Some("GOAL_PLAN_IN_PROGRESS");
      }
      if !d.goalReady {
        return Some("GOAL_THREAD_BUSY");
      }
      error := AssertPolicy(policy, d.now, d.authority, false);
      if error.Some? {
        return;
      }
      if !run.status.RunPending? {
        return Some("FOLLOWUP_DISPATCH_REQUIRED");
      }
      error := AssertPolicy(policy, d.now, d.authority, true);
      if error.Some? {
        return;
      }
      goals := goals[run.goalId := Saved(goal, StartedGoal(goal, d.execution))];
      runs := runs[found.value := run.(status := RunRunning, executionId := Some(d.execution), streamVersion := run.streamVersion + 1)];
      events := events + [RunStarted(d.key)];
    }

    method CommandFollowup(c: CommandInput) returns (error: Option<string>)
      modifies this
      ensures CommandPolicy(old(View()), c).Ok? ==> error.None? && View() == CommandPolicy(old(View()), c).value
      ensures CommandPolicy(old(View()), c).Err? ==> error == Some(CommandPolicy(old(View()), c).code) && View() == old(View())
    {
      if c.idempotencyKey in receipts {
        return if receipts[c.idempotencyKey] != c.request then Some("IDEMPOTENCY_KEY_REUSED") else None;
      }
      if policy.streamVersion != c.request.expectedVersion {
        return Some("STREAM_VERSION_CONFLICT");
      }
      if !CommandAllowed(policy.status, c.request.command) {
        return Some("FOLLOWUP_COMMAND_INVALID");
      }
      if c.request.command.Resume? {
        error := AssertPolicy(policy, c.now, c.authority, false);
        if error.Some? {
          return;
        }
      }
      ChangeStatus(StatusAfterCommand(c.request.command));
      if c.request.command.Stop? {
        CancelPendingFollowups(STOPPED);
      }
      receipts := receipts[c.idempotencyKey := c.request];
      error := None;
    }

    method Recover(code: Option<string>)
      modifies this
      ensures View() == RecoverError(old(View()), code)
    {
      if code.None? || code.value == "STREAM_VERSION_CONFLICT" || code.value == "FOLLOWUP_RUN_CHANGED" || code.value == STOPPED {
        return;
      }
      Observe();
      if policy.status.Active? || policy.status.PausedPolicy? {
        InvalidateGrant(code.value);
      }
      CancelPendingFollowups(code.value);
    }
  }

  // ---------------------------------------------------------------- round-robin recovery

  const BATCH := 20

  /** The process-local position from which a tenant's next recovery round starts. */
  class RecoveryCursor {
    var position: nat

    constructor ()
      ensures position == 0
    {
      position := 0;
    }

    /** One recovery round over `n` policies: the indices it visits, in order. */
    method Round(n: nat) returns (visited: seq<nat>)
      modifies this
      ensures n == 0 ==> visited == [] && position == old(position)
      ensures n > 0 ==> visited == Visits(old(position) % n, if n < BATCH then n else BATCH, n)
      ensures n > 0 ==> position == (old(position) + |visited|) % n
    {
      visited := [];
      if n == 0 {
        return;
      }
      var start := position % n;
      var count := if n < BATCH then n else BATCH;
      position := (start + count) % n;
      var offset := 0;
      while offset < count
        invariant 0 <= offset <= count && visited == Visits(start, offset, n)
      {
        visited := visited + [(start + offset) % n];
        offset := offset + 1;
      }
      ModAdds(old(position), count, n);
    }
  }

  /** `count` consecutive indices modulo `n`, from `start`. */
  function Visits(start: nat, count: nat, n: nat): (v: seq<nat>)
    requires n > 0
    ensures |v| == count
  {
    if count == 0 then [] else Visits(start, count - 1, n) + [(start + count - 1) % n]
  }

  lemma ModUnique(y: nat, q: int, r: nat, n: nat)
    requires n > 0 && r < n && y == q * n + r
    ensures y % n == r
  {
    var d := q - y / n;
    assert d * n == y % n - r by {
      assert y == (y / n) * n + y % n;
      assert d * n == q * n - (y / n) * n;
    }
    AwayFromZero(d, n);
  }

  lemma AwayFromZero(d: int, n: nat)
    ensures d >= 1 ==> d * n >= n
    ensures d <= -1 ==> d * n + n <= 0
  {
  }

  lemma ModAdds(a: nat, b: nat, n: nat)
    requires n > 0
    ensures (a % n + b) % n == (a + b) % n
  {
    var x := a % n + b;
    assert a + b == (a / n) * n + x;
    assert x == (x / n) * n + x % n;
    assert a + b == (a / n + x / n) * n + x % n by {
      assert (a / n + x / n) * n == (a / n) * n + (x / n) * n;
    }
    ModUnique(a + b, a / n + x / n, x % n, n);
  }

  /** Over any rounds that together visit at least `n` places, no policy of a stable list of `n` is left out. */
  lemma {:induction false} EveryPolicyIsVisited(start: nat, count: nat, n: nat, policy: nat)
    requires policy < n <= count
    ensures policy in Visits(start, count, n)
  {
    var first := start % n;
    var offset := if policy >= first then policy - first else policy + n - first;
    ModAdds(start, offset, n);
    ModUnique(first + offset, if policy >= first then 0 else 1, policy, n);
    VisitAt(start, count, n, offset);
  }

  lemma {:induction false} VisitAt(start: nat, count: nat, n: nat, k: nat)
    requires n > 0 && k < count
    ensures Visits(start, count, n)[k] == (start + k) % n
  {
    if k < count - 1 {
      VisitAt(start, count - 1, n, k);
    }
  }

  /** Consecutive rounds continue where the previous one stopped: together they are one longer round. */
  lemma {:induction false} RoundsJoin(start: nat, a: nat, b: nat, n: nat)
    requires n > 0
    ensures Visits(start, a, n) + Visits((start + a) % n, b, n) == Visits(start, a + b, n)
  {
    if b == 0 {
      assert Visits(start, a, n) + [] == Visits(start, a, n);
    } else {
      RoundsJoin(start, a, b - 1, n);
      ModAdds(start + a, b - 1, n);
      assert Visits(start, a, n) + Visits((start + a) % n, b, n)
          == (Visits(start, a, n) + Visits((start + a) % n, b - 1, n)) + [((start + a) % n + b - 1) % n];
    }
  }
}
