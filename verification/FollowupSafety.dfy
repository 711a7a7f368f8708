/**
 Safety of the follow-up scheduler over every interleaving of claims, dispatches, commands, recoveries and changes
 made to its goals by other services: the period budget, exclusion of runs, and the order of its events.
 */
module FollowupSafety {
  import opened Options
  import opened GoalModel
  import opened Followup

  // ---------------------------------------------------------------- accounting

  /** Tokens and cost are bounded separately; the proofs treat them alike. */
  datatype Dimension = Tokens | Cost

  function Amount(u: Usage, d: Dimension): nat {
    match d
    case Tokens => u.tokens
    case Cost => u.cost
  }

  function Used(r: Run, d: Dimension): nat {
    if r.actual.Some? then Amount(r.actual.value, d) else 0
  }

  /** What a run may cost its period at most, overruns aside. */
  function Base(r: Run, d: Dimension): nat {
    if Finished(r) && Used(r, d) < Amount(r.reserved, d) then Used(r, d) else Amount(r.reserved, d)
  }

  function Overrun(r: Run, d: Dimension): nat { Minus(Used(r, d), Amount(r.reserved, d)) }

  /** What the totals of a period add for one run. */
  function Charge(status: PolicyStatus, r: Run, d: Dimension): nat {
    Used(r, d) + (if Held(status, r) then Amount(Remaining(r), d) else 0)
  }

  function BaseSum(runs: seq<Run>, start: Time, d: Dimension): nat {
    if runs == [] then 0
    else
      var last := runs[|runs| - 1];
      BaseSum(runs[..|runs| - 1], start, d) + (if last.periodStart == start then Base(last, d) else 0)
  }

  function OverrunSum(runs: seq<Run>, start: Time, d: Dimension): nat {
    if runs == [] then 0
    else
      var last := runs[|runs| - 1];
      OverrunSum(runs[..|runs| - 1], start, d) + (if last.periodStart == start then Overrun(last, d) else 0)
  }

  function ChargeSum(status: PolicyStatus, runs: seq<Run>, start: Time, d: Dimension): nat {
    if runs == [] then 0
    else
      var last := runs[|runs| - 1];
      ChargeSum(status, runs[..|runs| - 1], start, d) + (if last.periodStart == start then Charge(status, last, d) else 0)
  }

  function Count(runs: seq<Run>, start: Time): nat {
    if runs == [] then 0
    else Count(runs[..|runs| - 1], start) + (if runs[|runs| - 1].periodStart == start then 1 else 0)
  }

  function Spent(t: Totals, d: Dimension): nat {
    Amount(t.settled, d) + Amount(t.reserved, d) + Amount(t.unknown, d)
  }

  /** The reported totals are exactly the sum of the runs' charges, and the count is the number of runs. */
  lemma {:induction false} DetailAddsCharges(p: Policy, runs: seq<Run>, start: Time, d: Dimension)
    requires Detail(p, runs, start).Some?
    ensures Spent(Detail(p, runs, start).value, d) == ChargeSum(p.status, runs, start, d)
    ensures Detail(p, runs, start).value.runCount == Count(runs, start)
  {
    if runs != [] {
      DetailAddsCharges(p, runs[..|runs| - 1], start, d);
    }
  }

  lemma ChargeIsBasePlusOverrun(status: PolicyStatus, r: Run, d: Dimension)
    ensures Charge(status, r, d) <= Base(r, d) + Overrun(r, d)
    ensures !Closed(status) ==> Charge(status, r, d) == Base(r, d) + Overrun(r, d)
  {
  }

  /** A period is never charged more than its base plus the overruns; while the grant is open it is exactly that. */
  lemma {:induction false} ChargesAreBasePlusOverruns(status: PolicyStatus, runs: seq<Run>, start: Time, d: Dimension)
    ensures ChargeSum(status, runs, start, d) <= BaseSum(runs, start, d) + OverrunSum(runs, start, d)
    ensures !Closed(status) ==> ChargeSum(status, runs, start, d) == BaseSum(runs, start, d) + OverrunSum(runs, start, d)
  {
    if runs != [] {
      ChargeIsBasePlusOverrun(status, runs[|runs| - 1], d);
      ChargesAreBasePlusOverruns(status, runs[..|runs| - 1], start, d);
    }
  }

  // ---------------------------------------------------------------- invariant of one run

  /** A run that is closed in the books will be observed the same way for ever, because its goal is final. */
  predicate Stable(r: Run, g: Goal) {
    Final(g.status) && Dispatched(g) && ObservedStatus(r, g) == r.status && ObservedActual(r, g) == r.actual
  }

  predicate RunOk(r: Run, cap: Usage, goals: map<nat, Goal>) {
    && r.goalId in goals
    && r.reserved == cap == goals[r.goalId].budget
    && (r.executionId.None? <==> !Dispatched(goals[r.goalId]))
    && (r.executionId.None? ==>
          && goals[r.goalId].reservation.None?
          && ((r.status.RunPending? && r.actual.None?) || (r.status.RunCancelled? && r.actual == Some(Zero(cap.currency)))))
    && (r.status.RunPending? ==> r.executionId.None?)
    && (r.executionId.Some? && Finished(r) ==> Stable(r, goals[r.goalId]))
  }

  lemma ObservingKeepsRun(r: Run, cap: Usage, goals: map<nat, Goal>, d: Dimension)
    requires RunOk(r, cap, goals)
    ensures RunOk(Observed(r, goals), cap, goals)
    ensures Base(Observed(r, goals), d) <= Base(r, d)
    ensures r.executionId.None? ==> Observed(r, goals).status == r.status
    ensures Observed(r, goals).executionId.None? <==> r.executionId.None?
    ensures Observed(r, goals).key == r.key && Observed(r, goals).goalId == r.goalId && Observed(r, goals).periodStart == r.periodStart
  {
  }

  /** No observation lowers the usage recorded for a run. */
  lemma ObservingKeepsUsage(r: Run, goals: map<nat, Goal>)
    ensures UsageKept(r, Observed(r, goals))
  {
  }

  /** The later record reports no less usage than the earlier one. */
  predicate UsageKept(r: Run, later: Run) {
    r.actual.Some? ==> later.actual.Some? && !Falls(later.actual.value, r.actual.value)
  }

  lemma GoalChangeKeepsRun(r: Run, cap: Usage, goals: map<nat, Goal>, id: nat, g: Goal)
    requires RunOk(r, cap, goals)
    requires id in goals && Evolves(goals[id], g)
    ensures RunOk(r, cap, goals[id := g])
  {
  }

  // ---------------------------------------------------------------- order of events

  function StatusAfter(log: seq<Event>): PolicyStatus {
    if log == [] then Stopped
    else
      match log[|log| - 1]
      case PolicyChanged(status) => status
      case _ => StatusAfter(log[..|log| - 1])
  }

  /** What must already have happened, and not happened, when an event is appended. */
  predicate MayFollow(log: seq<Event>, e: Event) {
    match e
    case RunReserved(k) => StatusAfter(log).Active? && RunReserved(k) !in log
    case RunStarted(k) => StatusAfter(log).Active? && RunReserved(k) in log && RunStarted(k) !in log && RunCancelledPending(k) !in log
    case RunCancelledPending(k) => RunReserved(k) in log && RunStarted(k) !in log && RunCancelledPending(k) !in log
    case RunObserved(k) => RunReserved(k) in log
    case PolicyChanged(_) => true
  }

  predicate Ordered(log: seq<Event>) {
    log == [] || (Ordered(log[..|log| - 1]) && MayFollow(log[..|log| - 1], log[|log| - 1]))
  }

  lemma {:induction false} OrderedAt(log: seq<Event>, i: nat)
    requires Ordered(log) && i < |log|
    ensures MayFollow(log[..i], log[i])
  {
    if i < |log| - 1 {
      OrderedAt(log[..|log| - 1], i);
      assert log[..|log| - 1][..i] == log[..i];
    }
  }

  lemma OrderedPlus(log: seq<Event>, e: Event)
    requires Ordered(log) && MayFollow(log, e)
    ensures Ordered(log + [e])
    ensures StatusAfter(log + [e]) == if e.PolicyChanged? then e.status else StatusAfter(log)
  {
    assert (log + [e])[..|log|] == log;
  }

  predicate LogMatchesRun(r: Run, log: seq<Event>) {
    && RunReserved(r.key) in log
    && (RunStarted(r.key) in log <==> r.executionId.Some?)
    && (RunCancelledPending(r.key) in log <==> r.status.RunCancelled? && r.executionId.None?)
  }

  ghost predicate LogOk(s: State) {
    && StatusAfter(s.events) == s.policy.status
    && Ordered(s.events)
    && (forall i :: 0 <= i < |s.runs| ==> LogMatchesRun(s.runs[i], s.events))
    && (forall k :: RunReserved(k) in s.events ==> HasRun(s, k))
  }

  lemma {:induction false} ObservationsAreOrdered(log: seq<Event>, runs: seq<Run>, goals: map<nat, Goal>)
    requires Ordered(log)
    requires forall i :: 0 <= i < |runs| ==> RunReserved(runs[i].key) in log
    ensures Ordered(log + ObservationEvents(runs, goals))
    ensures StatusAfter(log + ObservationEvents(runs, goals)) == StatusAfter(log)
    ensures forall e :: e in ObservationEvents(runs, goals) ==> e.RunObserved?
  {
    if runs == [] {
      assert log + [] == log;
    } else {
      var front, last := runs[..|runs| - 1], runs[|runs| - 1];
      ObservationsAreOrdered(log, front, goals);
      if Observed(last, goals) != last {
        OrderedPlus(log + ObservationEvents(front, goals), RunObserved(last.key));
        assert log + ObservationEvents(runs, goals) == (log + ObservationEvents(front, goals)) + [RunObserved(last.key)];
      } else {
        assert ObservationEvents(runs, goals) == ObservationEvents(front, goals);
      }
    }
  }

  /** Every cancellation event is that of a run that was pending. */
  lemma {:induction false} CancellationsNameRuns(runs: seq<Run>, e: Event)
    requires e in CancellationEvents(runs)
    ensures e.RunCancelledPending? && exists i :: 0 <= i < |runs| && runs[i].key == e.key && CancellablePending(runs[i])
  {
    if runs != [] {
      var front, last := runs[..|runs| - 1], runs[|runs| - 1];
      if e in CancellationEvents(front) {
        CancellationsNameRuns(front, e);
        var i :| 0 <= i < |front| && front[i].key == e.key && CancellablePending(front[i]);
        assert runs[i] == front[i];
      } else {
        assert last.key == e.key && CancellablePending(last);
      }
    }
  }

  lemma {:induction false} PendingRunsAreCancelled(runs: seq<Run>, i: nat)
    requires i < |runs| && CancellablePending(runs[i])
    ensures RunCancelledPending(runs[i].key) in CancellationEvents(runs)
  {
    if i < |runs| - 1 {
      PendingRunsAreCancelled(runs[..|runs| - 1], i);
    }
  }

  predicate DistinctKeys(runs: seq<Run>) {
    forall i, j :: 0 <= i < j < |runs| ==> runs[i].key != runs[j].key
  }

  /** With distinct keys, a cancellation event of a run means that this run was pending. */
  lemma CancelledMeansPending(runs: seq<Run>, i: nat)
    requires DistinctKeys(runs) && i < |runs| && RunCancelledPending(runs[i].key) in CancellationEvents(runs)
    ensures CancellablePending(runs[i])
  {
    CancellationsNameRuns(runs, RunCancelledPending(runs[i].key));
    var j :| 0 <= j < |runs| && runs[j].key == runs[i].key && CancellablePending(runs[j]);
    assert j == i;
  }

  /** Cancelling never starts or reserves a run, and cancels none whose key is not among the runs. */
  lemma CancellationsLeaveOut(runs: seq<Run>, k: RunKey)
    ensures RunStarted(k) !in CancellationEvents(runs) && RunReserved(k) !in CancellationEvents(runs)
    ensures (forall i :: 0 <= i < |runs| ==> runs[i].key != k) ==> RunCancelledPending(k) !in CancellationEvents(runs)
  {
    forall e | e in CancellationEvents(runs) ensures e.RunCancelledPending? && exists i :: 0 <= i < |runs| && runs[i].key == e.key {
      CancellationsNameRuns(runs, e);
    }
  }

  /** A pending run's cancellation may follow the earlier log and the cancellations of the runs before it. */
  lemma {:induction false} CancellationMayFollow(log: seq<Event>, front: seq<Run>, last: Run)
    requires LogMatchesRun(last, log) && CancellablePending(last)
    requires forall i :: 0 <= i < |front| ==> front[i].key != last.key
    ensures var before := log + CancellationEvents(front);
            RunReserved(last.key) in before && RunStarted(last.key) !in before && RunCancelledPending(last.key) !in before
  {
    CancellationsLeaveOut(front, last.key);
  }

  lemma {:induction false} CancellationsAreOrdered(log: seq<Event>, runs: seq<Run>)
    requires Ordered(log) && DistinctKeys(runs)
    requires forall i :: 0 <= i < |runs| ==> LogMatchesRun(runs[i], log)
    ensures Ordered(log + CancellationEvents(runs))
    ensures StatusAfter(log + CancellationEvents(runs)) == StatusAfter(log)
  {
    if runs == [] {
      assert log + [] == log;
    } else {
      var front, last := runs[..|runs| - 1], runs[|runs| - 1];
      CancellationsAreOrdered(log, front);
      if CancellablePending(last) {
        var before := log + CancellationEvents(front);
        CancellationMayFollow(log, front, last);
        OrderedPlus(before, RunCancelledPending(last.key));
        assert log + CancellationEvents(runs) == before + [RunCancelledPending(last.key)];
      } else {
        assert CancellationEvents(runs) == CancellationEvents(front);
      }
    }
  }

  // ---------------------------------------------------------------- invariant of the whole state

  predicate DefinitionOk(p: Policy) {
    && p.periodMs > 0 && p.maxRuns >= 1 && p.periodMaxRuns >= 1
    && p.cap.tokens <= p.periodLimit.tokens && p.cap.cost <= p.periodLimit.cost
  }

  predicate SinglePending(runs: seq<Run>) {
    forall i, j :: 0 <= i < |runs| && 0 <= j < |runs| && IsPending(runs[i]) && IsPending(runs[j]) ==> i == j
  }

  predicate DistinctGoals(runs: seq<Run>) {
    forall i, j :: 0 <= i < j < |runs| ==> runs[i].goalId != runs[j].goalId
  }

  predicate RunsOk(s: State) {
    && (forall i :: 0 <= i < |s.runs| ==> RunOk(s.runs[i], s.policy.cap, s.goals))
    && DistinctKeys(s.runs) && DistinctGoals(s.runs) && SinglePending(s.runs)
    && |s.runs| <= s.policy.maxRuns
  }

  /** The invariant that every step keeps, whatever the clocks show. */
  ghost predicate Inv(s: State) { DefinitionOk(s.policy) && RunsOk(s) && LogOk(s) }

  /** The recorded runs of a period stay within its limits. */
  predicate PeriodOk(p: Policy, runs: seq<Run>, start: Time) {
    && Count(runs, start) <= p.periodMaxRuns
    && BaseSum(runs, start, Tokens) <= p.periodLimit.tokens
    && BaseSum(runs, start, Cost) <= p.periodLimit.cost
  }

  ghost predicate PeriodsOk(p: Policy, runs: seq<Run>) { forall start :: PeriodOk(p, runs, start) }

  // ---------------------------------------------------------------- what a step may do to the recorded runs

  /** The same run later: its period and reservation are fixed, its base does not grow and its usage does not fall. */
  predicate RunLater(r: Run, n: Run) {
    && n.key == r.key && n.goalId == r.goalId && n.periodStart == r.periodStart && n.reserved == r.reserved
    && Base(n, Tokens) <= Base(r, Tokens) && Base(n, Cost) <= Base(r, Cost)
    && UsageKept(r, n)
    && (IsPending(n) ==> IsPending(r))
  }

  predicate RunsLater(runs: seq<Run>, next: seq<Run>) {
    |next| == |runs| && forall i :: 0 <= i < |runs| ==> RunLater(runs[i], next[i])
  }

  lemma LaterTwice(a: seq<Run>, b: seq<Run>, c: seq<Run>)
    requires RunsLater(a, b) && RunsLater(b, c)
    ensures RunsLater(a, c)
  {
    forall i | 0 <= i < |a| ensures RunLater(a[i], c[i]) {
      assert RunLater(a[i], b[i]) && RunLater(b[i], c[i]);
    }
  }

  lemma {:induction false} SmallerBases(runs: seq<Run>, next: seq<Run>, start: Time, d: Dimension)
    requires RunsLater(runs, next)
    ensures BaseSum(next, start, d) <= BaseSum(runs, start, d)
    ensures Count(next, start) == Count(runs, start)
  {
    if runs != [] {
      assert RunLater(runs[|runs| - 1], next[|next| - 1]);
      SmallerBases(runs[..|runs| - 1], next[..|next| - 1], start, d);
    }
  }

  lemma KeysStay(s: State, next: State)
    requires RunsLater(s.runs, next.runs)
    ensures DistinctKeys(s.runs) ==> DistinctKeys(next.runs)
    ensures DistinctGoals(s.runs) ==> DistinctGoals(next.runs)
    ensures SinglePending(s.runs) ==> SinglePending(next.runs)
  {
    assert forall i :: 0 <= i < |s.runs| ==> RunLater(s.runs[i], next.runs[i]);
  }

  lemma HasRunStays(s: State, next: State, k: RunKey)
    requires RunsLater(s.runs, next.runs) && HasRun(s, k)
    ensures HasRun(next, k)
  {
    var i :| 0 <= i < |s.runs| && s.runs[i].key == k;
    assert RunLater(s.runs[i], next.runs[i]);
  }

  /** The accepted definition never changes; only the status and the version do. */
  predicate SameDefinition(p: Policy, q: Policy) { q == p.(status := q.status, streamVersion := q.streamVersion) }

  // ---------------------------------------------------------------- observing and cancelling

  lemma ObservingIsLater(s: State)
    requires RunsOk(s)
    ensures RunsLater(s.runs, ObserveAll(s).runs)
    ensures RunsOk(ObserveAll(s))
  {
    var o := ObserveAll(s);
    forall i | 0 <= i < |s.runs| ensures RunLater(s.runs[i], o.runs[i]) && RunOk(o.runs[i], s.policy.cap, s.goals) {
      ObservingKeepsRun(s.runs[i], s.policy.cap, s.goals, Tokens);
      ObservingKeepsRun(s.runs[i], s.policy.cap, s.goals, Cost);
      ObservingKeepsUsage(s.runs[i], s.goals);
    }
    KeysStay(s, o);
  }

  lemma ObservingKeepsLog(s: State)
    requires RunsOk(s) && LogOk(s)
    ensures LogOk(ObserveAll(s))
  {
    var o := ObserveAll(s);
    ObservationsAreOrdered(s.events, s.runs, s.goals);
    ObservingIsLater(s);
    forall i | 0 <= i < |o.runs| ensures LogMatchesRun(o.runs[i], o.events) {
      ObservingKeepsRun(s.runs[i], s.policy.cap, s.goals, Tokens);
      assert LogMatchesRun(s.runs[i], s.events);
    }
    forall k | RunReserved(k) in o.events ensures HasRun(o, k) {
      HasRunStays(s, o, k);
    }
  }

  lemma ObservingKeepsInv(s: State)
    requires Inv(s)
    ensures Inv(ObserveAll(s)) && RunsLater(s.runs, ObserveAll(s).runs)
  {
    ObservingIsLater(s);
    ObservingKeepsLog(s);
  }

  lemma CancellingIsLater(s: State, code: string)
    requires RunsOk(s)
    ensures RunsLater(s.runs, CancelPending(s, code).runs) && RunsOk(CancelPending(s, code))
    ensures forall i :: 0 <= i < |s.runs| ==> !IsPending(CancelPending(s, code).runs[i])
  {
    var c := CancelPending(s, code);
    forall i | 0 <= i < |s.runs|
      ensures RunLater(s.runs[i], c.runs[i]) && RunOk(c.runs[i], s.policy.cap, s.goals) && !IsPending(c.runs[i])
    {
      assert RunOk(s.runs[i], s.policy.cap, s.goals);
    }
    KeysStay(s, c);
  }

  lemma CancelledRunMatches(s: State, i: nat, code: string)
    requires RunsOk(s) && LogOk(s) && i < |s.runs|
    ensures LogMatchesRun(CancelledIfPending(s.runs[i], code), CancelPending(s, code).events)
  {
    var r, events := s.runs[i], CancellationEvents(s.runs);
    assert LogMatchesRun(r, s.events) && RunOk(r, s.policy.cap, s.goals);
    CancellationsLeaveOut(s.runs, r.key);
    if RunCancelledPending(r.key) in events {
      CancelledMeansPending(s.runs, i);
    }
    if CancellablePending(r) {
      PendingRunsAreCancelled(s.runs, i);
    }
  }

  lemma CancellingKeepsLog(s: State, code: string)
    requires RunsOk(s) && LogOk(s)
    ensures LogOk(CancelPending(s, code))
  {
    var c := CancelPending(s, code);
    CancellationsAreOrdered(s.events, s.runs);
    CancellingIsLater(s, code);
    forall i | 0 <= i < |c.runs| ensures LogMatchesRun(c.runs[i], c.events) {
      CancelledRunMatches(s, i, code);
    }
    forall k | RunReserved(k) in c.events ensures HasRun(c, k) {
      CancellationsLeaveOut(s.runs, k);
      HasRunStays(s, c, k);
    }
  }

  lemma CancellingKeepsInv(s: State, code: string)
    requires Inv(s)
    ensures Inv(CancelPending(s, code)) && RunsLater(s.runs, CancelPending(s, code).runs)
  {
    CancellingIsLater(s, code);
    CancellingKeepsLog(s, code);
  }

  lemma StatusEventMatches(r: Run, log: seq<Event>, status: PolicyStatus)
    requires LogMatchesRun(r, log)
    ensures LogMatchesRun(r, log + [PolicyChanged(status)])
  {
  }

  lemma StatusChangeKeepsInv(s: State, status: PolicyStatus)
    requires Inv(s)
    ensures Inv(SetStatus(s, status)) && RunsLater(s.runs, SetStatus(s, status).runs)
  {
    var n := SetStatus(s, status);
    OrderedPlus(s.events, PolicyChanged(status));
    forall i | 0 <= i < |n.runs| ensures LogMatchesRun(n.runs[i], n.events) {
      StatusEventMatches(s.runs[i], s.events, status);
    }
    forall k | RunReserved(k) in n.events ensures HasRun(n, k) {
      HasRunStays(s, n, k);
    }
  }

  lemma InvalidatingKeepsInv(s: State, code: string)
    requires Inv(s)
    ensures Inv(Invalidate(s, code)) && RunsLater(s.runs, Invalidate(s, code).runs)
  {
    var status := if code == EXPIRED then Expired else Invalidated;
    StatusChangeKeepsInv(s, status);
    CancellingKeepsInv(SetStatus(s, status), code);
  }

  // ---------------------------------------------------------------- reserving

  /** The guard under which a claim reserves a new run. */
  ghost predicate MayReserve(s: State, c: ClaimInput)
    requires s.policy.periodMs > 0
  {
    && s.policy.status.Active? && c.source.Some?
    && FirstPending(s.runs).None?
    && !(exists i :: 0 <= i < |s.runs| && Blocks(s.runs[i]))
    && |s.runs| < s.policy.maxRuns
    && s.cursor.Some? && s.cursor.value != c.source.value.content
    && !HasRun(s, c.source.value)
    && var t := Detail(s.policy, s.runs, PeriodStart(s.policy, c.detailNow));
       t.Some? && PeriodHasRoom(s.policy, t.value)
  }

  lemma ReservingKeepsRuns(s: State, c: ClaimInput)
    requires RunsOk(s) && DefinitionOk(s.policy) && MayReserve(s, c) && c.goalId !in s.goals
    ensures RunsOk(Reserve(s, c.source.value, c.goalId, c.periodNow))
  {
    var n := Reserve(s, c.source.value, c.goalId, c.periodNow);
    forall i | 0 <= i < |n.runs| ensures RunOk(n.runs[i], s.policy.cap, n.goals) {
      if i < |s.runs| {
        assert RunOk(s.runs[i], s.policy.cap, s.goals);
      }
    }
    assert forall i :: 0 <= i < |s.runs| ==> s.runs[i].goalId in s.goals;
  }

  lemma {:induction false} NeverReserved(log: seq<Event>, k: RunKey)
    requires Ordered(log) && RunReserved(k) !in log
    ensures RunStarted(k) !in log && RunCancelledPending(k) !in log
  {
    if log != [] {
      NeverReserved(log[..|log| - 1], k);
    }
  }

  lemma ReservingKeepsLog(s: State, c: ClaimInput)
    requires LogOk(s) && s.policy.periodMs > 0 && MayReserve(s, c)
    ensures LogOk(Reserve(s, c.source.value, c.goalId, c.periodNow))
  {
    var k := c.source.value;
    var n := Reserve(s, k, c.goalId, c.periodNow);
    OrderedPlus(s.events, RunReserved(k));
    NeverReserved(s.events, k);
    forall i | 0 <= i < |n.runs| ensures LogMatchesRun(n.runs[i], n.events) {
      if i < |s.runs| {
        assert LogMatchesRun(s.runs[i], s.events);
      }
    }
    forall j | RunReserved(j) in n.events ensures HasRun(n, j) {
      if j == k {
        assert n.runs[|s.runs|].key == k;
      } else {
        assert HasRun(s, j);
        var i :| 0 <= i < |s.runs| && s.runs[i].key == j;
        assert n.runs[i].key == j;
      }
    }
  }

  lemma RoomLeaves(s: State, start: Time, d: Dimension)
    requires s.policy.status.Active?
    requires Detail(s.policy, s.runs, start).Some? && PeriodHasRoom(s.policy, Detail(s.policy, s.runs, start).value)
    ensures BaseSum(s.runs, start, d) + Amount(s.policy.cap, d) <= Amount(s.policy.periodLimit, d)
    ensures Count(s.runs, start) < s.policy.periodMaxRuns
  {
    DetailAddsCharges(s.policy, s.runs, start, d);
    ChargesAreBasePlusOverruns(s.policy.status, s.runs, start, d);
  }

  // ---------------------------------------------------------------- starting, goals

  lemma StartingKeepsLog(s: State, d: StartInput)
    requires RunsOk(s) && LogOk(s) && Start(s, d).Ok?
    ensures LogOk(Start(s, d).value)
  {
    var n := Start(s, d).value;
    var at := IndexOf(s.runs, d.key).value;
    assert RunOk(s.runs[at], s.policy.cap, s.goals);
    assert LogMatchesRun(s.runs[at], s.events);
    OrderedPlus(s.events, RunStarted(d.key));
    StartingKeepsRuns(s, d);
    forall i | 0 <= i < |n.runs| ensures LogMatchesRun(n.runs[i], n.events) {
      assert LogMatchesRun(s.runs[i], s.events);
    }
    forall k | RunReserved(k) in n.events ensures HasRun(n, k) {
      HasRunStays(s, n, k);
    }
  }

  lemma StartingKeepsRuns(s: State, d: StartInput)
    requires RunsOk(s) && Start(s, d).Ok?
    ensures RunsOk(Start(s, d).value) && RunsLater(s.runs, Start(s, d).value.runs)
  {
    var n := Start(s, d).value;
    forall i | 0 <= i < |n.runs| ensures RunOk(n.runs[i], s.policy.cap, n.goals) && RunLater(s.runs[i], n.runs[i]) {
      assert RunOk(s.runs[i], s.policy.cap, s.goals);
    }
    KeysStay(s, n);
  }

  lemma GoalChangeKeepsInv(s: State, id: nat, g: Goal)
    requires Inv(s) && id in s.goals && Evolves(s.goals[id], g)
    ensures Inv(ChangeGoal(s, id, g))
  {
    var n := ChangeGoal(s, id, g);
    forall i | 0 <= i < |s.runs| ensures RunOk(n.runs[i], n.policy.cap, n.goals) && LogMatchesRun(n.runs[i], n.events) {
      GoalChangeKeepsRun(s.runs[i], s.policy.cap, s.goals, id, g);
      assert LogMatchesRun(s.runs[i], s.events);
    }
    forall k | RunReserved(k) in n.events ensures HasRun(n, k) {
      HasRunStays(s, n, k);
    }
  }

  // ---------------------------------------------------------------- steps

  /** Every transaction of any worker, user or goal service, with arbitrary arguments. */
  datatype Step =
    | ClaimStep(claim: ClaimInput)
    | StartStep(start: StartInput)
    | CommandStep(command: CommandInput)
    | RecoverStep(code: Option<string>)
    | GoalStep(id: nat, goal: Goal)

  function Apply(s: State, step: Step): (next: State)
    requires s.policy.periodMs > 0
    ensures next.policy.periodMs > 0
  {
    match step
    case ClaimStep(c) => Claim(s, c).0
    case StartStep(d) => if Start(s, d).Ok? then Start(s, d).value else s
    case CommandStep(c) => if CommandPolicy(s, c).Ok? then CommandPolicy(s, c).value else s
    case RecoverStep(code) => RecoverError(s, code)
    case GoalStep(id, g) => ChangeGoal(s, id, g)
  }

  /** What the surroundings guarantee: goal ids are fresh and closed goals are final. Clocks may show anything. */
  predicate Enabled(s: State, step: Step) {
    match step
    case ClaimStep(c) => c.goalId !in s.goals
    case GoalStep(id, g) => id in s.goals && Evolves(s.goals[id], g)
    case _ => true
  }

  /** What a step leaves in place: no new run, the cursor and the definition, every run no cheaper than before. */
  predicate NothingNew(s: State, n: State) {
    RunsLater(s.runs, n.runs) && n.cursor == s.cursor && SameDefinition(s.policy, n.policy)
  }

  /** The claim adds one run after observing the others. */
  ghost predicate Reserves(s: State, c: ClaimInput, n: State)
    requires s.policy.periodMs > 0
  {
    MayReserve(ObserveAll(s), c) && n == Reserve(ObserveAll(s), c.source.value, c.goalId, c.periodNow)
  }

  /** What a claim stores: nothing, the observed runs, an end of the grant, the exhausted policy, or a new run. */
  lemma ClaimCases(s: State, c: ClaimInput, code: string)
    requires s.policy.periodMs > 0 && (AssertPolicy(s.policy, c.policyNow, c.authority, false).Some? ==>
                                         code == AssertPolicy(s.policy, c.policyNow, c.authority, false).value)
    ensures var n, o := Claim(s, c).0, ObserveAll(s);
            n == s || n == o || n == Invalidate(o, code) || n == SetStatus(o, Exhausted) || Reserves(s, c, n)
  {
  }

  lemma ReservingKeepsInv(s: State, c: ClaimInput)
    requires Inv(s) && c.goalId !in s.goals && MayReserve(s, c)
    ensures Inv(Reserve(s, c.source.value, c.goalId, c.periodNow))
  {
    ReservingKeepsRuns(s, c);
    ReservingKeepsLog(s, c);
  }

  lemma ClaimKeepsInv(s: State, c: ClaimInput)
    requires Inv(s) && c.goalId !in s.goals
    ensures Inv(Claim(s, c).0)
    ensures NothingNew(s, Claim(s, c).0) || Reserves(s, c, Claim(s, c).0)
  {
    var n, o := Claim(s, c).0, ObserveAll(s);
    var error := AssertPolicy(s.policy, c.policyNow, c.authority, false);
    var code := if error.Some? then error.value else STOPPED;
    ClaimCases(s, c, code);
    ObservingKeepsInv(s);
    if Reserves(s, c, n) {
      ReservingKeepsInv(o, c);
    } else {
      RunsStay(s.runs);
      InvalidatingKeepsInv(o, code);
      LaterTwice(s.runs, o.runs, Invalidate(o, code).runs);
      StatusChangeKeepsInv(o, Exhausted);
    }
  }

  lemma RunsStay(runs: seq<Run>)
    ensures RunsLater(runs, runs)
  {
  }

  lemma CommandKeepsInv(s: State, c: CommandInput)
    requires Inv(s) && CommandPolicy(s, c).Ok?
    ensures Inv(CommandPolicy(s, c).value) && NothingNew(s, CommandPolicy(s, c).value)
  {
    RunsStay(s.runs);
    if c.idempotencyKey !in s.receipts {
      var changed := SetStatus(s, StatusAfterCommand(c.request.command));
      StatusChangeKeepsInv(s, StatusAfterCommand(c.request.command));
      CancellingKeepsInv(changed, STOPPED);
      ReceiptsKeepInv(if c.request.command.Stop? then CancelPending(changed, STOPPED) else changed, CommandPolicy(s, c).value.receipts);
    }
  }

  lemma ReceiptsKeepInv(s: State, receipts: map<string, Receipt>)
    requires Inv(s)
    ensures Inv(s.(receipts := receipts))
  {
    var n := s.(receipts := receipts);
    forall k | RunReserved(k) in n.events ensures HasRun(n, k) {
      assert HasRun(s, k);
    }
  }

  lemma RecoverKeepsInv(s: State, code: Option<string>)
    requires Inv(s)
    ensures Inv(RecoverError(s, code)) && NothingNew(s, RecoverError(s, code))
  {
    RunsStay(s.runs);
    if RecoverError(s, code) != s {
      var o := ObserveAll(s);
      ObservingKeepsInv(s);
      InvalidatingKeepsInv(o, code.value);
      var i := if s.policy.status.Active? || s.policy.status.PausedPolicy? then Invalidate(o, code.value) else o;
      LaterTwice(s.runs, o.runs, Invalidate(o, code.value).runs);
      CancellingKeepsInv(i, code.value);
      LaterTwice(s.runs, i.runs, CancelPending(i, code.value).runs);
    }
  }

  /** Every step keeps the invariant, and either adds nothing or is a claim that reserves one run. */
  lemma StepKeepsInv(s: State, step: Step)
    requires Inv(s) && Enabled(s, step)
    ensures Inv(Apply(s, step))
    ensures NothingNew(s, Apply(s, step)) || (step.ClaimStep? && Reserves(s, step.claim, Apply(s, step)))
  {
    RunsStay(s.runs);
    match step
    case ClaimStep(c) => ClaimKeepsInv(s, c);
    case StartStep(d) =>
      if Start(s, d).Ok? {
        StartingKeepsRuns(s, d);
        StartingKeepsLog(s, d);
      }
    case CommandStep(c) =>
      if CommandPolicy(s, c).Ok? {
        CommandKeepsInv(s, c);
      }
    case RecoverStep(code) => RecoverKeepsInv(s, code);
    case GoalStep(id, g) => GoalChangeKeepsInv(s, id, g);
  }

  // ---------------------------------------------------------------- runs of the system

  function Outcome(s: State, steps: seq<Step>): (last: State)
    requires s.policy.periodMs > 0
    ensures last.policy.periodMs > 0
  {
    if steps == [] then s else Apply(Outcome(s, steps[..|steps| - 1]), steps[|steps| - 1])
  }

  predicate AllEnabled(s: State, steps: seq<Step>)
    requires s.policy.periodMs > 0
  {
    steps == [] || (AllEnabled(s, steps[..|steps| - 1]) && Enabled(Outcome(s, steps[..|steps| - 1]), steps[|steps| - 1]))
  }

  lemma CreationEstablishesInv(p: Policy, now: Time, content: nat)
    requires Create(p, now, content).Ok?
    ensures Inv(Create(p, now, content).value)
    ensures PeriodsOk(Create(p, now, content).value.policy, Create(p, now, content).value.runs)
  {
    var s := Create(p, now, content).value;
    assert s.events[..0] == [];
  }

  lemma {:induction false} EveryRunKeepsInv(s: State, steps: seq<Step>)
    requires Inv(s) && AllEnabled(s, steps)
    ensures Inv(Outcome(s, steps))
  {
    if steps != [] {
      EveryRunKeepsInv(s, steps[..|steps| - 1]);
      StepKeepsInv(Outcome(s, steps[..|steps| - 1]), steps[|steps| - 1]);
    }
  }

  // ---------------------------------------------------------------- the two readings of a claim

  /**
   A claim reads the clock once to look for room in the current period and again to date its run. The readings agree
   when they name the same period, or when nothing has yet been recorded in the period of the second.
   */
  predicate ReadingsAgree(s: State, step: Step)
    requires s.policy.periodMs > 0
  {
    step.ClaimStep? ==>
      var start := PeriodStart(s.policy, step.claim.periodNow);
      PeriodStart(s.policy, step.claim.detailNow) == start || Count(s.runs, start) == 0
  }

  predicate AllAgree(s: State, steps: seq<Step>)
    requires s.policy.periodMs > 0
  {
    steps == [] || (AllAgree(s, steps[..|steps| - 1]) && ReadingsAgree(Outcome(s, steps[..|steps| - 1]), steps[|steps| - 1]))
  }

  lemma {:induction false} EmptyPeriod(runs: seq<Run>, start: Time, d: Dimension)
    requires Count(runs, start) == 0
    ensures BaseSum(runs, start, d) == 0
  {
    if runs != [] {
      EmptyPeriod(runs[..|runs| - 1], start, d);
    }
  }

  lemma LaterKeepsPeriods(p: Policy, q: Policy, runs: seq<Run>, next: seq<Run>)
    requires RunsLater(runs, next) && SameDefinition(p, q) && PeriodsOk(p, runs)
    ensures PeriodsOk(q, next) && PeriodsOk(p, next)
  {
    forall start ensures PeriodOk(q, next, start) && PeriodOk(p, next, start) {
      SmallerBases(runs, next, start, Tokens);
      SmallerBases(runs, next, start, Cost);
      assert PeriodOk(p, runs, start);
    }
  }

  lemma ReservingKeepsPeriods(s: State, c: ClaimInput)
    requires DefinitionOk(s.policy) && PeriodsOk(s.policy, s.runs) && MayReserve(s, c)
    requires ReadingsAgree(s, ClaimStep(c))
    ensures PeriodsOk(s.policy, Reserve(s, c.source.value, c.goalId, c.periodNow).runs)
  {
    var n := Reserve(s, c.source.value, c.goalId, c.periodNow);
    var p := s.policy;
    assert n.runs[..|s.runs|] == s.runs;
    forall start ensures PeriodOk(p, n.runs, start) {
      assert PeriodOk(p, s.runs, start);
      if start == PeriodStart(p, c.periodNow) {
        if start == PeriodStart(p, c.detailNow) {
          RoomLeaves(s, start, Tokens);
          RoomLeaves(s, start, Cost);
        } else {
          EmptyPeriod(s.runs, start, Tokens);
          EmptyPeriod(s.runs, start, Cost);
        }
      }
    }
  }

  lemma StepKeepsPeriods(s: State, step: Step)
    requires Inv(s) && Enabled(s, step) && PeriodsOk(s.policy, s.runs) && ReadingsAgree(s, step)
    ensures PeriodsOk(Apply(s, step).policy, Apply(s, step).runs)
  {
    StepKeepsInv(s, step);
    var n := Apply(s, step);
    if NothingNew(s, n) {
      LaterKeepsPeriods(s.policy, n.policy, s.runs, n.runs);
    } else {
      var o := ObserveAll(s);
      ObservingIsLater(s);
      LaterKeepsPeriods(s.policy, o.policy, s.runs, o.runs);
      SmallerBases(s.runs, o.runs, PeriodStart(s.policy, step.claim.periodNow), Tokens);
      ReservingKeepsPeriods(o, step.claim);
    }
  }

  lemma {:induction false} EveryRunKeepsPeriods(s: State, steps: seq<Step>)
    requires Inv(s) && PeriodsOk(s.policy, s.runs) && AllEnabled(s, steps) && AllAgree(s, steps)
    ensures PeriodsOk(Outcome(s, steps).policy, Outcome(s, steps).runs)
  {
    if steps != [] {
      var front := steps[..|steps| - 1];
      EveryRunKeepsPeriods(s, front);
      EveryRunKeepsInv(s, front);
      StepKeepsPeriods(Outcome(s, front), steps[|steps| - 1]);
    }
  }

  // ---------------------------------------------------------------- main results

  /**
   The period budget. After any interleaving of claims with agreeing readings and any other steps, what the service
   reports for any period as settled, reserved and unknown stays within the limit plus the overruns of its single runs.
   */
  lemma PeriodBudgetHolds(p: Policy, now: Time, content: nat, steps: seq<Step>, at: Time, d: Dimension)
    requires Create(p, now, content).Ok?
    requires AllEnabled(Create(p, now, content).value, steps) && AllAgree(Create(p, now, content).value, steps)
    ensures var f := Outcome(Create(p, now, content).value, steps);
            var start := PeriodStart(f.policy, at);
            && Count(f.runs, start) <= f.policy.periodMaxRuns
            && var t := Detail(f.policy, f.runs, start);
               t.Some? ==> Spent(t.value, d) <= Amount(f.policy.periodLimit, d) + OverrunSum(f.runs, start, d)
  {
    var s := Create(p, now, content).value;
    CreationEstablishesInv(p, now, content);
    EveryRunKeepsPeriods(s, steps);
    var f := Outcome(s, steps);
    var start := PeriodStart(f.policy, at);
    assert PeriodOk(f.policy, f.runs, start);
    if Detail(f.policy, f.runs, start).Some? {
      DetailAddsCharges(f.policy, f.runs, start, d);
      ChargesAreBasePlusOverruns(f.policy.status, f.runs, start, d);
    }
  }

  /** At most `maxRuns` runs, at most one of them pending, and no source claimed twice, whatever the clocks show. */
  lemma RunLimitsHold(p: Policy, now: Time, content: nat, steps: seq<Step>)
    requires Create(p, now, content).Ok?
    requires AllEnabled(Create(p, now, content).value, steps)
    ensures var f := Outcome(Create(p, now, content).value, steps);
            && |f.runs| <= f.policy.maxRuns == p.maxRuns
            && SinglePending(f.runs) && DistinctKeys(f.runs)
  {
    var s := Create(p, now, content).value;
    CreationEstablishesInv(p, now, content);
    EveryRunKeepsInv(s, steps);
    DefinitionsStay(s, steps);
  }

  lemma DefinitionStays(s: State, step: Step)
    requires Inv(s) && Enabled(s, step)
    ensures SameDefinition(s.policy, Apply(s, step).policy)
  {
    StepKeepsInv(s, step);
  }

  lemma {:induction false} DefinitionsStay(s: State, steps: seq<Step>)
    requires Inv(s) && AllEnabled(s, steps)
    ensures SameDefinition(s.policy, Outcome(s, steps).policy)
  {
    if steps != [] {
      DefinitionsStay(s, steps[..|steps| - 1]);
      EveryRunKeepsInv(s, steps[..|steps| - 1]);
      DefinitionStays(Outcome(s, steps[..|steps| - 1]), steps[|steps| - 1]);
    }
  }

  /**
   Exclusion, read off the event history of any interleaving: a run starts at most once and only while the policy is
   active, it was reserved before, and no run both starts and is cancelled while pending.
   */
  lemma RunsStartOnceWhileActive(p: Policy, now: Time, content: nat, steps: seq<Step>, i: nat, j: nat, k: RunKey)
    requires Create(p, now, content).Ok?
    requires AllEnabled(Create(p, now, content).value, steps)
    requires var log := Outcome(Create(p, now, content).value, steps).events;
             i < |log| && j < |log| && log[i] == RunStarted(k)
    ensures var log := Outcome(Create(p, now, content).value, steps).events;
            && StatusAfter(log[..i]).Active?
            && RunReserved(k) in log[..i]
            && (log[j] == RunStarted(k) ==> i == j)
            && log[j] != RunCancelledPending(k)
  {
    CreationEstablishesInv(p, now, content);
    EveryRunKeepsInv(Create(p, now, content).value, steps);
    var log := Outcome(Create(p, now, content).value, steps).events;
    OrderedAt(log, i);
    OrderedAt(log, j);
    if j < i {
      assert log[j] in log[..i];
    } else if i < j {
      assert log[i] in log[..j];
    }
  }

  /** A started run is exactly one whose record names an execution, and a cancelled pending run never gets one. */
  lemma HistoryMatchesRecords(p: Policy, now: Time, content: nat, steps: seq<Step>, r: Run)
    requires Create(p, now, content).Ok?
    requires AllEnabled(Create(p, now, content).value, steps)
    requires r in Outcome(Create(p, now, content).value, steps).runs
    ensures LogMatchesRun(r, Outcome(Create(p, now, content).value, steps).events)
  {
    CreationEstablishesInv(p, now, content);
    EveryRunKeepsInv(Create(p, now, content).value, steps);
    var f := Outcome(Create(p, now, content).value, steps);
    var i :| 0 <= i < |f.runs| && f.runs[i] == r;
    assert LogMatchesRun(f.runs[i], f.events);
  }

  // ---------------------------------------------------------------- one run for each change of the source

  /** The content last claimed, or the content at creation. */
  function LastContent(content: nat, runs: seq<Run>): nat {
    if runs == [] then content else runs[|runs| - 1].key.content
  }

  /** Each run was claimed for other content than the run before it, the first one for other content than at creation. */
  predicate EachIsAChange(content: nat, runs: seq<Run>) {
    forall i :: 0 <= i < |runs| ==> runs[i].key.content != LastContent(content, runs[..i])
  }

  lemma LaterRunsSameContents(content: nat, runs: seq<Run>, next: seq<Run>)
    requires RunsLater(runs, next)
    ensures LastContent(content, next) == LastContent(content, runs)
    ensures EachIsAChange(content, runs) ==> EachIsAChange(content, next)
  {
    assert forall i :: 0 <= i < |runs| ==> RunLater(runs[i], next[i]);
    if EachIsAChange(content, runs) {
      forall i | 0 <= i < |next| ensures next[i].key.content != LastContent(content, next[..i]) {
        assert runs[i].key.content != LastContent(content, runs[..i]);
      }
    }
  }

  lemma ReservationIsAChange(content: nat, runs: seq<Run>, r: Run)
    requires EachIsAChange(content, runs) && r.key.content != LastContent(content, runs)
    ensures EachIsAChange(content, runs + [r])
  {
    var next := runs + [r];
    forall i | 0 <= i < |next| ensures next[i].key.content != LastContent(content, next[..i]) {
      assert next[..i] == runs[..i];
      if i == |runs| {
        assert runs[..i] == runs;
      }
    }
  }

  /** Over any run, the cursor is the content claimed last, every run was claimed for a change, and each reserves the whole cap. */
  lemma {:induction false} RunsFollowChanges(p: Policy, now: Time, content: nat, steps: seq<Step>)
    requires Create(p, now, content).Ok?
    requires AllEnabled(Create(p, now, content).value, steps)
    ensures var f := Outcome(Create(p, now, content).value, steps);
            && f.cursor == Some(LastContent(content, f.runs))
            && EachIsAChange(content, f.runs)
            && forall i :: 0 <= i < |f.runs| ==> f.runs[i].reserved == p.cap
  {
    var s := Create(p, now, content).value;
    CreationEstablishesInv(p, now, content);
    EveryRunKeepsInv(s, steps);
    DefinitionsStay(s, steps);
    var f := Outcome(s, steps);
    forall i | 0 <= i < |f.runs| ensures f.runs[i].reserved == p.cap {
      assert RunOk(f.runs[i], f.policy.cap, f.goals);
    }
    if steps != [] {
      var front, step := steps[..|steps| - 1], steps[|steps| - 1];
      RunsFollowChanges(p, now, content, front);
      var b := Outcome(s, front);
      EveryRunKeepsInv(s, front);
      StepKeepsInv(b, step);
      if NothingNew(b, f) {
        LaterRunsSameContents(content, b.runs, f.runs);
      } else {
        var o := ObserveAll(b);
        ObservingIsLater(b);
        LaterRunsSameContents(content, b.runs, o.runs);
        ReservationIsAChange(content, o.runs, f.runs[|o.runs|]);
      }
    }
  }

  /** The source shows the content `x` in every claim. */
  predicate SourceShows(steps: seq<Step>, x: nat) {
    forall i :: 0 <= i < |steps| && steps[i].ClaimStep? && steps[i].claim.source.Some? ==> steps[i].claim.source.value.content == x
  }

  /** As long as the source shows what was claimed last, no run is added and the cursor stays, over any steps. */
  lemma {:induction false} NoChangeNoRun(s: State, steps: seq<Step>, x: nat)
    requires Inv(s) && AllEnabled(s, steps) && s.cursor == Some(x) && SourceShows(steps, x)
    ensures |Outcome(s, steps).runs| == |s.runs| && Outcome(s, steps).cursor == Some(x)
  {
    if steps != [] {
      var front := steps[..|steps| - 1];
      assert SourceShows(front, x);
      NoChangeNoRun(s, front, x);
      EveryRunKeepsInv(s, front);
      StepKeepsInv(Outcome(s, front), steps[|steps| - 1]);
    }
  }

  /** Over any run the records of earlier runs stay: identity, period and reservation, and usage never falls. */
  lemma {:induction false} RecordedUsageNeverFalls(s: State, steps: seq<Step>, i: nat)
    requires Inv(s) && AllEnabled(s, steps) && i < |s.runs|
    ensures i < |Outcome(s, steps).runs| && RunLater(s.runs[i], Outcome(s, steps).runs[i])
  {
    if steps != [] {
      var front, step := steps[..|steps| - 1], steps[|steps| - 1];
      RecordedUsageNeverFalls(s, front, i);
      var b := Outcome(s, front);
      EveryRunKeepsInv(s, front);
      StepKeepsRecord(b, step, i);
    }
  }

  lemma StepKeepsRecord(s: State, step: Step, i: nat)
    requires Inv(s) && Enabled(s, step) && i < |s.runs|
    ensures i < |Apply(s, step).runs| && RunLater(s.runs[i], Apply(s, step).runs[i])
  {
    StepKeepsInv(s, step);
    ObservingIsLater(s);
  }

  // ---------------------------------------------------------------- the clock

  predicate NotAfter(runs: seq<Run>, start: Time) {
    forall i :: 0 <= i < |runs| ==> runs[i].periodStart <= start
  }

  lemma PeriodsAdvance(p: Policy, earlier: Time, later: Time)
    requires p.periodMs > 0 && earlier <= later
    ensures PeriodStart(p, earlier) <= PeriodStart(p, later)
  {
    var a, b := (earlier - p.createdAt) / p.periodMs, (later - p.createdAt) / p.periodMs;
    var m := p.periodMs;
    Scale(b + 1, a, m);
    assert earlier - p.createdAt == a * m + (earlier - p.createdAt) % m;
    assert later - p.createdAt == b * m + (later - p.createdAt) % m;
    assert a <= b;
    Scale(if a > 0 then a else 0, if b > 0 then b else 0, m);
  }

  lemma Scale(a: int, b: int, m: nat)
    ensures a <= b ==> a * m <= b * m
  {
  }

  lemma {:induction false} NothingLater(runs: seq<Run>, last: Time, start: Time)
    requires NotAfter(runs, last) && last < start
    ensures Count(runs, start) == 0
  {
    if runs != [] {
      NothingLater(runs[..|runs| - 1], last, start);
    }
  }

  function LastReading(clock: Time, steps: seq<Step>): Time {
    if steps == [] then clock
    else if steps[|steps| - 1].ClaimStep? then steps[|steps| - 1].claim.periodNow
    else LastReading(clock, steps[..|steps| - 1])
  }

  /** The claims read one clock that never goes back, not even between two workers. */
  predicate ForwardClock(clock: Time, steps: seq<Step>) {
    steps == [] ||
    var front, step := steps[..|steps| - 1], steps[|steps| - 1];
    ForwardClock(clock, front) && (step.ClaimStep? ==> LastReading(clock, front) <= step.claim.detailNow <= step.claim.periodNow)
  }

  lemma ForwardReadingsAgree(s: State, c: ClaimInput, clock: Time)
    requires s.policy.periodMs > 0 && NotAfter(s.runs, PeriodStart(s.policy, clock)) && clock <= c.detailNow <= c.periodNow
    ensures ReadingsAgree(s, ClaimStep(c)) && PeriodStart(s.policy, clock) <= PeriodStart(s.policy, c.periodNow)
  {
    PeriodsAdvance(s.policy, clock, c.detailNow);
    PeriodsAdvance(s.policy, c.detailNow, c.periodNow);
    if PeriodStart(s.policy, c.detailNow) != PeriodStart(s.policy, c.periodNow) {
      NothingLater(s.runs, PeriodStart(s.policy, clock), PeriodStart(s.policy, c.periodNow));
    }
  }

  lemma LaterRunsNotAfter(runs: seq<Run>, next: seq<Run>, start: Time)
    requires RunsLater(runs, next) && NotAfter(runs, start)
    ensures NotAfter(next, start)
  {
    assert forall i :: 0 <= i < |runs| ==> RunLater(runs[i], next[i]);
  }

  lemma StepAdvances(s: State, step: Step, clock: Time)
    requires Inv(s) && Enabled(s, step) && NotAfter(s.runs, PeriodStart(s.policy, clock))
    requires step.ClaimStep? ==> clock <= step.claim.detailNow <= step.claim.periodNow
    ensures ReadingsAgree(s, step)
    ensures NotAfter(Apply(s, step).runs, PeriodStart(s.policy, if step.ClaimStep? then step.claim.periodNow else clock))
  {
    var n := Apply(s, step);
    StepKeepsInv(s, step);
    if step.ClaimStep? {
      ForwardReadingsAgree(s, step.claim, clock);
    }
    if NothingNew(s, n) {
      LaterRunsNotAfter(s.runs, n.runs, PeriodStart(s.policy, clock));
    } else {
      ObservingIsLater(s);
      LaterRunsNotAfter(s.runs, ObserveAll(s).runs, PeriodStart(s.policy, clock));
    }
  }

  lemma SamePeriods(p: Policy, q: Policy, now: Time)
    requires SameDefinition(p, q) && p.periodMs > 0
    ensures PeriodStart(p, now) == PeriodStart(q, now)
  {
  }

  /** With one clock that never goes back all readings agree: such runs keep the period budget. */
  lemma {:induction false} ForwardClockAgrees(s: State, clock: Time, steps: seq<Step>)
    requires Inv(s) && AllEnabled(s, steps) && ForwardClock(clock, steps)
    requires NotAfter(s.runs, PeriodStart(s.policy, clock))
    ensures AllAgree(s, steps)
    ensures NotAfter(Outcome(s, steps).runs, PeriodStart(Outcome(s, steps).policy, LastReading(clock, steps)))
  {
    if steps != [] {
      var front, step := steps[..|steps| - 1], steps[|steps| - 1];
      var b := Outcome(s, front);
      ForwardClockAgrees(s, clock, front);
      EveryRunKeepsInv(s, front);
      StepAdvances(b, step, LastReading(clock, front));
      DefinitionStays(b, step);
      SamePeriods(b.policy, Apply(b, step).policy, LastReading(clock, steps));
    }
  }

  ghost predicate KeepsBudget(s: State, c: ClaimInput)
    requires s.policy.periodMs > 0
  {
    PeriodsOk(s.policy, Claim(s, c).0.runs)
  }

  /** Every claim with these two readings keeps every period within its limits, in every state that is within them. */
  ghost predicate ClaimsKeepBudget(createdAt: Time, periodMs: nat, detailNow: Time, periodNow: Time) {
    forall s: State, c: ClaimInput ::
      (s.policy.createdAt == createdAt && s.policy.periodMs == periodMs && Inv(s) && PeriodsOk(s.policy, s.runs)
       && c.goalId !in s.goals && c.detailNow == detailNow && c.periodNow == periodNow) ==> KeepsBudget(s, c)
  }

  /** The start of the period of a reading, for a policy created at `createdAt`. */
  function StartOf(createdAt: Time, periodMs: nat, now: Time): Time
    requires periodMs > 0
  {
    PeriodStart(FullPolicy(createdAt, periodMs), now)
  }

  const SAMPLE := Usage("CNY", 10, 0)

  /** A policy that allows one run in each period. */
  function FullPolicy(createdAt: Time, periodMs: nat): Policy {
    Policy(Active, createdAt, 1, SAMPLE, periodMs, 1, SAMPLE, 5, 1)
  }

  /** One accepted run fills the period that contains `at`. */
  function FullPeriod(createdAt: Time, periodMs: nat, at: Time): State
    requires periodMs > 0
  {
    var r := Run(RunKey(1, 8), RunAccepted, StartOf(createdAt, periodMs, at), SAMPLE, Some(SAMPLE), 1, Some(9), "", 3);
    var g := StartedGoal(NewGoal(1, SAMPLE), 9).(status := Accepted, reservation := Some(Reservation(Settled, Some(SAMPLE))));
    State(FullPolicy(createdAt, periodMs), [r], Some(8), map[1 := g], map[],
          [PolicyChanged(Active), RunReserved(r.key), RunStarted(r.key)])
  }

  lemma FullPeriodLog(createdAt: Time, periodMs: nat, at: Time)
    requires periodMs > 0
    ensures LogOk(FullPeriod(createdAt, periodMs, at))
  {
    var s, k := FullPeriod(createdAt, periodMs, at), RunKey(1, 8);
    var l1 := [PolicyChanged(Active)];
    assert l1[..0] == [];
    OrderedPlus(l1, RunReserved(k));
    OrderedPlus(l1 + [RunReserved(k)], RunStarted(k));
    assert s.events == l1 + [RunReserved(k)] + [RunStarted(k)];
    assert s.events[1] == RunReserved(k) && s.events[2] == RunStarted(k);
    assert s.runs[0].key == k;
    assert HasRun(s, k);
  }

  lemma FullPeriodIsLegal(createdAt: Time, periodMs: nat, at: Time)
    requires periodMs > 0
    ensures var s := FullPeriod(createdAt, periodMs, at);
            Inv(s) && PeriodsOk(s.policy, s.runs) && ObserveAll(s) == s
  {
    var s := FullPeriod(createdAt, periodMs, at);
    assert ObservedRuns(s.runs, s.goals) == s.runs;
    assert ObservationEvents(s.runs, s.goals) == [] by {
      assert s.runs[..0] == [];
    }
    assert s.events + [] == s.events;
    FullPeriodLog(createdAt, periodMs, at);
    assert DefinitionOk(s.policy) && RunsOk(s);
    forall start ensures PeriodOk(s.policy, s.runs, start) {
      assert s.runs[..0] == [];
    }
  }

  lemma OtherPeriodsAreEmpty(createdAt: Time, periodMs: nat, at: Time, other: Time)
    requires periodMs > 0 && StartOf(createdAt, periodMs, at) != StartOf(createdAt, periodMs, other)
    ensures var s := FullPeriod(createdAt, periodMs, at);
            var t := Detail(s.policy, s.runs, PeriodStart(s.policy, other));
            t.Some? && PeriodHasRoom(s.policy, t.value)
  {
    var s := FullPeriod(createdAt, periodMs, at);
    assert s.runs[..0] == [];
    assert Detail(s.policy, s.runs[..0], PeriodStart(s.policy, other)).Some?;
  }

  lemma SecondRunOverfills(s: State, runs: seq<Run>, start: Time)
    requires |s.runs| == 1 && |runs| == 2 && runs[0] == s.runs[0] && s.policy.periodMaxRuns == 1
    requires runs[0].periodStart == start && runs[1].periodStart == start
    ensures !PeriodOk(s.policy, runs, start)
  {
    assert runs[..1] == [runs[0]] && [runs[0]][..0] == [];
    assert Count([runs[0]], start) == 1;
  }

  /** A first reading in another, empty period, be it earlier or later, lets a second run into the full one. */
  lemma OtherPeriodBreaksBudget(createdAt: Time, periodMs: nat, detailNow: Time, periodNow: Time)
    requires periodMs > 0 && StartOf(createdAt, periodMs, periodNow) != StartOf(createdAt, periodMs, detailNow)
    ensures !ClaimsKeepBudget(createdAt, periodMs, detailNow, periodNow)
  {
    var s := FullPeriod(createdAt, periodMs, periodNow);
    var c := ClaimInput(0, detailNow, periodNow, None, Some(RunKey(2, 9)), 2);
    FullPeriodIsLegal(createdAt, periodMs, periodNow);
    OtherPeriodsAreEmpty(createdAt, periodMs, periodNow, detailNow);
    assert MayReserve(s, c);
    var n := Claim(s, c).0;
    assert n.runs == s.runs + [NewRun(s.policy, RunKey(2, 9), 2, periodNow)];
    SecondRunOverfills(s, n.runs, StartOf(createdAt, periodMs, periodNow));
    assert !KeepsBudget(s, c);
  }

  lemma ClaimKeepsPeriods(s: State, c: ClaimInput)
    requires Inv(s) && PeriodsOk(s.policy, s.runs) && c.goalId !in s.goals
    requires PeriodStart(s.policy, c.detailNow) == PeriodStart(s.policy, c.periodNow)
    ensures KeepsBudget(s, c)
  {
    var n := Claim(s, c).0;
    StepKeepsInv(s, ClaimStep(c));
    StepKeepsPeriods(s, ClaimStep(c));
    RunsStay(n.runs);
    ClaimKeepsLimits(s, c);
    LaterKeepsPeriods(n.policy, s.policy, n.runs, n.runs);
  }

  lemma ClaimKeepsLimits(s: State, c: ClaimInput)
    requires s.policy.periodMs > 0
    ensures SameDefinition(s.policy, Claim(s, c).0.policy)
  {
  }

  /** A claim keeps the period budget in every state exactly when its two readings fall into the same period. */
  lemma BudgetKeptExactlyWhen(createdAt: Time, periodMs: nat, detailNow: Time, periodNow: Time)
    requires periodMs > 0
    ensures ClaimsKeepBudget(createdAt, periodMs, detailNow, periodNow) <==>
              StartOf(createdAt, periodMs, detailNow) == StartOf(createdAt, periodMs, periodNow)
  {
    if StartOf(createdAt, periodMs, detailNow) == StartOf(createdAt, periodMs, periodNow) {
      forall s: State, c: ClaimInput | s.policy.createdAt == createdAt && s.policy.periodMs == periodMs && Inv(s) && PeriodsOk(s.policy, s.runs)
                                       && c.goalId !in s.goals && c.detailNow == detailNow && c.periodNow == periodNow
        ensures KeepsBudget(s, c)
      {
        ClaimKeepsPeriods(s, c);
      }
    } else {
      OtherPeriodBreaksBudget(createdAt, periodMs, detailNow, periodNow);
    }
  }

  // ---------------------------------------------------------------- a run that overfills a period

  lemma StepOn(s: State, steps: seq<Step>, step: Step)
    requires s.policy.periodMs > 0 && AllEnabled(s, steps) && Enabled(Outcome(s, steps), step)
    ensures AllEnabled(s, steps + [step]) && Outcome(s, steps + [step]) == Apply(Outcome(s, steps), step)
    ensures AllAgree(s, steps) && ReadingsAgree(Outcome(s, steps), step) ==> AllAgree(s, steps + [step])
  {
    assert (steps + [step])[..|steps|] == steps;
  }

  /** A policy that allows one run in each period and is open at the time of its creation. */
  function OpenPolicy(now: Time, periodMs: nat): Policy { FullPolicy(now, periodMs).(expiresAt := now + 1) }

  /** The parts of a state that the next step looks at. */
  predicate Stage(s: State, now: Time, periodMs: nat, runs: seq<Run>, content: nat, goal: Option<Goal>) {
    && s.policy == OpenPolicy(now, periodMs) && s.runs == runs && s.cursor == Some(content)
    && s.goals == if goal.Some? then map[1 := goal.value] else map[]
  }

  function FirstRun(now: Time, periodMs: nat, at: Time): Run
    requires periodMs > 0
  {
    NewRun(OpenPolicy(now, periodMs), RunKey(1, 8), 1, at)
  }

  const PLANNED := NewGoal(1, SAMPLE).(status := AwaitingAuthorization)
  const BOUND := Saved(PLANNED, StartedGoal(PLANNED, 9))
  const DONE := BOUND.(status := Accepted, reservation := Some(Reservation(Settled, Some(SAMPLE))))

  lemma FirstClaim(s: State, now: Time, periodMs: nat, at: Time)
    requires periodMs > 0 && Stage(s, now, periodMs, [], 7, None)
    ensures Stage(Apply(s, ClaimStep(ClaimInput(now, at, at, None, Some(RunKey(1, 8)), 1))), now, periodMs, [FirstRun(now, periodMs, at)], 8, Some(NewGoal(1, SAMPLE)))
  {
    var c := ClaimInput(now, at, at, None, Some(RunKey(1, 8)), 1);
    assert ObserveAll(s).runs == [];
    assert MayReserve(ObserveAll(s), c);
  }

  lemma FirstStart(s: State, now: Time, periodMs: nat, at: Time)
    requires periodMs > 0 && Stage(s, now, periodMs, [FirstRun(now, periodMs, at)], 8, Some(PLANNED))
    ensures Stage(Apply(s, StartStep(StartInput(RunKey(1, 8), now, None, true, 9))), now, periodMs,
                  [StartedRun(now, periodMs, at)], 8, Some(BOUND))
  {
    assert IndexOf(s.runs, RunKey(1, 8)) == Some(0);
  }

  /** The only run, once its goal was accepted, is observed as accepted and closes its period. */
  lemma SecondClaimMayReserve(o: State, now: Time, periodMs: nat, c: ClaimInput, r: Run)
    requires periodMs > 0 && o.policy == OpenPolicy(now, periodMs) && o.runs == [r] && o.cursor == Some(8)
    requires r.key == RunKey(1, 8) && r.status.RunAccepted? && r.periodStart != PeriodStart(o.policy, c.detailNow)
    requires c.source == Some(RunKey(2, 9))
    ensures MayReserve(o, c)
  {
    assert o.runs[..0] == [];
    assert Detail(o.policy, o.runs[..0], PeriodStart(o.policy, c.detailNow)).Some?;
    assert Detail(o.policy, o.runs, PeriodStart(o.policy, c.detailNow)) == Detail(o.policy, o.runs[..0], PeriodStart(o.policy, c.detailNow));
    assert !HasRun(o, RunKey(2, 9));
  }

  function StartedRun(now: Time, periodMs: nat, at: Time): Run
    requires periodMs > 0
  {
    FirstRun(now, periodMs, at).(status := RunRunning, executionId := Some(9), streamVersion := 2)
  }

  lemma DoneIsObserved(now: Time, periodMs: nat, at: Time, goals: map<nat, Goal>)
    requires periodMs > 0 && goals == map[1 := DONE]
    ensures var r := Observed(StartedRun(now, periodMs, at), goals);
            r.status.RunAccepted? && r.key == RunKey(1, 8) && r.periodStart == PeriodStart(OpenPolicy(now, periodMs), at)
  {
  }

  lemma SecondClaim(s: State, now: Time, periodMs: nat, detailNow: Time, at: Time)
    requires periodMs > 0 && StartOf(now, periodMs, detailNow) != StartOf(now, periodMs, at)
    requires Stage(s, now, periodMs, [StartedRun(now, periodMs, at)], 8, Some(DONE))
    ensures var n := Apply(s, ClaimStep(ClaimInput(now, detailNow, at, None, Some(RunKey(2, 9)), 2)));
            !PeriodOk(n.policy, n.runs, PeriodStart(n.policy, at))
  {
    var c, o, p := ClaimInput(now, detailNow, at, None, Some(RunKey(2, 9)), 2), ObserveAll(s), OpenPolicy(now, periodMs);
    SamePeriods(FullPolicy(now, periodMs).(expiresAt := now + 1), p, at);
    DoneIsObserved(now, periodMs, at, s.goals);
    SecondClaimMayReserve(o, now, periodMs, c, o.runs[0]);
    assert Claim(s, c).0 == Reserve(o, RunKey(2, 9), 2, at);
    SecondRunOverfills(o, Claim(s, c).0.runs, PeriodStart(p, at));
  }

  /** A run from the open policy's creation, with agreeing readings, and the stage it leads to. */
  predicate LeadsTo(now: Time, periodMs: nat, steps: seq<Step>, runs: seq<Run>, content: nat, goal: Option<Goal>)
    requires periodMs == 86400000 || periodMs == 604800000
  {
    var s := Create(OpenPolicy(now, periodMs), now, 7).value;
    AllEnabled(s, steps) && AllAgree(s, steps) && Stage(Outcome(s, steps), now, periodMs, runs, content, goal)
  }

  lemma ClaimedOnce(now: Time, periodMs: nat, at: Time) returns (steps: seq<Step>)
    requires periodMs == 86400000 || periodMs == 604800000
    ensures LeadsTo(now, periodMs, steps, [FirstRun(now, periodMs, at)], 8, Some(PLANNED))
  {
    var s := Create(OpenPolicy(now, periodMs), now, 7).value;
    var claim, plan := ClaimStep(ClaimInput(now, at, at, None, Some(RunKey(1, 8)), 1)), GoalStep(1, PLANNED);
    StepOn(s, [], claim);
    FirstClaim(s, now, periodMs, at);
    StepOn(s, [] + [claim], plan);
    steps := [] + [claim] + [plan];
  }

  lemma FilledPeriod(now: Time, periodMs: nat, at: Time) returns (steps: seq<Step>)
    requires periodMs == 86400000 || periodMs == 604800000
    ensures LeadsTo(now, periodMs, steps, [StartedRun(now, periodMs, at)], 8, Some(DONE))
  {
    var s := Create(OpenPolicy(now, periodMs), now, 7).value;
    var start, finish := StartStep(StartInput(RunKey(1, 8), now, None, true, 9)), GoalStep(1, DONE);
    steps := ClaimedOnce(now, periodMs, at);
    FirstStart(Outcome(s, steps), now, periodMs, at);
    StepOn(s, steps, start);
    StepOn(s, steps + [start], finish);
    steps := steps + [start] + [finish];
  }

  /**
   The condition is met by runs of the whole system: for any two readings in different periods there is a run from an
   accepted definition, all of whose readings agree but those of its last claim, after which a period is overfull.
   */
  lemma OverfullPeriodsAreReachable(now: Time, periodMs: nat, detailNow: Time, periodNow: Time)
    returns (p: Policy, steps: seq<Step>, last: ClaimInput)
    requires periodMs == 86400000 || periodMs == 604800000
    requires StartOf(now, periodMs, detailNow) != StartOf(now, periodMs, periodNow)
    ensures Create(p, now, 7).Ok? && last.detailNow == detailNow && last.periodNow == periodNow
    ensures var s := Create(p, now, 7).value;
            && AllEnabled(s, steps + [ClaimStep(last)]) && AllAgree(s, steps)
            && var f := Outcome(s, steps + [ClaimStep(last)]);
               !PeriodOk(f.policy, f.runs, PeriodStart(f.policy, periodNow))
  {
    p := OpenPolicy(now, periodMs);
    last := ClaimInput(now, detailNow, periodNow, None, Some(RunKey(2, 9)), 2);
    steps := FilledPeriod(now, periodMs, periodNow);
    var s := Create(p, now, 7).value;
    StepOn(s, steps, ClaimStep(last));
    SecondClaim(Outcome(s, steps), now, periodMs, detailNow, periodNow);
  }

  // ---------------------------------------------------------------- a cancelled goal blocks its policy

  predicate Open(status: PolicyStatus) { status.Active? || status.PausedPolicy? }

  /** The goal of a pending run was cancelled before it was dispatched; the grant is still open. */
  predicate Blocked(s: State, i: nat) {
    && i < |s.runs| && IsPending(s.runs[i]) && Open(s.policy.status)
    && s.runs[i].goalId in s.goals
    && s.goals[s.runs[i].goalId].status.Cancelled? && !Dispatched(s.goals[s.runs[i].goalId])
  }

  /** The grant was closed and took the run with it. */
  predicate Released(s: State, i: nat) {
    i < |s.runs| && Closed(s.policy.status) && s.runs[i].status.RunCancelled? && s.runs[i].executionId.None?
  }

  lemma PendingIsFound(runs: seq<Run>, i: nat)
    requires i < |runs| && IsPending(runs[i]) && SinglePending(runs)
    ensures FirstPending(runs) == Some(runs[i].key)
  {
  }

  lemma ObservingKeepsBlocked(s: State, i: nat)
    requires Inv(s) && Blocked(s, i)
    ensures Blocked(ObserveAll(s), i) && ObserveAll(s).runs[i].key == s.runs[i].key
    ensures FirstPending(ObserveAll(s).runs) == Some(s.runs[i].key)
  {
    ObservingKeepsRun(s.runs[i], s.policy.cap, s.goals, Tokens);
    ObservingIsLater(s);
    PendingIsFound(ObserveAll(s).runs, i);
  }

  /** Closing the grant cancels the run without an execution. */
  lemma ClosingReleases(s: State, i: nat, status: PolicyStatus, code: string)
    requires Inv(s) && i < |s.runs| && IsPending(s.runs[i]) && Closed(status)
    ensures Released(CancelPending(SetStatus(s, status), code), i)
  {
    assert RunOk(s.runs[i], s.policy.cap, s.goals);
  }

  lemma ReleasedStays(s: State, i: nat, code: string)
    requires Released(s, i)
    ensures Released(ObserveAll(s), i) && Released(CancelPending(s, code), i)
  {
    assert ObserveAll(s).runs[i] == Observed(s.runs[i], s.goals);
  }

  lemma PendingIsClaimed(o: State, key: RunKey, c: ClaimInput)
    requires o.policy.periodMs > 0 && FirstPending(o.runs) == Some(key)
    ensures ClaimChange(o, c) == (o, Dispatch(key))
  {
  }

  /** What a claim of an active, authorised policy with a pending run does. */
  lemma PendingClaim(s: State, key: RunKey, c: ClaimInput)
    requires s.policy.periodMs > 0 && FirstPending(ObserveAll(s).runs) == Some(key) && Open(s.policy.status)
    ensures var error := AssertPolicy(s.policy, c.policyNow, c.authority, false);
            Claim(s, c) == if error.Some? then (Invalidate(ObserveAll(s), error.value), NoDispatch)
                           else (ObserveAll(s), if s.policy.status.Active? then Dispatch(key) else NoDispatch)
  {
    PendingIsClaimed(ObserveAll(s), key, c);
  }

  /** Every claim of an active policy hands out the blocked run and nothing else. */
  lemma BlockedClaim(s: State, i: nat, c: ClaimInput)
    requires Inv(s) && Blocked(s, i)
    ensures Claim(s, c).1 == NoDispatch || Claim(s, c).1 == Dispatch(s.runs[i].key)
    ensures s.policy.status.Active? && AssertPolicy(s.policy, c.policyNow, c.authority, false).None? ==> Claim(s, c).1 == Dispatch(s.runs[i].key)
    ensures Blocked(Claim(s, c).0, i) || Released(Claim(s, c).0, i)
    ensures |Claim(s, c).0.runs| == |s.runs| && Claim(s, c).0.cursor == s.cursor
  {
    var o, error := ObserveAll(s), AssertPolicy(s.policy, c.policyNow, c.authority, false);
    ObservingKeepsInv(s);
    ObservingKeepsBlocked(s, i);
    PendingClaim(s, s.runs[i].key, c);
    if error.Some? {
      ClosingReleases(o, i, if error.value == EXPIRED then Expired else Invalidated, error.value);
    }
  }

  lemma FoundAt(runs: seq<Run>, i: nat)
    requires DistinctKeys(runs) && i < |runs|
    ensures IndexOf(runs, runs[i].key) == Some(i)
  {
  }

  lemma BlockedStart(s: State, i: nat, d: StartInput)
    requires Inv(s) && Blocked(s, i)
    ensures Start(s, d).Err?
    ensures d.key == s.runs[i].key ==> Start(s, d) == Err("GOAL_CLOSED")
  {
    FoundAt(s.runs, i);
    var found := IndexOf(s.runs, d.key);
    assert found.Some? && IsPending(s.runs[found.value]) ==> found.value == i;
  }

  lemma BlockedCommand(s: State, i: nat, c: CommandInput)
    requires Inv(s) && Blocked(s, i) && CommandPolicy(s, c).Ok?
    ensures Blocked(CommandPolicy(s, c).value, i) || Released(CommandPolicy(s, c).value, i)
  {
    if c.request.command.Stop? {
      ClosingReleases(s, i, Stopped, STOPPED);
    }
  }

  lemma BlockedRecovery(s: State, i: nat, code: Option<string>)
    requires Inv(s) && Blocked(s, i)
    ensures Blocked(RecoverError(s, code), i) || Released(RecoverError(s, code), i)
  {
    if RecoverError(s, code) != s {
      var o := ObserveAll(s);
      ObservingKeepsInv(s);
      ObservingKeepsBlocked(s, i);
      ClosingReleases(o, i, if code.value == EXPIRED then Expired else Invalidated, code.value);
      ReleasedStays(Invalidate(o, code.value), i, code.value);
    }
  }

  lemma BlockedStep(s: State, i: nat, step: Step)
    requires Inv(s) && Enabled(s, step) && Blocked(s, i)
    ensures Blocked(Apply(s, step), i) || Released(Apply(s, step), i)
    ensures |Apply(s, step).runs| == |s.runs| && Apply(s, step).cursor == s.cursor
  {
    match step
    case ClaimStep(c) => BlockedClaim(s, i, c);
    case StartStep(d) => BlockedStart(s, i, d);
    case CommandStep(c) =>
      if CommandPolicy(s, c).Ok? {
        BlockedCommand(s, i, c);
      }
    case RecoverStep(code) => BlockedRecovery(s, i, code);
    case GoalStep(id, g) =>
  }

  lemma ReleasedStep(s: State, i: nat, step: Step)
    requires Inv(s) && Enabled(s, step) && Released(s, i)
    ensures Released(Apply(s, step), i)
    ensures |Apply(s, step).runs| == |s.runs| && Apply(s, step).cursor == s.cursor
  {
    match step
    case ClaimStep(c) => ReleasedStays(s, i, STOPPED);
    case StartStep(d) => ReleasedStart(s, i, d);
    case CommandStep(c) => ReleasedCommand(s, i, c);
    case RecoverStep(code) => ReleasedRecovery(s, i, code);
    case GoalStep(id, g) =>
  }

  lemma ReleasedStart(s: State, i: nat, d: StartInput)
    requires Released(s, i)
    ensures Start(s, d).Err?
  {
  }

  lemma ReleasedCommand(s: State, i: nat, c: CommandInput)
    requires Released(s, i)
    ensures CommandPolicy(s, c).Ok? ==> CommandPolicy(s, c).value == s
  {
  }

  lemma ReleasedRecovery(s: State, i: nat, code: Option<string>)
    requires Released(s, i)
    ensures Released(RecoverError(s, code), i)
    ensures |RecoverError(s, code).runs| == |s.runs| && RecoverError(s, code).cursor == s.cursor
  {
    if code.Some? {
      ReleasedStays(s, i, code.value);
      ReleasedStays(ObserveAll(s), i, code.value);
    }
  }

  /**
   A follow-up whose goal the user cancels before its dispatch blocks its policy: over any further run no follow-up run
   is added and the cursor stays. The run is pending as long as the grant is open, and only closing the grant cancels it.
   */
  lemma {:induction false} CancelledGoalsBlockPolicies(s: State, i: nat, steps: seq<Step>)
    requires Inv(s) && AllEnabled(s, steps) && Blocked(s, i)
    ensures |Outcome(s, steps).runs| == |s.runs| && Outcome(s, steps).cursor == s.cursor
    ensures if Open(Outcome(s, steps).policy.status) then Blocked(Outcome(s, steps), i) else Released(Outcome(s, steps), i)
  {
    if steps != [] {
      var front, step := steps[..|steps| - 1], steps[|steps| - 1];
      CancelledGoalsBlockPolicies(s, i, front);
      EveryRunKeepsInv(s, front);
      var b := Outcome(s, front);
      if Blocked(b, i) {
        BlockedStep(b, i, step);
      } else {
        ReleasedStep(b, i, step);
      }
    }
  }

  /** As long as the grant is open, the blocked run is handed out again and again, and never starts. */
  lemma BlockedRunsNeverStart(s: State, i: nat, steps: seq<Step>, c: ClaimInput, d: StartInput)
    requires Inv(s) && AllEnabled(s, steps) && Blocked(s, i)
    ensures var f := Outcome(s, steps);
            Open(f.policy.status) ==>
              && i < |f.runs| && Start(f, d).Err?
              && (f.policy.status.Active? && AssertPolicy(f.policy, c.policyNow, c.authority, false).None? ==> Claim(f, c).1 == Dispatch(f.runs[i].key))
  {
    CancelledGoalsBlockPolicies(s, i, steps);
    EveryRunKeepsInv(s, steps);
    if Open(Outcome(s, steps).policy.status) {
      BlockedClaim(Outcome(s, steps), i, c);
      BlockedStart(Outcome(s, steps), i, d);
    }
  }

  /** A run from an accepted definition that leads there: the source changes, and the user cancels the new goal. */
  lemma BlockedPoliciesAreReachable(now: Time, periodMs: nat, at: Time) returns (p: Policy, steps: seq<Step>)
    requires periodMs == 86400000 || periodMs == 604800000
    ensures Create(p, now, 7).Ok? && AllEnabled(Create(p, now, 7).value, steps) && AllAgree(Create(p, now, 7).value, steps)
    ensures Blocked(Outcome(Create(p, now, 7).value, steps), 0)
  {
    p := OpenPolicy(now, periodMs);
    var s := Create(p, now, 7).value;
    var claim := ClaimStep(ClaimInput(now, at, at, None, Some(RunKey(1, 8)), 1));
    var cancel := GoalStep(1, NewGoal(1, SAMPLE).(status := Cancelled, cancellationRequested := true));
    StepOn(s, [], claim);
    FirstClaim(s, now, periodMs, at);
    StepOn(s, [] + [claim], cancel);
    steps := [] + [claim] + [cancel];
  }
}
