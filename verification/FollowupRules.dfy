/**
 The rules of the follow-up scheduler, one by one: when a claim adds a run, what a run's status says about its goal, which
 period a reading belongs to, and what starts, commands and failures do.
 */
module FollowupRules {
  import opened Options
  import opened GoalModel
  import opened Followup
  import opened FollowupSafety

  // ---------------------------------------------------------------- claims

  /** A recorded run that is over for now: it neither waits nor runs, and nothing about it is unknown. */
  predicate Over(r: Run) { r.status == RunAccepted || r.status == RunCancelled || r.status == RunFailed || r.status == RunAwaitingAcceptance }

  /** One more run at the full cap fits beside what the recorded runs are charged. */
  predicate RoomFor(s: State, runs: seq<Run>, start: Time, d: Dimension) {
    && Count(runs, start) < s.policy.periodMaxRuns
    && ChargeSum(s.policy.status, runs, start, d) + Amount(s.policy.cap, d) <= Amount(s.policy.periodLimit, d)
  }

  /** The policy may be claimed: it is active, not expired at the reading, and its authority holds. */
  predicate Claimable(p: Policy, now: Time, authority: Option<string>) { p.status == Active && now < p.expiresAt && authority == None }

  lemma NonePending(runs: seq<Run>)
    ensures FirstPending(runs) == None <==> forall r :: r in runs ==> r.status != RunPending
  {
    forall r | r in runs ensures exists i :: 0 <= i < |runs| && runs[i] == r {
    }
  }

  lemma RoomMeans(s: State, runs: seq<Run>, start: Time)
    requires Detail(s.policy, runs, start).Some?
    ensures PeriodHasRoom(s.policy, Detail(s.policy, runs, start).value) <==> RoomFor(s, runs, start, Tokens) && RoomFor(s, runs, start, Cost)
  {
    DetailAddsCharges(s.policy, runs, start, Tokens);
    DetailAddsCharges(s.policy, runs, start, Cost);
  }

  lemma AddsRunWhen(s: State, c: ClaimInput)
    requires s.policy.periodMs > 0
    ensures |Claim(s, c).0.runs| == |s.runs| + 1 <==>
              Claimable(s.policy, c.policyNow, c.authority) && MayReserve(ObserveAll(s), c)
    ensures |Claim(s, c).0.runs| == |s.runs| + 1 || |Claim(s, c).0.runs| == |s.runs|
  {
    assert |ObserveAll(s).runs| == |s.runs|;
  }

  lemma AllOver(runs: seq<Run>)
    ensures (forall r :: r in runs ==> Over(r)) <==>
            FirstPending(runs) == None && !(exists i :: 0 <= i < |runs| && Blocks(runs[i]))
  {
    NonePending(runs);
    assert forall i :: 0 <= i < |runs| ==> runs[i] in runs;
  }

  lemma NeverClaimed(s: State, key: RunKey)
    ensures HasRun(s, key) <==> exists r :: r in s.runs && r.key == key
  {
    assert forall i :: 0 <= i < |s.runs| ==> s.runs[i] in s.runs;
  }

  lemma ReservesWhen(o: State, c: ClaimInput)
    requires o.policy.periodMs > 0 && c.source.Some?
    ensures var start := PeriodStart(o.policy, c.detailNow);
            MayReserve(o, c) <==>
              && o.policy.status == Active && |o.runs| < o.policy.maxRuns
              && (forall r :: r in o.runs ==> Over(r))
              && o.cursor.Some? && o.cursor != Some(c.source.value.content)
              && !(exists r :: r in o.runs && r.key == c.source.value)
              && Detail(o.policy, o.runs, start).Some? && RoomFor(o, o.runs, start, Tokens) && RoomFor(o, o.runs, start, Cost)
  {
    AllOver(o.runs);
    NeverClaimed(o, c.source.value);
    if Detail(o.policy, o.runs, PeriodStart(o.policy, c.detailNow)).Some? {
      RoomMeans(o, o.runs, PeriodStart(o.policy, c.detailNow));
    }
  }

  /**
   A claim adds a run exactly when the policy is active, authorised and below its number of runs, every recorded run is
   over after being observed, the source shows new content not claimed before, and its period has room for the full cap.
   */
  lemma ClaimAddsRunExactlyWhen(s: State, c: ClaimInput)
    requires s.policy.periodMs > 0
    ensures var o := ObserveAll(s).runs;
            var start := PeriodStart(s.policy, c.detailNow);
            |Claim(s, c).0.runs| == |s.runs| + 1 <==>
              && Claimable(s.policy, c.policyNow, c.authority) && |s.runs| < s.policy.maxRuns
              && (forall r :: r in o ==> Over(r))
              && c.source.Some? && s.cursor.Some? && s.cursor != Some(c.source.value.content)
              && !(exists r :: r in o && r.key == c.source.value)
              && Detail(s.policy, o, start).Some? && RoomFor(s, o, start, Tokens) && RoomFor(s, o, start, Cost)
  {
    AddsRunWhen(s, c);
    if c.source.Some? {
      ReservesWhen(ObserveAll(s), c);
    }
  }

  /** The added run is pending, at the full cap, for the claimed source, in the period of the second reading; the claim hands it out. */
  lemma AddedRun(s: State, c: ClaimInput)
    requires s.policy.periodMs > 0 && |Claim(s, c).0.runs| == |s.runs| + 1
    ensures c.source.Some? && Claim(s, c).1 == Dispatch(c.source.value)
    ensures var n := Claim(s, c).0;
            && n.runs == ObserveAll(s).runs
                + [Run(c.source.value, RunPending, PeriodStart(s.policy, c.periodNow), s.policy.cap, None, c.goalId, None, "", 1)]
            && n.cursor == Some(c.source.value.content) && n.policy == s.policy
            && n.goals == s.goals[c.goalId := Goal(c.goalId, Draft, s.policy.cap, None, None, None, None, None, false, "", 1)]
            && n.events == ObserveAll(s).events + [RunReserved(c.source.value)]
  {
    AddsRunWhen(s, c);
  }

  /** In every reachable state, a claim that adds a run found every recorded run over: at most one is ever waiting or running. */
  lemma UnfinishedRunsHoldBackClaims(p: Policy, now: Time, content: nat, steps: seq<Step>, c: ClaimInput, i: nat)
    requires Create(p, now, content).Ok? && AllEnabled(Create(p, now, content).value, steps)
    requires i < |Outcome(Create(p, now, content).value, steps).runs|
    ensures var f := Outcome(Create(p, now, content).value, steps);
            |Claim(f, c).0.runs| > |f.runs| ==> Over(Claim(f, c).0.runs[i])
  {
    var f := Outcome(Create(p, now, content).value, steps);
    ClaimAddsRunExactlyWhen(f, c);
    AddsRunWhen(f, c);
    if |Claim(f, c).0.runs| > |f.runs| {
      AddedRun(f, c);
      assert ObserveAll(f).runs[i] in ObserveAll(f).runs;
    }
  }

  /** When nothing is added, a claim of an active policy hands out the pending run, or closes or exhausts the grant, or does nothing. */
  lemma OtherClaims(s: State, c: ClaimInput)
    requires s.policy.periodMs > 0 && |Claim(s, c).0.runs| == |s.runs|
    ensures Claim(s, c).0.cursor == s.cursor
    ensures Closed(s.policy.status) || s.policy.status == Exhausted ==> Claim(s, c) == (ObserveAll(s), NoDispatch)
    ensures (s.policy.status == Active || s.policy.status == PausedPolicy) && s.policy.expiresAt <= c.policyNow ==>
              Claim(s, c) == (Invalidate(ObserveAll(s), EXPIRED), NoDispatch)
    ensures (s.policy.status == Active || s.policy.status == PausedPolicy) && c.policyNow < s.policy.expiresAt && c.authority.Some? ==>
              Claim(s, c) == (Invalidate(ObserveAll(s), c.authority.value), NoDispatch)
    ensures s.policy.status == PausedPolicy && c.policyNow < s.policy.expiresAt && c.authority == None ==> Claim(s, c) == (ObserveAll(s), NoDispatch)
    ensures Claimable(s.policy, c.policyNow, c.authority) ==>
              var o := ObserveAll(s);
              if FirstPending(o.runs).Some? then Claim(s, c) == (o, Dispatch(FirstPending(o.runs).value))
              else if exists r :: r in o.runs && (r.status == RunRunning || r.status == RunNeedsReconciliation) then Claim(s, c) == (o, NoDispatch)
              else if |s.runs| >= s.policy.maxRuns then Claim(s, c) == (SetStatus(o, Exhausted), NoDispatch)
              else Claim(s, c) == (o, NoDispatch) || (Claim(s, c).0 == s && Claim(s, c).1.Threw?)
  {
    AddsRunWhen(s, c);
    assert (exists r :: r in ObserveAll(s).runs && (r.status == RunRunning || r.status == RunNeedsReconciliation))
       <==> (exists i :: 0 <= i < |ObserveAll(s).runs| && Blocks(ObserveAll(s).runs[i]));
  }

  // ---------------------------------------------------------------- observation

  /** Nothing in the books speaks against the run: its amount is known to fit what was reserved and did not fall. */
  predicate BooksAgree(r: Run, g: Goal) {
    g.reservation.Some? && g.reservation.value.actual.Some? ==>
      var actual := g.reservation.value.actual.value;
      && actual.currency == r.reserved.currency && actual.tokens <= r.reserved.tokens && actual.cost <= r.reserved.cost
      && (r.actual.Some? ==> actual.tokens >= r.actual.value.tokens && actual.cost >= r.actual.value.cost)
  }

  /** The usage is not declared unknown, and a closed outcome is settled. */
  predicate SettledEnough(g: Goal, closed: bool) {
    && (g.reservation.Some? ==> g.reservation.value.status != Unknown)
    && (closed ==> IsSettled(g))
  }

  /**
   An observed run of a dispatched goal has the outcome of its goal when the books agree with it, and needs
   reconciliation when they do not; any other status of the goal means that the run is still running.
   */
  lemma RunsFollowTheirGoals(r: Run, goals: map<nat, Goal>)
    requires r.goalId in goals && Dispatched(goals[r.goalId]) && !(r.status == RunCancelled && r.executionId == None)
    ensures var g, n := goals[r.goalId], Observed(r, goals);
            && (n.status == RunAccepted <==> g.status == Accepted && BooksAgree(r, g) && SettledEnough(g, true))
            && (n.status == RunCancelled <==> g.status == Cancelled && BooksAgree(r, g) && SettledEnough(g, true))
            && (n.status == RunFailed <==> g.status == Failed && BooksAgree(r, g) && SettledEnough(g, true))
            && (n.status == RunAwaitingAcceptance <==> g.status == AwaitingAcceptance && BooksAgree(r, g) && SettledEnough(g, false))
            && (n.status == RunRunning <==>
                  && !(g.status in {Accepted, Cancelled, Failed, AwaitingAcceptance, NeedsReconciliation})
                  && BooksAgree(r, g) && SettledEnough(g, false))
            && n.status != RunPending
            && n.executionId == (if g.executionRef.Some? then g.executionRef else r.executionId)
            && n.reasonCode == g.reasonCode
            && (n.actual == ActualOf(g) || n.actual == r.actual)
            && (g.reservation.Some? && g.reservation.value.actual.Some? && BooksAgree(r, g) ==> n.actual == g.reservation.value.actual)
  {
  }

  /** A run cancelled before its dispatch, and one whose goal is unknown, are left alone. */
  lemma ClosedRunsStay(r: Run, goals: map<nat, Goal>)
    requires (r.status == RunCancelled && r.executionId == None) || r.goalId !in goals
    ensures Observed(r, goals) == r
  {
  }

  /** The run of an undispatched goal keeps its status, unless that is a closed one without settlement or the books speak against it. */
  lemma UndispatchedRunsWait(r: Run, goals: map<nat, Goal>)
    requires r.goalId in goals && !Dispatched(goals[r.goalId]) && r.status == RunPending
    requires goals[r.goalId].reservation == None
    ensures Observed(r, goals).status == RunPending && Observed(r, goals).actual == r.actual
  {
  }

  /** The usage recorded is the goal's, unless it has none or less than was recorded before in one of the amounts. */
  lemma RecordedUsageIs(r: Run, goals: map<nat, Goal>)
    requires r.goalId in goals && !(r.status == RunCancelled && r.executionId == None)
    ensures var u := ActualOf(goals[r.goalId]);
            var less := u.Some? && r.actual.Some? && (u.value.tokens < r.actual.value.tokens || u.value.cost < r.actual.value.cost);
            Observed(r, goals).actual == if u.Some? && !less then u else r.actual
  {
  }

  /** Observing again finds nothing new while the goals stay: no version steps without a change. */
  lemma ObservingTwiceIsOnce(r: Run, goals: map<nat, Goal>)
    ensures Observed(r, goals) == r || Observed(r, goals).streamVersion == r.streamVersion + 1
    ensures var n := Observed(r, goals); n.(streamVersion := r.streamVersion) == r ==> n == r
  {
  }

  /** An observation keeps policy, goals, cursor and receipts, brings each run to its goal, and appends one event for each run that changed. */
  lemma ObservationsAre(s: State, key: RunKey)
    ensures var n := ObserveAll(s);
            && n.policy == s.policy && n.goals == s.goals && n.cursor == s.cursor && n.receipts == s.receipts
            && |n.runs| == |s.runs| && (forall i :: 0 <= i < |s.runs| ==> n.runs[i] == Observed(s.runs[i], s.goals))
            && |n.events| >= |s.events| && n.events[..|s.events|] == s.events
            && (RunObserved(key) in n.events[|s.events|..] <==>
                  exists i :: 0 <= i < |s.runs| && s.runs[i].key == key && Observed(s.runs[i], s.goals) != s.runs[i])
  {
    EventsOfChanges(s.runs, s.goals, key);
    assert (s.events + ObservationEvents(s.runs, s.goals))[|s.events|..] == ObservationEvents(s.runs, s.goals);
  }

  lemma {:induction false} EventsOfChanges(runs: seq<Run>, goals: map<nat, Goal>, key: RunKey)
    ensures RunObserved(key) in ObservationEvents(runs, goals) <==>
              exists i :: 0 <= i < |runs| && runs[i].key == key && Observed(runs[i], goals) != runs[i]
  {
    if runs != [] {
      var front, last := runs[..|runs| - 1], runs[|runs| - 1];
      EventsOfChanges(front, goals, key);
      assert forall i :: 0 <= i < |front| ==> front[i] == runs[i];
    }
  }

  /** Cancelling the waiting runs appends one event for each of them. */
  lemma {:induction false} EventsOfCancellations(runs: seq<Run>, key: RunKey)
    ensures RunCancelledPending(key) in CancellationEvents(runs) <==>
              exists i :: 0 <= i < |runs| && runs[i].key == key && runs[i].status == RunPending && runs[i].executionId == None
  {
    if runs != [] {
      var front, last := runs[..|runs| - 1], runs[|runs| - 1];
      EventsOfCancellations(front, key);
      assert forall i :: 0 <= i < |front| ==> front[i] == runs[i];
    }
  }

  /** Closing a grant is an event, followed by those of the runs it cancels. */
  lemma ClosingIsAnEvent(s: State, code: string)
    ensures Invalidate(s, code).events == s.events + [PolicyChanged(if code == "FOLLOWUP_EXPIRED" then Expired else Invalidated)] + CancellationEvents(s.runs)
    ensures SetStatus(s, Exhausted).events == s.events + [PolicyChanged(Exhausted)]
  {
  }

  /** The stream version of a run steps exactly when its record changes, and each change is one event. */
  lemma {:induction false} ChangesAreEvents(runs: seq<Run>, goals: map<nat, Goal>, i: nat)
    requires i < |runs|
    ensures Observed(runs[i], goals).streamVersion == runs[i].streamVersion + (if Observed(runs[i], goals) == runs[i] then 0 else 1)
    ensures Observed(runs[i], goals) != runs[i] ==> RunObserved(runs[i].key) in ObservationEvents(runs, goals)
  {
    if i < |runs| - 1 {
      ChangesAreEvents(runs[..|runs| - 1], goals, i);
    }
  }

  // ---------------------------------------------------------------- periods and totals

  lemma FloorOf(elapsed: int, m: nat)
    requires m > 0
    ensures elapsed - elapsed % m == (elapsed / m) * m && 0 <= elapsed % m < m
  {
  }

  /** A reading at or after creation lies in its period, and periods are whole multiples from the creation; earlier readings count as the first. */
  lemma PeriodHoldsItsReadings(p: Policy, now: Time)
    requires p.periodMs > 0
    ensures p.createdAt <= now ==> PeriodStart(p, now) <= now < PeriodStart(p, now) + p.periodMs
    ensures now < p.createdAt ==> PeriodStart(p, now) == p.createdAt
    ensures exists k: nat :: PeriodStart(p, now) == p.createdAt + k * p.periodMs
  {
    var elapsed := now - p.createdAt;
    FloorOf(elapsed, p.periodMs);
    var k: nat := if elapsed / p.periodMs > 0 then elapsed / p.periodMs else 0;
    assert PeriodStart(p, now) == p.createdAt + k * p.periodMs;
    if elapsed >= 0 {
      assert k == elapsed / p.periodMs;
    } else {
      NegativeQuotient(elapsed, p.periodMs);
    }
  }

  lemma NegativeQuotient(elapsed: int, m: nat)
    requires m > 0 && elapsed < 0
    ensures elapsed / m <= 0
  {
  }

  /** What of a run's reservation is still open to be spent. */
  function OpenPart(r: Run, d: Dimension): nat {
    var used := if r.actual.Some? then Amount(r.actual.value, d) else 0;
    if used < Amount(r.reserved, d) then Amount(r.reserved, d) - used else 0
  }

  function SettledSum(runs: seq<Run>, start: Time, d: Dimension): nat {
    if runs == [] then 0
    else
      var last := runs[|runs| - 1];
      SettledSum(runs[..|runs| - 1], start, d) + (if last.periodStart == start && last.actual.Some? then Amount(last.actual.value, d) else 0)
  }

  /** A run that still holds its reservation: unfinished, unless its grant is closed and it failed or awaits acceptance with known usage. */
  predicate HoldsReservation(status: PolicyStatus, r: Run) {
    && r.status != RunAccepted && r.status != RunCancelled
    && !((status == Stopped || status == Expired || status == Invalidated) && r.actual.Some? && (r.status == RunFailed || r.status == RunAwaitingAcceptance))
  }

  function OpenSum(status: PolicyStatus, runs: seq<Run>, start: Time, d: Dimension, unknown: bool): nat {
    if runs == [] then 0
    else
      var last := runs[|runs| - 1];
      OpenSum(status, runs[..|runs| - 1], start, d, unknown)
      + (if last.periodStart == start && HoldsReservation(status, last) && (last.status == RunNeedsReconciliation) == unknown then OpenPart(last, d) else 0)
  }

  /** The three totals apart: settled usage, open parts of held reservations, and those of runs to be reconciled. */
  lemma {:induction false} TotalsAreSums(p: Policy, runs: seq<Run>, start: Time, d: Dimension)
    requires Detail(p, runs, start).Some?
    ensures var t := Detail(p, runs, start).value;
            && Amount(t.settled, d) == SettledSum(runs, start, d)
            && Amount(t.reserved, d) == OpenSum(p.status, runs, start, d, false)
            && Amount(t.unknown, d) == OpenSum(p.status, runs, start, d, true)
            && t.settled.currency == t.reserved.currency == t.unknown.currency == p.periodLimit.currency
  {
    if runs != [] {
      TotalsAreSums(p, runs[..|runs| - 1], start, d);
    }
  }

  predicate SafeSums(p: Policy, runs: seq<Run>, start: Time) {
    && SettledSum(runs, start, Tokens) <= MAX_SAFE_INTEGER
    && OpenSum(p.status, runs, start, Tokens, false) <= MAX_SAFE_INTEGER && OpenSum(p.status, runs, start, Tokens, true) <= MAX_SAFE_INTEGER
  }

  predicate InCurrency(p: Policy, r: Run) {
    && (r.actual.Some? ==> r.actual.value.currency == p.periodLimit.currency)
    && (HoldsReservation(p.status, r) ==> r.reserved.currency == p.periodLimit.currency)
  }

  predicate OneCurrency(p: Policy, runs: seq<Run>, start: Time) {
    forall r :: r in runs && r.periodStart == start ==> InCurrency(p, r)
  }

  lemma OneCurrencyGrows(p: Policy, front: seq<Run>, last: Run, start: Time)
    ensures OneCurrency(p, front + [last], start) <==> OneCurrency(p, front, start) && (last.periodStart == start ==> InCurrency(p, last))
  {
    assert forall r :: r in front + [last] <==> r in front || r == last;
  }

  /** One more run can be added exactly when its amounts are in the currency and the three sums stay safe. */
  lemma AddsRunWhenSafe(p: Policy, t: Totals, r: Run)
    requires t.settled.currency == t.reserved.currency == t.unknown.currency == p.periodLimit.currency
    requires t.settled.tokens <= MAX_SAFE_INTEGER && t.reserved.tokens <= MAX_SAFE_INTEGER && t.unknown.tokens <= MAX_SAFE_INTEGER
    ensures AddRun(p.status, t, r).Some? <==>
              && InCurrency(p, r)
              && t.settled.tokens + (if r.actual.Some? then r.actual.value.tokens else 0) <= MAX_SAFE_INTEGER
              && (HoldsReservation(p.status, r) && r.status != RunNeedsReconciliation ==> t.reserved.tokens + OpenPart(r, Tokens) <= MAX_SAFE_INTEGER)
              && (HoldsReservation(p.status, r) && r.status == RunNeedsReconciliation ==> t.unknown.tokens + OpenPart(r, Tokens) <= MAX_SAFE_INTEGER)
  {
  }

  lemma SumsGrow(p: Policy, front: seq<Run>, last: Run, start: Time)
    ensures SafeSums(p, front + [last], start) ==> SafeSums(p, front, start)
    ensures SafeSums(p, front, start) ==>
              (SafeSums(p, front + [last], start) <==>
                 (last.periodStart == start ==>
                    && SettledSum(front, start, Tokens) + (if last.actual.Some? then last.actual.value.tokens else 0) <= MAX_SAFE_INTEGER
                    && (HoldsReservation(p.status, last) && last.status != RunNeedsReconciliation ==>
                          OpenSum(p.status, front, start, Tokens, false) + OpenPart(last, Tokens) <= MAX_SAFE_INTEGER)
                    && (HoldsReservation(p.status, last) && last.status == RunNeedsReconciliation ==>
                          OpenSum(p.status, front, start, Tokens, true) + OpenPart(last, Tokens) <= MAX_SAFE_INTEGER)))
  {
    assert (front + [last])[..|front|] == front;
  }

  /** The totals fail exactly for a foreign currency or a sum of tokens beyond the safe integers. */
  lemma {:induction false} TotalsFailExactlyWhen(p: Policy, runs: seq<Run>, start: Time)
    ensures Detail(p, runs, start).Some? <==> OneCurrency(p, runs, start) && SafeSums(p, runs, start)
  {
    if runs != [] {
      var front, last := runs[..|runs| - 1], runs[|runs| - 1];
      assert runs == front + [last];
      TotalsFailExactlyWhen(p, front, start);
      OneCurrencyGrows(p, front, last, start);
      SumsGrow(p, front, last, start);
      if Detail(p, front, start).Some? {
        TotalsAreSums(p, front, start, Tokens);
        AddsRunWhenSafe(p, Detail(p, front, start).value, last);
      }
    }
  }

  // ---------------------------------------------------------------- starts

  /** The run that a start names, and its goal. */
  predicate Names(s: State, i: nat, key: RunKey) {
    i < |s.runs| && s.runs[i].key == key && s.runs[i].goalId in s.goals
  }

  lemma NamedIsFound(s: State, i: nat, key: RunKey)
    requires DistinctKeys(s.runs) && Names(s, i, key)
    ensures IndexOf(s.runs, key) == Some(i)
  {
  }

  /**
   A start succeeds exactly for a pending run whose goal is planned and not dispatched, while the policy is active, not
   expired and authorised. It binds the execution to run and goal, reserves the goal's budget, and changes nothing else.
   */
  lemma StartsExactlyWhen(s: State, d: StartInput, i: nat)
    requires RunsOk(s) && Names(s, i, d.key)
    ensures var r, g := s.runs[i], s.goals[s.runs[i].goalId];
            && (Start(s, d).Ok? <==>
                  && r.status == RunPending && g.status == AwaitingAuthorization && g.executionRef == None && d.goalReady
                  && Claimable(s.policy, d.now, d.authority))
            && (Start(s, d).Ok? ==>
                  var n := Start(s, d).value;
                  && n.runs == s.runs[i := r.(status := RunRunning, executionId := Some(d.execution), streamVersion := r.streamVersion + 1)]
                  && n.goals == s.goals[r.goalId := g.(status := Running, reservation := Some(Reservation(Reserved, None)),
                                                       executionRef := Some(d.execution), streamVersion := g.streamVersion + 1)]
                  && n.policy == s.policy && n.cursor == s.cursor && n.events == s.events + [RunStarted(d.key)])
  {
    NamedIsFound(s, i, d.key);
  }

  // ---------------------------------------------------------------- commands and failures

  /** Pausing an active policy, resuming a paused one that may run again, and stopping one that is not closed succeed; nothing else does. */
  lemma CommandsExactlyWhen(s: State, c: CommandInput)
    requires c.idempotencyKey !in s.receipts
    ensures var command, n, status := c.request.command, CommandPolicy(s, c), s.policy.status;
            && (n.Ok? <==>
                  && s.policy.streamVersion == c.request.expectedVersion
                  && (command == Pause ==> status == Active)
                  && (command == Resume ==> status == PausedPolicy && c.now < s.policy.expiresAt && c.authority == None)
                  && (command == Stop ==> status == Active || status == PausedPolicy || status == Exhausted))
            && (n.Ok? ==>
                  && n.value.policy == s.policy.(status := if command == Pause then PausedPolicy else if command == Resume then Active else Stopped,
                                                 streamVersion := s.policy.streamVersion + 1)
                  && n.value.receipts == s.receipts[c.idempotencyKey := c.request]
                  && n.value.goals == s.goals && n.value.cursor == s.cursor
                  && (command != Stop ==> n.value.runs == s.runs)
                  && (command == Stop ==> n.value.runs == CancelledRuns(s.runs, STOPPED)))
  {
  }

  /** A repeated command changes nothing, and its key is refused to any other request. */
  lemma CommandsReplay(s: State, c: CommandInput, again: CommandInput)
    requires CommandPolicy(s, c).Ok? && again.idempotencyKey == c.idempotencyKey
    ensures var n := CommandPolicy(s, c).value;
            CommandPolicy(n, again) == if again.request == c.request then Ok(n) else Err("IDEMPOTENCY_KEY_REUSED")
  {
  }

  /** Cancelling the waiting runs touches exactly those: they end cancelled, at zero usage and with the reason. */
  lemma CancelledRunsAre(runs: seq<Run>, code: string, i: nat)
    requires i < |runs|
    ensures CancelledRuns(runs, code)[i] ==
              if runs[i].status == RunPending && runs[i].executionId == None
              then runs[i].(status := RunCancelled, actual := Some(Usage(runs[i].reserved.currency, 0, 0)), reasonCode := code, streamVersion := runs[i].streamVersion + 1)
              else runs[i]
  {
  }

  /** A failure closes an open grant for its reason and cancels the waiting runs, whichever the status; a lost race or a stop closes nothing. */
  lemma FailuresCloseGrants(s: State, code: Option<string>)
    ensures var n, status := RecoverError(s, code), s.policy.status;
            var harmless := code == None || code.value in {"STREAM_VERSION_CONFLICT", "FOLLOWUP_RUN_CHANGED", "FOLLOWUP_STOPPED"};
            && (harmless ==> n == s)
            && (!harmless && (status == Active || status == PausedPolicy) ==>
                  && n.policy == s.policy.(status := if code.value == "FOLLOWUP_EXPIRED" then Expired else Invalidated, streamVersion := s.policy.streamVersion + 1)
                  && n.runs == CancelledRuns(CancelledRuns(ObserveAll(s).runs, code.value), code.value))
            && (!harmless && status != Active && status != PausedPolicy ==> n.policy == s.policy && n.runs == CancelledRuns(ObserveAll(s).runs, code.value))
            && n.cursor == s.cursor && n.goals == s.goals && n.receipts == s.receipts
  {
  }

  /** A definition is accepted exactly within the documented bounds, and then starts an active policy without runs. */
  lemma CreatesExactlyWhen(p: Policy, now: Time, content: nat)
    ensures Create(p, now, content).Ok? <==>
              && 1 <= p.maxRuns <= 1000 && 1 <= p.periodMaxRuns <= 1000
              && p.periodMs in {24 * 60 * 60 * 1000, 7 * 24 * 60 * 60 * 1000}
              && p.cap.currency == p.periodLimit.currency && p.cap.tokens <= p.periodLimit.tokens && p.cap.cost <= p.periodLimit.cost
              && now < p.expiresAt && p.expiresAt - now <= 366 * 24 * 60 * 60 * 1000
    ensures Create(p, now, content).Ok? ==>
              var s := Create(p, now, content).value;
              && s.policy == p.(status := Active, createdAt := now, streamVersion := 1)
              && s.runs == [] && s.cursor == Some(content) && s.goals == map[] && s.receipts == map[] && s.events == [PolicyChanged(Active)]
  {
  }
}
