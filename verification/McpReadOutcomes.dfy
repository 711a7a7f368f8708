/** When a read is admitted, opened and closed, and with which outcome: what each step asks of records, flags and fences. */
module McpReadOutcomes {
  import opened Options
  import opened McpReads
  import opened McpReadSafety

  // ---------------------------------------------------------------- how a failed attempt is classified

  /**
   In every reachable state, a worker that classifies its failure under its lease closes the read as failed exactly when it
   never entered the transport and the read is either still unopened or was opened by this very worker, to its knowledge,
   under its fence. Otherwise the outcome stays open. Nothing else in the store changes.
   */
  lemma LiveClassificationsEndExactly(steps: seq<Step>, s: State, w: nat)
    requires Reaches(EMPTY, steps, s) && w in s.workers && s.workers[w].place.Catching? && s.workers[w].read in s.stored
    requires !s.stored[s.workers[w].read].commitment.Closed? && s.stored[s.workers[w].read].fence == s.workers[w].fence
    ensures var worker, id := s.workers[w], s.workers[w].read;
            var r, next := s.stored[id], CatchFailure(s, w, true);
            var outcome := if !worker.sent && (r.commitment == Queued || (worker.beganHere && r.startedFence == Some(worker.fence)))
                           then Failed else NeedsReconciliation;
            next == s.(stored := s.stored[id := r.(commitment := Closed(outcome), request := RequestClosed(outcome))],
                       workers := s.workers[w := worker.(place := Gone)])
  {
    EveryRunKeepsInv(EMPTY, steps, s);
    assert Fits(s, s.workers[w]) && Holds(s, s.workers[w].read);
  }

  /** Told by the steps: failed means that this worker never called out and either nobody opened the read or this worker did. */
  lemma FailedByTheSteps(steps: seq<Step>, s: State, w: nat)
    requires Reaches(EMPTY, steps, s) && w in s.workers && s.workers[w].place.Catching? && s.workers[w].read in s.stored
    requires !s.stored[s.workers[w].read].commitment.Closed? && s.stored[s.workers[w].read].fence == s.workers[w].fence
    ensures var r := s.stored[s.workers[w].read];
            var outcome := CatchFailure(s, w, true).stored[s.workers[w].read].commitment;
            && (outcome == Closed(Failed) <==> Call(w) !in steps && (r.commitment == Queued || s.workers[w].beganHere))
            && (outcome == Closed(Failed) && r.commitment != Queued ==> Begin(w, true, true) in steps)
            && (Call(w) in steps ==> outcome == Closed(NeedsReconciliation))
            && (r.commitment == Started && Begin(w, true, true) !in steps ==> outcome == Closed(NeedsReconciliation))
  {
    LiveClassificationsEndExactly(steps, s, w);
    EveryRunKeepsInv(EMPTY, steps, s);
    assert Fits(s, s.workers[w]);
    FlagsTellTheSteps(EMPTY, steps, s, w);
  }

  /** A worker's flag says that it entered the transport exactly when it did; it knows it began only after an acknowledged opening. */
  lemma {:induction false} FlagsTellTheSteps(s: State, steps: seq<Step>, last: State, w: nat)
    requires Reaches(s, steps, last) && w in last.workers
    ensures last.workers[w].sent <==> (w in s.workers && s.workers[w].sent) || Call(w) in steps
    ensures last.workers[w].beganHere ==> (w in s.workers && s.workers[w].beganHere) || Begin(w, true, true) in steps
    decreases |steps|
  {
    if steps != [] {
      var next := Apply(s, steps[0]);
      FlagsTellTheSteps(next, steps[1..], last, w);
      FlagsMove(s, steps[0], w);
      assert steps == [steps[0]] + steps[1..];
    }
  }

  lemma FlagsMove(s: State, step: Step, w: nat)
    requires Enabled(s, step)
    ensures FlagsFollow(s, step, Apply(s, step), w)
  {
    match step
    case Begin(v, allowed, acknowledged) => BeginningMovesFlags(s, v, allowed, acknowledged, w);
    case Complete(v, allowed, acknowledged) => CompletingMovesFlags(s, v, allowed, acknowledged, w);
    case Catch(v, live) => CatchingMovesFlags(s, v, live, w);
    case _ =>
  }

  predicate FlagsFollow(s: State, step: Step, next: State, w: nat) {
    && (w in next.workers && next.workers[w].sent <==> (w in s.workers && s.workers[w].sent) || step == Call(w))
    && (w in next.workers && next.workers[w].beganHere ==> (w in s.workers && s.workers[w].beganHere) || step == Begin(w, true, true))
  }

  lemma BeginningMovesFlags(s: State, v: nat, allowed: bool, acknowledged: bool, w: nat)
    requires At(s, v, Starting)
    ensures FlagsFollow(s, Begin(v, allowed, acknowledged), BeginRead(s, v, allowed, acknowledged), w)
  {
  }

  lemma CompletingMovesFlags(s: State, v: nat, allowed: bool, acknowledged: bool, w: nat)
    requires At(s, v, Answering)
    ensures FlagsFollow(s, Complete(v, allowed, acknowledged), CompleteRead(s, v, allowed, acknowledged), w)
  {
  }

  lemma CatchingMovesFlags(s: State, v: nat, live: bool, w: nat)
    requires Known(s, v) && s.workers[v].place.Catching?
    ensures FlagsFollow(s, Catch(v, live), CatchFailure(s, v, live), w)
  {
  }

  /** Without the lease, or once the read is closed, a classification writes nothing: the worker just goes away. */
  lemma LateClassificationsWriteNothing(s: State, w: nat, live: bool)
    requires w in s.workers && s.workers[w].place.Catching? && s.workers[w].read in s.stored
    requires !live || s.stored[s.workers[w].read].commitment.Closed? || s.stored[s.workers[w].read].fence != s.workers[w].fence
    ensures CatchFailure(s, w, live) == s.(workers := s.workers[w := s.workers[w].(place := Gone)])
  {
  }

  // ---------------------------------------------------------------- what the outcome does to the scope

  /** The outcome of the read is open: it was opened and not closed, or closed without knowing what became of it. */
  predicate Open(r: Read) { r.commitment == Started || r.commitment == Closed(NeedsReconciliation) }

  predicate ScopeFree(s: State, scope: nat) { forall id :: id in s.stored && s.stored[id].scope == scope ==> !Open(s.stored[id]) }

  /** Closing an opened read as failed or completed frees its scope, closing it as unknown does not. */
  lemma OutcomesDecideTheScope(steps: seq<Step>, s: State, w: nat)
    requires Reaches(EMPTY, steps, s) && w in s.workers && s.workers[w].place.Catching? && s.workers[w].read in s.stored
    requires s.stored[s.workers[w].read].commitment == Started && s.stored[s.workers[w].read].fence == s.workers[w].fence
    ensures var scope := s.stored[s.workers[w].read].scope;
            && !ScopeFree(s, scope)
            && (ScopeFree(CatchFailure(s, w, true), scope) <==> !s.workers[w].sent && s.workers[w].beganHere)
  {
    LiveClassificationsEndExactly(steps, s, w);
    EveryRunKeepsInv(EMPTY, steps, s);
    var id := s.workers[w].read;
    assert Fits(s, s.workers[w]) && Open(s.stored[id]);
    var next := CatchFailure(s, w, true);
    assert next.stored[id].scope == s.stored[id].scope;
    forall other | other in next.stored && next.stored[other].scope == s.stored[id].scope && other != id
      ensures !Open(next.stored[other])
    {
      assert Blocks(s.stored[id]) && next.stored[other] == s.stored[other];
    }
  }

  /** While a read of the scope awaits reconciliation no other is added to it, opened or sent, whatever else happens. */
  lemma UnknownReadsShutTheScope(steps: seq<Step>, mid: State, more: seq<Step>, last: State, id: nat, other: nat)
    requires Reaches(EMPTY, steps, mid) && Reaches(mid, more, last)
    requires id in mid.stored && mid.stored[id].commitment == Closed(NeedsReconciliation)
    requires other in last.stored && other != id && last.stored[other].scope == mid.stored[id].scope
    ensures other in mid.stored && (last.stored[other].commitment == mid.stored[other].commitment || last.stored[other].commitment == Closed(Failed))
    ensures other in last.sends ==> other in mid.sends
  {
    EveryRunKeepsInv(EMPTY, steps, mid);
    ShutScopesStay(mid, more, last, id, other);
    EveryRunKeepsInv(mid, more, last);
    ShutReadsAreUnsent(mid, last, id, other);
  }

  lemma ShutReadsAreUnsent(s: State, last: State, id: nat, other: nat)
    requires Inv(s) && Inv(last) && id in s.stored && s.stored[id].commitment == Closed(NeedsReconciliation)
    requires other in s.stored && other != id && s.stored[other].scope == s.stored[id].scope && other in last.stored
    requires last.stored[other].commitment == s.stored[other].commitment || last.stored[other].commitment == Closed(Failed)
    ensures other in last.sends ==> other in s.sends
  {
    OthersAreShut(s, id, other);
    SentHasOwner(last, other);
    ClosedReads(s, other);
    NothingNewWasSent(s.stored[other].commitment, last.stored[other].commitment);
  }

  lemma NothingNewWasSent(before: Commitment, after: Commitment)
    requires before != Started && before != Closed(NeedsReconciliation) && (after == before || after == Closed(Failed))
    ensures after == Queued || after == Closed(Failed) || before == Closed(Completed)
  {
    match before
    case Closed(Completed) =>
    case _ =>
  }

  lemma OthersAreShut(s: State, id: nat, other: nat)
    requires Inv(s) && id in s.stored && s.stored[id].commitment == Closed(NeedsReconciliation)
    requires other in s.stored && other != id && s.stored[other].scope == s.stored[id].scope
    ensures !Blocks(s.stored[other])
  {
    assert Blocks(s.stored[id]);
  }

  lemma ClosedReads(s: State, id: nat)
    requires Inv(s) && id in s.stored
    ensures s.stored[id].commitment == Closed(Completed) ==> id in s.sends
  {
    assert Holds(s, id);
  }

  lemma {:induction false} ShutScopesStay(s: State, steps: seq<Step>, last: State, id: nat, other: nat)
    requires Inv(s) && Reaches(s, steps, last) && id in s.stored && s.stored[id].commitment == Closed(NeedsReconciliation)
    requires other in last.stored && other != id && last.stored[other].scope == s.stored[id].scope
    ensures other in s.stored && s.stored[other].scope == s.stored[id].scope
    ensures last.stored[other].commitment == s.stored[other].commitment || last.stored[other].commitment == Closed(Failed)
    decreases |steps|
  {
    if steps != [] {
      StepKeepsInv(s, steps[0]);
      StepExtends(s, steps[0]);
      ScopesStay(s, steps[0], id);
      ShutScopesStay(Apply(s, steps[0]), steps[1..], last, id, other);
      ShutScopeStays(s, steps[0], id, other);
    }
  }

  lemma ScopesStay(s: State, step: Step, id: nat)
    requires Enabled(s, step) && id in s.stored
    ensures id in Apply(s, step).stored && Apply(s, step).stored[id].scope == s.stored[id].scope
  {
  }

  lemma ShutScopeStays(s: State, step: Step, id: nat, other: nat)
    requires Inv(s) && Enabled(s, step) && id in s.stored && s.stored[id].commitment == Closed(NeedsReconciliation)
    requires other in Apply(s, step).stored && other != id && Apply(s, step).stored[other].scope == s.stored[id].scope
    ensures other in s.stored && s.stored[other].scope == s.stored[id].scope
    ensures Apply(s, step).stored[other].commitment == s.stored[other].commitment || Apply(s, step).stored[other].commitment == Closed(Failed)
  {
    if other !in s.stored {
      NoneIsAdded(s, step, id, other);
    } else {
      ScopesStay(s, step, other);
      assert Blocks(s.stored[id]) && !Blocks(s.stored[other]);
      NoneIsOpened(s, step, id, other);
    }
  }

  lemma NoneIsAdded(s: State, step: Step, id: nat, other: nat)
    requires Enabled(s, step) && id in s.stored && s.stored[id].commitment == Closed(NeedsReconciliation)
    ensures other !in s.stored && other in Apply(s, step).stored ==> Apply(s, step).stored[other].scope != s.stored[id].scope
  {
    if step.Request? {
      ShutScopesAdmitNone(s, step.creation, id);
    } else {
      OnlyRequestsAdd(s, step);
    }
  }

  lemma ShutScopesAdmitNone(s: State, c: Creation, id: nat)
    requires c.id !in s.stored && id in s.stored && s.stored[id].commitment == Closed(NeedsReconciliation)
    ensures c.scope == s.stored[id].scope ==> Create(s, c).0 == s
  {
    assert Blocks(s.stored[id]);
    assert c.scope == s.stored[id].scope ==> ReplayBlocked(s.stored, c.id, c.scope);
  }

  lemma OnlyRequestsAdd(s: State, step: Step)
    requires Enabled(s, step) && !step.Request?
    ensures Apply(s, step).stored.Keys == s.stored.Keys
  {
  }

  lemma NoneIsOpened(s: State, step: Step, id: nat, other: nat)
    requires Inv(s) && Enabled(s, step) && id in s.stored && s.stored[id].commitment == Closed(NeedsReconciliation)
    requires other in s.stored && other != id && s.stored[other].scope == s.stored[id].scope && !Blocks(s.stored[other])
    ensures other in Apply(s, step).stored
    ensures Apply(s, step).stored[other].commitment == s.stored[other].commitment || Apply(s, step).stored[other].commitment == Closed(Failed)
  {
    if step.Begin? {
      ShutReadsAreNotOpened(s, step.worker, step.allowed, step.acknowledged, id, other);
    } else if step.Complete? {
      ClosedReadsAreNotCompleted(s, step.worker, step.allowed, step.acknowledged, other);
    } else if step.Catch? {
      CatchingOpensNone(s, step.worker, step.live, other);
    } else {
      OtherStepsCommitNothing(s, step, other);
    }
  }

  lemma OtherStepsCommitNothing(s: State, step: Step, other: nat)
    requires Enabled(s, step) && other in s.stored && !step.Begin? && !step.Complete? && !step.Catch?
    ensures other in Apply(s, step).stored && Apply(s, step).stored[other].commitment == s.stored[other].commitment
  {
  }

  lemma ShutReadsAreNotOpened(s: State, w: nat, allowed: bool, acknowledged: bool, id: nat, other: nat)
    requires At(s, w, Starting) && id in s.stored && s.stored[id].commitment == Closed(NeedsReconciliation)
    requires other in s.stored && other != id && s.stored[other].scope == s.stored[id].scope
    ensures other in BeginRead(s, w, allowed, acknowledged).stored
    ensures BeginRead(s, w, allowed, acknowledged).stored[other].commitment == s.stored[other].commitment
  {
    assert Blocks(s.stored[id]) && ReplayBlocked(s.stored, other, s.stored[other].scope);
  }

  lemma ClosedReadsAreNotCompleted(s: State, w: nat, allowed: bool, acknowledged: bool, other: nat)
    requires At(s, w, Answering) && other in s.stored && !Blocks(s.stored[other])
    ensures other in CompleteRead(s, w, allowed, acknowledged).stored
    ensures CompleteRead(s, w, allowed, acknowledged).stored[other].commitment == s.stored[other].commitment
  {
  }

  lemma CatchingOpensNone(s: State, w: nat, live: bool, other: nat)
    requires Inv(s) && Known(s, w) && s.workers[w].place.Catching? && other in s.stored && !Blocks(s.stored[other])
    ensures other in CatchFailure(s, w, live).stored
    ensures var after := CatchFailure(s, w, live).stored[other].commitment;
            after == s.stored[other].commitment || after == Closed(Failed)
  {
    if HoldsLease(s, w) {
      UnknownMeansStarted(s, w);
    }
  }

  // ---------------------------------------------------------------- when the other steps act

  /** A request is stored exactly when every check holds; then it is stored queued, with its receipt, and nothing else changes. */
  lemma CreatesExactlyWhen(s: State, c: Creation)
    requires c.id !in s.stored
    ensures var next := Create(s, c).0;
            && (c.id in next.stored <==>
                  && c.connection in s.connections && c.current && (c.connection, c.key) !in s.receipts
                  && s.connections[c.connection].streamVersion == c.expected && c.valid
                  && |set id | id in s.stored && s.stored[id].workspace == s.connections[c.connection].workspace| < 1000
                  && |set id | id in s.stored && s.stored[id].connection == c.connection| < s.connections[c.connection].maxRequests
                  && ScopeFree(s, c.scope))
            && (c.id in next.stored ==>
                  && c.connection in s.connections && Create(s, c).1 == Ok(c.id)
                  && next == s.(stored := s.stored[c.id := Read(c.connection, s.connections[c.connection].workspace, c.scope,
                                                                RequestQueued, Queued, None, 0)],
                                receipts := s.receipts[(c.connection, c.key) := Receipt(c.body, c.id)]))
            && (c.id !in next.stored ==> next == s)
  {
    if c.connection in s.connections {
      var workspace := s.connections[c.connection].workspace;
      assert OfWorkspace(s.stored, workspace) == set id | id in s.stored && s.stored[id].workspace == workspace;
      assert OfConnection(s.stored, c.connection) == set id | id in s.stored && s.stored[id].connection == c.connection;
    }
    assert ReplayBlocked(s.stored, c.id, c.scope) <==> !ScopeFree(s, c.scope) by {
      if id :| id in s.stored && s.stored[id].scope == c.scope && Open(s.stored[id]) {
        assert Blocks(s.stored[id]) && id != c.id;
      }
    }
  }

  /** What is not stored is refused, unless the key is known with the same body: then the read stored first is named. */
  lemma RepeatsAnswerExactlyWhen(s: State, c: Creation)
    requires c.id !in s.stored && c.id !in Create(s, c).0.stored
    ensures Create(s, c).1.Ok? <==>
              && c.connection in s.connections && c.current
              && (c.connection, c.key) in s.receipts && s.receipts[(c.connection, c.key)].body == c.body
    ensures Create(s, c).1.Ok? ==> Create(s, c).1.value == s.receipts[(c.connection, c.key)].read
  {
  }

  /**
   A worker opens its read exactly when it is allowed, holds the latest lease and finds the read queued and its scope
   free. It then commits under its fence, and goes on only if it learns of it; else it fails, and says whether the read was open.
   */
  lemma OpensExactlyWhen(s: State, w: nat, allowed: bool, acknowledged: bool)
    requires w in s.workers && s.workers[w].read in s.stored && s.workers[w].place == Starting
    ensures var worker, id := s.workers[w], s.workers[w].read;
            var r, next := s.stored[id], BeginRead(s, w, allowed, acknowledged);
            var opens := allowed && r.commitment == Queued && r.fence == worker.fence && ScopeFree(s, r.scope);
            && (opens ==> next == s.(stored := s.stored[id := r.(commitment := Started, startedFence := Some(worker.fence), request := RequestRunning)],
                                     workers := s.workers[w := worker.(place := if acknowledged then Begun else Catching(false), beganHere := acknowledged)]))
            && (!opens ==> next.stored == s.stored
                           && next == s.(workers := s.workers[w := worker.(place := Catching(allowed && r.commitment == Started && r.fence == worker.fence))]))
  {
    var id := s.workers[w].read;
    var r := s.stored[id];
    assert r.commitment == Queued ==> (ReplayBlocked(s.stored, id, r.scope) <==> !ScopeFree(s, r.scope)) by {
      if other :| other in s.stored && s.stored[other].scope == r.scope && Open(s.stored[other]) {
        assert Blocks(s.stored[other]);
      }
    }
  }

  /** Past the opening a worker goes on exactly while it is allowed and its lease is the latest of an unclosed read. */
  lemma GoesOnExactlyWhen(s: State, w: nat, allowed: bool, next: Place)
    requires w in s.workers && s.workers[w].read in s.stored && (next == Cleared || next == Posting)
    ensures var r, after := s.stored[s.workers[w].read], CheckAllowed(s, w, allowed, next);
            && after == s.(workers := s.workers[w := s.workers[w].(place := after.workers[w].place)])
            && (after.workers[w].place == next <==> allowed && !r.commitment.Closed? && r.fence == s.workers[w].fence)
            && (after.workers[w].place != next ==> after.workers[w].place == Catching(false))
  {
  }

  /** In every reachable state a good answer completes the read exactly while its worker is allowed and holds the latest lease. */
  lemma CompletesExactlyWhen(steps: seq<Step>, s: State, w: nat, allowed: bool, acknowledged: bool)
    requires Reaches(EMPTY, steps, s) && w in s.workers && s.workers[w].read in s.stored && s.workers[w].place == Answering
    ensures var worker, id := s.workers[w], s.workers[w].read;
            var r, next := s.stored[id], CompleteRead(s, w, allowed, acknowledged);
            var completes := allowed && !r.commitment.Closed? && r.fence == worker.fence;
            && (completes ==> next == s.(stored := s.stored[id := r.(commitment := Closed(Completed), request := RequestClosed(Completed))],
                                         workers := s.workers[w := worker.(place := if acknowledged then Gone else Catching(false))]))
            && (!completes ==> next == s.(workers := s.workers[w := worker.(place := Catching(false))]))
  {
    EveryRunKeepsInv(EMPTY, steps, s);
    assert Fits(s, s.workers[w]);
  }

  /** A lease raises the fence by one and takes it from every worker that had one before. */
  lemma LeasesTakeOver(steps: seq<Step>, s: State, w: nat, id: nat, v: nat)
    requires Reaches(EMPTY, steps, s) && w !in s.workers && id in s.stored && v in s.workers && s.workers[v].read == id
    ensures var next := LeaseTo(s, w, id);
            && next.stored == s.stored[id := s.stored[id].(fence := s.stored[id].fence + 1)]
            && next.workers == s.workers[w := Worker(id, s.stored[id].fence + 1, Starting, false, false, false)]
            && next.workers[v].fence < next.stored[id].fence == next.workers[w].fence
  {
    GivenFencesAreLower(steps, s, id, v);
  }

  lemma GivenFencesAreLower(steps: seq<Step>, s: State, id: nat, v: nat)
    requires Reaches(EMPTY, steps, s) && id in s.stored && v in s.workers && s.workers[v].read == id
    ensures s.workers[v].fence <= s.stored[id].fence
  {
    EveryRunKeepsInv(EMPTY, steps, s);
    OlderFences(s, id);
  }

  // ---------------------------------------------------------------- an undisturbed read

  /** The steps of a read nothing interferes with, up to its opening, asked for at the version its connection was last given. */
  function Opening(value: Connection, version: nat, c: Creation, w: nat): seq<Step> {
    [Connect(c.connection, value), Reconfigure(c.connection, version), Request(c), Lease(w, c.id), Begin(w, true, true)]
  }

  /** The steps after its opening. */
  function Closing(w: nat): seq<Step> {
    [Clear(w, true), Call(w), Boundary(w, true), Send(w), Complete(w, true, true)]
  }

  /** The only read of its connection, whatever stands in the table of receipts. */
  function OnlyRead(value: Connection, version: nat, c: Creation, r: Read, workers: map<nat, Worker>, sends: seq<nat>): State {
    State(map[c.connection := value.(streamVersion := version)], map[c.id := r], map[(c.connection, c.key) := Receipt(c.body, c.id)], workers, sends)
  }

  function Opened(value: Connection, version: nat, c: Creation, w: nat): State {
    OnlyRead(value, version, c, Read(c.connection, value.workspace, c.scope, RequestRunning, Started, Some(1), 1),
             map[w := Worker(c.id, 1, Begun, false, true, false)], [])
  }

  function Finished(value: Connection, version: nat, c: Creation, w: nat): State {
    OnlyRead(value, version, c, Read(c.connection, value.workspace, c.scope, RequestClosed(Completed), Closed(Completed), Some(1), 1),
             map[w := Worker(c.id, 1, Gone, true, true, true)], [c.id])
  }

  /** A read nothing interferes with, the first of its connection, is opened, sent once, and completes. */
  lemma UndisturbedReadsComplete(value: Connection, version: nat, c: Creation, w: nat)
    requires c.current && c.valid && c.expected == version && value.maxRequests > 0
    ensures Reaches(EMPTY, Opening(value, version, c, w) + Closing(w), Finished(value, version, c, w))
  {
    OpeningOpens(value, version, c, w);
    ClosingCloses(value, version, c, w);
    RunsJoin(EMPTY, Opening(value, version, c, w), Opened(value, version, c, w), Closing(w), Finished(value, version, c, w));
  }

  lemma OpeningOpens(value: Connection, version: nat, c: Creation, w: nat)
    requires c.current && c.valid && c.expected == version && value.maxRequests > 0
    ensures Reaches(EMPTY, Opening(value, version, c, w), Opened(value, version, c, w))
  {
    var read := Read(c.connection, value.workspace, c.scope, RequestQueued, Queued, None, 0);
    var last := Opened(value, version, c, w);
    var s1 := EMPTY.(connections := map[c.connection := value]);
    var s2 := EMPTY.(connections := map[c.connection := value.(streamVersion := version)]);
    var s3 := OnlyRead(value, version, c, read, map[], []);
    var s4 := OnlyRead(value, version, c, read.(fence := 1), map[w := Worker(c.id, 1, Starting, false, false, false)], []);
    FirstReadsAreAdmitted(s2, c);
    FirstReadsOpen(value, version, c, w, s4);
    assert Reaches(last, [], last);
    var from4 := [Begin(w, true, true)];
    OneMoreStep(s4, Begin(w, true, true), last, [], last);
    OneMoreStep(s3, Lease(w, c.id), s4, from4, last);
    OneMoreStep(s2, Request(c), s3, [Lease(w, c.id)] + from4, last);
    OneMoreStep(s1, Reconfigure(c.connection, version), s2, [Request(c)] + ([Lease(w, c.id)] + from4), last);
    OneMoreStep(EMPTY, Connect(c.connection, value), s1, [Reconfigure(c.connection, version)] + ([Request(c)] + ([Lease(w, c.id)] + from4)), last);
    assert Opening(value, version, c, w)
        == [Connect(c.connection, value)] + ([Reconfigure(c.connection, version)] + ([Request(c)] + ([Lease(w, c.id)] + from4)));
  }

  lemma FirstReadsAreAdmitted(s: State, c: Creation)
    requires s.stored == map[] && s.receipts == map[] && c.connection in s.connections && c.current && c.valid
    requires s.connections[c.connection].streamVersion == c.expected && s.connections[c.connection].maxRequests > 0
    ensures Create(s, c).1 == Ok(c.id)
  {
    var target := s.connections[c.connection];
    assert OfWorkspace(s.stored, target.workspace) == {} && OfConnection(s.stored, c.connection) == {};
  }

  lemma FirstReadsOpen(value: Connection, version: nat, c: Creation, w: nat, s: State)
    requires s == OnlyRead(value, version, c, Read(c.connection, value.workspace, c.scope, RequestQueued, Queued, None, 1),
                           map[w := Worker(c.id, 1, Starting, false, false, false)], [])
    ensures At(s, w, Starting) && BeginRead(s, w, true, true) == Opened(value, version, c, w)
  {
    assert !ReplayBlocked(s.stored, c.id, c.scope);
  }

  /** The read under way, with its worker at a place. */
  function UnderWay(value: Connection, version: nat, c: Creation, w: nat, place: Place, sent: bool, posted: bool): State {
    OnlyRead(value, version, c, Read(c.connection, value.workspace, c.scope, RequestRunning, Started, Some(1), 1),
             map[w := Worker(c.id, 1, place, sent, true, posted)], if posted then [c.id] else [])
  }

  lemma Clears(value: Connection, version: nat, c: Creation, w: nat, rest: seq<Step>, last: State)
    requires Reaches(UnderWay(value, version, c, w, Cleared, false, false), rest, last)
    ensures Reaches(Opened(value, version, c, w), [Clear(w, true)] + rest, last)
  {
    OneMoreStep(Opened(value, version, c, w), Clear(w, true), UnderWay(value, version, c, w, Cleared, false, false), rest, last);
  }

  lemma Calls(value: Connection, version: nat, c: Creation, w: nat, rest: seq<Step>, last: State)
    requires Reaches(UnderWay(value, version, c, w, Calling, true, false), rest, last)
    ensures Reaches(UnderWay(value, version, c, w, Cleared, false, false), [Call(w)] + rest, last)
  {
    OneMoreStep(UnderWay(value, version, c, w, Cleared, false, false), Call(w), UnderWay(value, version, c, w, Calling, true, false), rest, last);
  }

  lemma Passes(value: Connection, version: nat, c: Creation, w: nat, rest: seq<Step>, last: State)
    requires Reaches(UnderWay(value, version, c, w, Posting, true, false), rest, last)
    ensures Reaches(UnderWay(value, version, c, w, Calling, true, false), [Boundary(w, true)] + rest, last)
  {
    OneMoreStep(UnderWay(value, version, c, w, Calling, true, false), Boundary(w, true), UnderWay(value, version, c, w, Posting, true, false), rest, last);
  }

  lemma Sends(value: Connection, version: nat, c: Creation, w: nat, rest: seq<Step>, last: State)
    requires Reaches(UnderWay(value, version, c, w, Answering, true, true), rest, last)
    ensures Reaches(UnderWay(value, version, c, w, Posting, true, false), [Send(w)] + rest, last)
  {
    OneMoreStep(UnderWay(value, version, c, w, Posting, true, false), Send(w), UnderWay(value, version, c, w, Answering, true, true), rest, last);
  }

  lemma Completes(value: Connection, version: nat, c: Creation, w: nat)
    ensures Reaches(UnderWay(value, version, c, w, Answering, true, true), [Complete(w, true, true)], Finished(value, version, c, w))
  {
    var last := Finished(value, version, c, w);
    assert Reaches(last, [], last);
    OneMoreStep(UnderWay(value, version, c, w, Answering, true, true), Complete(w, true, true), last, [], last);
  }

  lemma ClosingCloses(value: Connection, version: nat, c: Creation, w: nat)
    ensures Reaches(Opened(value, version, c, w), Closing(w), Finished(value, version, c, w))
  {
    var last := Finished(value, version, c, w);
    var sent := [Complete(w, true, true)];
    Completes(value, version, c, w);
    Sends(value, version, c, w, sent, last);
    Passes(value, version, c, w, [Send(w)] + sent, last);
    Calls(value, version, c, w, [Boundary(w, true)] + ([Send(w)] + sent), last);
    Clears(value, version, c, w, [Call(w)] + ([Boundary(w, true)] + ([Send(w)] + sent)), last);
    assert Closing(w) == [Clear(w, true)] + ([Call(w)] + ([Boundary(w, true)] + ([Send(w)] + sent)));
  }

  lemma OneMoreStep(s: State, step: Step, next: State, rest: seq<Step>, last: State)
    requires Enabled(s, step) && Apply(s, step) == next && Reaches(next, rest, last)
    ensures Reaches(s, [step] + rest, last)
  {
    assert ([step] + rest)[1..] == rest;
  }

  lemma {:induction false} RunsJoin(s: State, steps: seq<Step>, mid: State, more: seq<Step>, last: State)
    requires Reaches(s, steps, mid) && Reaches(mid, more, last)
    ensures Reaches(s, steps + more, last)
    decreases |steps|
  {
    if steps == [] {
      assert steps + more == more;
    } else {
      RunsJoin(Apply(s, steps[0]), steps[1..], mid, more, last);
      assert (steps + more)[1..] == steps[1..] + more;
    }
  }
}
