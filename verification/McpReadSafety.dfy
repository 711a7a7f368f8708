/** Safety of external reads over every schedule of requests, leases, crashes and lost acknowledgements. */
module McpReadSafety {
  import opened Options
  import opened McpReads

  // ---------------------------------------------------------------- changing one worker, one read

  predicate Fits(s: State, worker: Worker) {
    worker.read in s.stored && WorkerOk(worker, s.stored[worker.read], worker.read in s.sends)
  }

  predicate Holds(s: State, id: nat)
    requires id in s.stored
  {
    ReadOk(s.stored[id], id in s.sends)
  }

  lemma SendersRemain(workers: map<nat, Worker>, sends: seq<nat>, next: map<nat, Worker>)
    requires SendsOk(workers, sends)
    requires forall w :: w in workers && workers[w].posted ==> w in next && next[w].posted && next[w].read == workers[w].read
    ensures SendsOk(next, sends)
  {
    forall id | id in sends ensures SentByOwner(next, id) {
      assert SentByOwner(workers, id);
      var w :| w in workers && workers[w].read == id && workers[w].posted;
      assert next[w].posted && next[w].read == id;
    }
  }

  lemma WorkersRemain(s: State, w: nat, worker: Worker)
    requires WorkersOk(s) && w in s.workers && Fits(s, worker)
    requires worker.read == s.workers[w].read && worker.fence == s.workers[w].fence
    ensures WorkersOk(s.(workers := s.workers[w := worker]))
  {
    var next := s.(workers := s.workers[w := worker]);
    forall v | v in next.workers ensures Fits(next, next.workers[v]) {
      assert v != w ==> Fits(s, s.workers[v]);
    }
  }

  lemma WorkerChangeKeepsInv(s: State, w: nat, worker: Worker)
    requires Inv(s) && w in s.workers && Fits(s, worker)
    requires worker.read == s.workers[w].read && worker.fence == s.workers[w].fence && worker.posted == s.workers[w].posted
    ensures Inv(s.(workers := s.workers[w := worker]))
  {
    WorkersRemain(s, w, worker);
    SendersRemain(s.workers, s.sends, s.workers[w := worker]);
  }

  lemma LimitsRemain(connections: map<nat, Connection>, stored: map<nat, Read>, next: map<nat, Read>)
    requires LimitsOk(connections, stored) && next.Keys == stored.Keys
    requires forall id :: id in stored ==> next[id].connection == stored[id].connection && next[id].workspace == stored[id].workspace
    ensures LimitsOk(connections, next)
  {
    forall id | id in next ensures LimitOk(connections, next, next[id]) {
      var r := stored[id];
      assert LimitOk(connections, stored, r);
      assert OfConnection(next, r.connection) == OfConnection(stored, r.connection);
      assert OfWorkspace(next, r.workspace) == OfWorkspace(stored, r.workspace);
    }
  }

  lemma WorkersAcceptRead(s: State, id: nat, r: Read)
    requires WorkersOk(s) && id in s.stored
    requires forall w :: w in s.workers && s.workers[w].read == id ==> WorkerOk(s.workers[w], r, id in s.sends)
    ensures WorkersOk(s.(stored := s.stored[id := r]))
  {
    var next := s.(stored := s.stored[id := r]);
    forall w | w in next.workers ensures Fits(next, next.workers[w]) {
      assert s.workers[w].read != id ==> Fits(s, s.workers[w]);
    }
  }

  lemma ScopesAcceptRead(stored: map<nat, Read>, id: nat, r: Read)
    requires ScopesOk(stored) && id in stored && r.scope == stored[id].scope
    requires Blocks(r) ==> Blocks(stored[id]) || !ReplayBlocked(stored, id, r.scope)
    ensures ScopesOk(stored[id := r])
  {
    assert Blocks(r) && !Blocks(stored[id]) ==>
        forall x :: x in stored && x != id && stored[x].scope == r.scope ==> !Blocks(stored[x]);
  }

  lemma ReadChangeKeepsInv(s: State, id: nat, r: Read)
    requires Inv(s) && id in s.stored && ReadOk(r, id in s.sends)
    requires r.connection == s.stored[id].connection && r.workspace == s.stored[id].workspace && r.scope == s.stored[id].scope
    requires forall w :: w in s.workers && s.workers[w].read == id ==> WorkerOk(s.workers[w], r, id in s.sends)
    requires Blocks(r) ==> Blocks(s.stored[id]) || !ReplayBlocked(s.stored, id, r.scope)
    ensures Inv(s.(stored := s.stored[id := r]))
  {
    WorkersAcceptRead(s, id, r);
    ScopesAcceptRead(s.stored, id, r);
    LimitsRemain(s.connections, s.stored, s.stored[id := r]);
  }

  // ---------------------------------------------------------------- the worker's steps

  lemma RaisedFits(worker: Worker, r: Read, left: bool)
    requires WorkerOk(worker, r, left)
    ensures WorkerOk(worker, r.(fence := r.fence + 1), left) && worker.fence <= r.fence
  {
  }

  lemma WorkersFitRaised(s: State, id: nat)
    requires WorkersOk(s) && id in s.stored
    ensures forall v :: v in s.workers && s.workers[v].read == id ==>
              WorkerOk(s.workers[v], s.stored[id].(fence := s.stored[id].fence + 1), id in s.sends) && s.workers[v].fence <= s.stored[id].fence
  {
    forall v | v in s.workers && s.workers[v].read == id
      ensures WorkerOk(s.workers[v], s.stored[id].(fence := s.stored[id].fence + 1), id in s.sends) && s.workers[v].fence <= s.stored[id].fence
    {
      RaisedFits(s.workers[v], s.stored[id], id in s.sends);
    }
  }

  /** Raising the fence takes nothing from the workers that came before, and leaves the new fence to the next one. */
  lemma FenceRises(s: State, id: nat, r: Read)
    requires Inv(s) && id in s.stored && r == s.stored[id].(fence := s.stored[id].fence + 1)
    ensures Inv(s.(stored := s.stored[id := r]))
  {
    WorkersFitRaised(s, id);
    RaisedReadOk(s.stored[id], id in s.sends);
    ReadChangeKeepsInv(s, id, r);
  }

  lemma RaisedReadOk(r: Read, left: bool)
    requires ReadOk(r, left)
    ensures ReadOk(r.(fence := r.fence + 1), left) && Blocks(r.(fence := r.fence + 1)) == Blocks(r)
  {
  }

  lemma WorkersAcceptWorker(s: State, w: nat, worker: Worker)
    requires WorkersOk(s) && w !in s.workers && Fits(s, worker)
    requires forall v :: v in s.workers && s.workers[v].read == worker.read ==> s.workers[v].fence < worker.fence
    ensures WorkersOk(s.(workers := s.workers[w := worker]))
  {
    var next := s.(workers := s.workers[w := worker]);
    forall v | v in next.workers ensures Fits(next, next.workers[v]) {
      assert v != w ==> Fits(s, s.workers[v]);
    }
  }

  lemma NewWorkerKeepsInv(s: State, w: nat, worker: Worker)
    requires Inv(s) && w !in s.workers && Fits(s, worker)
    requires forall v :: v in s.workers && s.workers[v].read == worker.read ==> s.workers[v].fence < worker.fence
    ensures Inv(s.(workers := s.workers[w := worker]))
  {
    WorkersAcceptWorker(s, w, worker);
    SendersRemain(s.workers, s.sends, s.workers[w := worker]);
  }

  lemma LeasingKeepsInv(s: State, w: nat, id: nat)
    requires Inv(s) && Enabled(s, Lease(w, id))
    ensures Inv(LeaseTo(s, w, id))
  {
    var r := s.stored[id].(fence := s.stored[id].fence + 1);
    var raised := s.(stored := s.stored[id := r]);
    FenceRises(s, id, r);
    OlderFences(s, id);
    NewWorkerFits(raised, id);
    NewWorkerKeepsInv(raised, w, Worker(id, r.fence, Starting, false, false, false));
  }

  lemma OlderFences(s: State, id: nat)
    requires WorkersOk(s) && id in s.stored
    ensures forall v :: v in s.workers && s.workers[v].read == id ==> s.workers[v].fence <= s.stored[id].fence
  {
    WorkersFitRaised(s, id);
  }

  lemma NewWorkerFits(s: State, id: nat)
    requires id in s.stored
    ensures Fits(s, Worker(id, s.stored[id].fence, Starting, false, false, false))
  {
  }

  lemma LeavingFits(worker: Worker, r: Read, left: bool, place: Place)
    requires WorkerOk(worker, r, left)
    requires place.Gone? || (place.Catching? && (worker.place.Gone? ==> !Owns(worker)) && (place.alreadyStarted ==> !r.commitment.Queued? && !Owns(worker))
                             && (r.commitment == Closed(Failed) ==> !Owns(worker)))
    ensures WorkerOk(worker.(place := place), r, left)
  {
  }

  lemma PlaceKeepsInv(s: State, w: nat, place: Place)
    requires Inv(s) && Known(s, w)
    requires place.Gone? || (place.Catching? && !s.workers[w].place.Gone?
                             && (place.alreadyStarted ==> !s.stored[s.workers[w].read].commitment.Queued? && !Owns(s.workers[w])))
    ensures Inv(AtPlace(s, w, place))
  {
    var worker := s.workers[w];
    assert Fits(s, worker);
    LeavingFits(worker, s.stored[worker.read], worker.read in s.sends, place);
    WorkerChangeKeepsInv(s, w, worker.(place := place));
  }

  lemma StartingFits(s: State, w: nat)
    requires Inv(s) && At(s, w, Starting) && s.stored[s.workers[w].read].commitment.Queued?
    ensures var worker := s.workers[w];
            var started := s.stored[worker.read].(commitment := Started, startedFence := Some(worker.fence), request := RequestRunning);
            && ReadOk(started, worker.read in s.sends)
            && (forall v :: v in s.workers && s.workers[v].read == worker.read ==> WorkerOk(s.workers[v], started, worker.read in s.sends))
            && WorkerOk(worker.(place := Begun, beganHere := true), started, worker.read in s.sends)
            && WorkerOk(worker.(place := Catching(false)), started, worker.read in s.sends)
  {
    var worker := s.workers[w];
    assert Fits(s, worker) && Holds(s, worker.read);
    var started := s.stored[worker.read].(commitment := Started, startedFence := Some(worker.fence), request := RequestRunning);
    forall v | v in s.workers && s.workers[v].read == worker.read
      ensures WorkerOk(s.workers[v], started, worker.read in s.sends)
    {
      assert Fits(s, s.workers[v]);
    }
  }

  lemma BeginningKeepsInv(s: State, w: nat, allowed: bool, acknowledged: bool)
    requires Inv(s) && At(s, w, Starting)
    ensures Inv(BeginRead(s, w, allowed, acknowledged))
  {
    var worker := s.workers[w];
    var id := worker.read;
    var r := s.stored[id];
    assert Fits(s, worker);
    if !allowed || !HoldsLease(s, w) || !r.commitment.Queued? || ReplayBlocked(s.stored, id, r.scope) {
      PlaceKeepsInv(s, w, Catching(allowed && HoldsLease(s, w) && !r.commitment.Queued?));
    } else {
      StartingFits(s, w);
      var started := r.(commitment := Started, startedFence := Some(worker.fence), request := RequestRunning);
      ReadChangeKeepsInv(s, id, started);
      WorkerChangeKeepsInv(s.(stored := s.stored[id := started]), w,
                           worker.(place := if acknowledged then Begun else Catching(false), beganHere := acknowledged));
    }
  }

  lemma MovingKeepsInv(s: State, w: nat, allowed: bool, from: Place, to: Place)
    requires Inv(s) && At(s, w, from) && ((from.Begun? && to.Cleared?) || (from.Calling? && to.Posting?))
    ensures Inv(CheckAllowed(s, w, allowed, to))
  {
    var worker := s.workers[w];
    assert Fits(s, worker);
    if allowed && HoldsLease(s, w) {
      WorkerChangeKeepsInv(s, w, worker.(place := to));
    } else {
      PlaceKeepsInv(s, w, Catching(false));
    }
  }

  /** Two workers never both own one read: the fence of the commitment tells them apart. */
  lemma OneOwner(s: State, v: nat, w: nat)
    requires Inv(s) && v in s.workers && w in s.workers && s.workers[v].read == s.workers[w].read
    requires Owns(s.workers[v]) && Owns(s.workers[w])
    ensures v == w
  {
    assert Fits(s, s.workers[v]) && Fits(s, s.workers[w]);
  }

  lemma NotYetSent(s: State, w: nat)
    requires Inv(s) && At(s, w, Posting)
    ensures s.workers[w].read !in s.sends
  {
    var id := s.workers[w].read;
    assert Fits(s, s.workers[w]);
    if id in s.sends {
      assert SentByOwner(s.workers, id);
      var v :| v in s.workers && s.workers[v].read == id && s.workers[v].posted;
      OneOwner(s, v, w);
      assert false;
    }
  }

  lemma PostedWorkersOk(s: State, w: nat)
    requires Inv(s) && At(s, w, Posting)
    ensures WorkersOk(Post(s, w))
    ensures forall id :: id in s.stored ==> Holds(Post(s, w), id)
  {
    var next := Post(s, w);
    forall v | v in next.workers ensures Fits(next, next.workers[v]) {
      PostedFits(s, w, v);
    }
    forall id | id in next.stored ensures Holds(next, id) {
      PostedHolds(s, w, id);
    }
    assert FencesDiffer(next.workers);
  }

  lemma SendsGrow(sends: seq<nat>, read: nat, id: nat)
    ensures id in sends + [read] <==> id in sends || id == read
  {
    assert (sends + [read])[|sends|] == read;
  }

  lemma PostedFits(s: State, w: nat, v: nat)
    requires Inv(s) && At(s, w, Posting) && v in s.workers
    ensures Fits(Post(s, w), Post(s, w).workers[v])
  {
    assert Fits(s, s.workers[w]) && Fits(s, s.workers[v]);
    SendsGrow(s.sends, s.workers[w].read, s.workers[v].read);
  }

  lemma PostedHolds(s: State, w: nat, id: nat)
    requires Inv(s) && At(s, w, Posting) && id in s.stored
    ensures Holds(Post(s, w), id)
  {
    assert Fits(s, s.workers[w]) && Holds(s, id);
    SendsGrow(s.sends, s.workers[w].read, id);
  }

  lemma PostedSendsOk(workers: map<nat, Worker>, sends: seq<nat>, w: nat)
    requires SendsOk(workers, sends) && w in workers && workers[w].posted && workers[w].read !in sends
    ensures SendsOk(workers, sends + [workers[w].read])
  {
    assert SentByOwner(workers, workers[w].read);
    forall id | id in sends + [workers[w].read] ensures SentByOwner(workers, id) {
      assert id != workers[w].read ==> id in sends;
    }
  }

  lemma SendingKeepsInv(s: State, w: nat)
    requires Inv(s) && At(s, w, Posting)
    ensures Inv(Post(s, w))
  {
    PostedWorkersOk(s, w);
    PostingKeepsSends(s, w);
  }

  lemma PostingKeepsSends(s: State, w: nat)
    requires Inv(s) && At(s, w, Posting)
    ensures SendsOk(Post(s, w).workers, Post(s, w).sends)
  {
    NotYetSent(s, w);
    var next := Post(s, w).workers;
    SendersRemain(s.workers, s.sends, next);
    PostedSendsOk(next, s.sends, w);
  }

  /** Closing after the worker has left: nothing of the worker may contradict the outcome. */
  lemma ClosingKeepsInv(s: State, w: nat, outcome: Outcome, place: Place)
    requires Inv(s) && Known(s, w) && HoldsLease(s, w)
    requires place.Gone? || (place == Catching(false) && !outcome.Failed? && !s.workers[w].place.Gone?)
    requires outcome.Completed? ==> s.stored[s.workers[w].read].commitment.Started? && s.workers[w].read in s.sends
    requires outcome.NeedsReconciliation? ==> s.stored[s.workers[w].read].commitment.Started?
    requires outcome.Failed? ==> !s.workers[w].sent
                                 && (s.stored[s.workers[w].read].commitment.Queued? || s.stored[s.workers[w].read].startedFence == Some(s.workers[w].fence))
    ensures Inv(CloseRead(s, w, outcome, place))
  {
    var id := s.workers[w].read;
    var closed := s.stored[id].(commitment := Closed(outcome), request := RequestClosed(outcome));
    PlaceKeepsInv(s, w, place);
    var mid := AtPlace(s, w, place);
    ClosingFits(mid, w, outcome);
    ReadChangeKeepsInv(mid, id, closed);
    assert CloseRead(s, w, outcome, place) == mid.(stored := mid.stored[id := closed]);
  }

  lemma ClosingFits(s: State, w: nat, outcome: Outcome)
    requires Inv(s) && Known(s, w) && !s.stored[s.workers[w].read].commitment.Closed?
    requires outcome.Completed? ==> s.stored[s.workers[w].read].commitment.Started? && s.workers[w].read in s.sends
    requires outcome.NeedsReconciliation? ==> s.stored[s.workers[w].read].commitment.Started?
    requires outcome.Failed? ==> !s.workers[w].sent && s.workers[w].place.Gone?
                                 && (s.stored[s.workers[w].read].commitment.Queued? || s.stored[s.workers[w].read].startedFence == Some(s.workers[w].fence))
    ensures var id := s.workers[w].read;
            var closed := s.stored[id].(commitment := Closed(outcome), request := RequestClosed(outcome));
            && ReadOk(closed, id in s.sends)
            && (forall v :: v in s.workers && s.workers[v].read == id ==> WorkerOk(s.workers[v], closed, id in s.sends))
  {
    var id := s.workers[w].read;
    var closed := s.stored[id].(commitment := Closed(outcome), request := RequestClosed(outcome));
    assert Holds(s, id);
    forall v | v in s.workers && s.workers[v].read == id ensures WorkerOk(s.workers[v], closed, id in s.sends) {
      assert Fits(s, s.workers[v]) && Fits(s, s.workers[w]);
    }
  }

  lemma CompletingKeepsInv(s: State, w: nat, allowed: bool, acknowledged: bool)
    requires Inv(s) && At(s, w, Answering)
    ensures Inv(CompleteRead(s, w, allowed, acknowledged))
  {
    var worker := s.workers[w];
    var r := s.stored[worker.read];
    assert Fits(s, worker);
    if allowed && HoldsLease(s, w) && r.commitment.Started? && r.startedFence == Some(worker.fence) {
      ClosingKeepsInv(s, w, Completed, if acknowledged then Gone else Catching(false));
    } else {
      PlaceKeepsInv(s, w, Catching(false));
    }
  }

  /** The classification is exact about the commitment: an unbegun read is never reported as open. */
  lemma UnknownMeansStarted(s: State, w: nat)
    requires Inv(s) && Known(s, w) && s.workers[w].place.Catching? && HoldsLease(s, w)
    ensures MayHaveLeft(s.workers[w], s.stored[s.workers[w].read]) ==> s.stored[s.workers[w].read].commitment.Started?
    ensures !MayHaveLeft(s.workers[w], s.stored[s.workers[w].read]) ==> s.workers[w].read !in s.sends
  {
    var id := s.workers[w].read;
    assert Fits(s, s.workers[w]) && Holds(s, id);
    if id in s.sends {
      assert SentByOwner(s.workers, id);
      var v :| v in s.workers && s.workers[v].read == id && s.workers[v].posted;
      assert Fits(s, s.workers[v]);
    }
  }

  lemma CatchingKeepsInv(s: State, w: nat, live: bool)
    requires Inv(s) && Known(s, w) && s.workers[w].place.Catching?
    ensures Inv(CatchFailure(s, w, live))
  {
    if !live || !HoldsLease(s, w) {
      PlaceKeepsInv(s, w, Gone);
    } else {
      UnknownMeansStarted(s, w);
      ClosingKeepsInv(s, w, if MayHaveLeft(s.workers[w], s.stored[s.workers[w].read]) then NeedsReconciliation else Failed, Gone);
    }
  }

  lemma CallingKeepsInv(s: State, w: nat)
    requires Inv(s) && At(s, w, Cleared)
    ensures Inv(EnterTransport(s, w))
  {
    assert Fits(s, s.workers[w]);
    WorkerChangeKeepsInv(s, w, s.workers[w].(place := Calling, sent := true));
  }

  // ---------------------------------------------------------------- requests and limits

  lemma CountsGrow(stored: map<nat, Read>, id: nat, r: Read, connection: nat)
    requires id !in stored
    ensures |OfConnection(stored[id := r], connection)| == |OfConnection(stored, connection)| + (if r.connection == connection then 1 else 0)
  {
    assert OfConnection(stored[id := r], connection) == OfConnection(stored, connection) + (if r.connection == connection then {id} else {});
  }

  lemma WorkspaceCountsGrow(stored: map<nat, Read>, id: nat, r: Read, workspace: nat)
    requires id !in stored
    ensures |OfWorkspace(stored[id := r], workspace)| == |OfWorkspace(stored, workspace)| + (if r.workspace == workspace then 1 else 0)
  {
    assert OfWorkspace(stored[id := r], workspace) == OfWorkspace(stored, workspace) + (if r.workspace == workspace then {id} else {});
  }

  lemma AdmissionKeepsLimits(connections: map<nat, Connection>, stored: map<nat, Read>, id: nat, r: Read)
    requires LimitsOk(connections, stored) && id !in stored && r.connection in connections
    requires r.workspace == connections[r.connection].workspace
    requires |OfConnection(stored, r.connection)| < connections[r.connection].maxRequests
    requires |OfWorkspace(stored, r.workspace)| < WORKSPACE_READS
    ensures LimitsOk(connections, stored[id := r])
  {
    var next := stored[id := r];
    forall x | x in next ensures LimitOk(connections, next, next[x]) {
      CountsGrow(stored, id, r, next[x].connection);
      WorkspaceCountsGrow(stored, id, r, next[x].workspace);
      assert x != id ==> LimitOk(connections, stored, stored[x]);
    }
  }

  lemma WorkersAcceptNewRead(s: State, id: nat, r: Read)
    requires WorkersOk(s) && id !in s.stored
    ensures WorkersOk(s.(stored := s.stored[id := r]))
  {
    var next := s.(stored := s.stored[id := r]);
    forall w | w in next.workers ensures Fits(next, next.workers[w]) {
      assert Fits(s, s.workers[w]);
    }
  }

  lemma NewReadKeepsInv(s: State, id: nat, r: Read, receipts: map<(nat, nat), Receipt>)
    requires Inv(s) && id !in s.stored && r.commitment.Queued? && r.request == RequestQueued && r.startedFence.None?
    requires LimitsOk(s.connections, s.stored[id := r])
    ensures Inv(s.(stored := s.stored[id := r], receipts := receipts))
  {
    WorkersAcceptNewRead(s, id, r);
    assert ReadOk(r, id in s.sends);
  }

  lemma CreatingKeepsInv(s: State, c: Creation)
    requires Inv(s) && c.id !in s.stored
    ensures Inv(Create(s, c).0)
  {
    if Refusal(s, c).None? && (c.connection, c.key) !in s.receipts {
      var r := Read(c.connection, s.connections[c.connection].workspace, c.scope, RequestQueued, Queued, None, 0);
      AdmissionKeepsLimits(s.connections, s.stored, c.id, r);
      NewReadKeepsInv(s, c.id, r, s.receipts[(c.connection, c.key) := Receipt(c.body, c.id)]);
    }
  }

  lemma ConnectionsKeepInv(s: State, c: nat, value: Connection)
    requires Inv(s)
    requires c in s.connections ==> value.workspace == s.connections[c].workspace && value.maxRequests == s.connections[c].maxRequests
    ensures Inv(s.(connections := s.connections[c := value]))
  {
    var next := s.(connections := s.connections[c := value]);
    forall x | x in next.stored ensures Holds(next, x) && LimitOk(next.connections, next.stored, next.stored[x]) {
      assert Holds(s, x) && LimitOk(s.connections, s.stored, s.stored[x]);
    }
    forall w | w in next.workers ensures Fits(next, next.workers[w]) {
      assert Fits(s, s.workers[w]);
    }
  }

  // ---------------------------------------------------------------- every run

  lemma WorkerStepKeepsInv(s: State, step: Step)
    requires Inv(s) && Enabled(s, step) && !step.Connect? && !step.Reconfigure? && !step.Request?
    ensures Inv(Apply(s, step))
  {
    match step
    case Lease(w, id) => LeasingKeepsInv(s, w, id);
    case Begin(w, allowed, acknowledged) => BeginningKeepsInv(s, w, allowed, acknowledged);
    case Clear(w, allowed) => MovingKeepsInv(s, w, allowed, Begun, Cleared);
    case Call(w) => CallingKeepsInv(s, w);
    case Boundary(w, allowed) => MovingKeepsInv(s, w, allowed, Calling, Posting);
    case Send(w) => SendingKeepsInv(s, w);
    case Complete(w, allowed, acknowledged) => CompletingKeepsInv(s, w, allowed, acknowledged);
    case Throw(w) => PlaceKeepsInv(s, w, Catching(false));
    case Catch(w, live) => CatchingKeepsInv(s, w, live);
    case Crash(w) => PlaceKeepsInv(s, w, Gone);
  }

  lemma StepKeepsInv(s: State, step: Step)
    requires Inv(s) && Enabled(s, step)
    ensures Inv(Apply(s, step))
  {
    if step.Connect? {
      ConnectionsKeepInv(s, step.connection, step.value);
    } else if step.Reconfigure? {
      ConnectionsKeepInv(s, step.connection, s.connections[step.connection].(streamVersion := step.streamVersion));
    } else if step.Request? {
      CreatingKeepsInv(s, step.creation);
    } else {
      WorkerStepKeepsInv(s, step);
    }
  }

  ghost predicate Reaches(s: State, steps: seq<Step>, last: State)
    decreases |steps|
  {
    if steps == [] then s == last else Enabled(s, steps[0]) && Reaches(Apply(s, steps[0]), steps[1..], last)
  }

  /** Later steps never take back what is closed, sent or recorded. */
  predicate Extends(s: State, t: State) {
    && s.sends <= t.sends
    && (forall id :: id in s.stored ==> id in t.stored && (s.stored[id].commitment.Closed? ==> t.stored[id].commitment == s.stored[id].commitment))
    && (forall k :: k in s.receipts ==> k in t.receipts && t.receipts[k] == s.receipts[k])
  }

  lemma StepExtends(s: State, step: Step)
    requires Enabled(s, step)
    ensures Extends(s, Apply(s, step))
  {
    if step.Begin? {
      BeginExtends(s, step.worker, step.allowed, step.acknowledged);
    } else if step.Complete? {
      CompleteExtends(s, step.worker, step.allowed, step.acknowledged);
    } else if step.Catch? {
      CatchExtends(s, step.worker, step.live);
    }
  }

  lemma BeginExtends(s: State, w: nat, allowed: bool, acknowledged: bool)
    requires At(s, w, Starting)
    ensures Extends(s, BeginRead(s, w, allowed, acknowledged))
  {
  }

  lemma CompleteExtends(s: State, w: nat, allowed: bool, acknowledged: bool)
    requires Enabled(s, Complete(w, allowed, acknowledged))
    ensures Extends(s, CompleteRead(s, w, allowed, acknowledged))
  {
  }

  lemma CatchExtends(s: State, w: nat, live: bool)
    requires Enabled(s, Catch(w, live))
    ensures Extends(s, CatchFailure(s, w, live))
  {
  }

  lemma {:induction false} EveryRunKeepsInv(s: State, steps: seq<Step>, last: State)
    requires Inv(s) && Reaches(s, steps, last)
    ensures Inv(last) && Extends(s, last)
    decreases |steps|
  {
    if steps != [] {
      StepKeepsInv(s, steps[0]);
      StepExtends(s, steps[0]);
      EveryRunKeepsInv(Apply(s, steps[0]), steps[1..], last);
    }
  }

  // ---------------------------------------------------------------- what it means

  /** Whatever crashes and takeovers happen, each read is handed to the network at most once. */
  lemma SentAtMostOnce(steps: seq<Step>, last: State, i: nat, j: nat)
    requires Reaches(EMPTY, steps, last) && i < |last.sends| && j < |last.sends| && last.sends[i] == last.sends[j]
    ensures i == j
  {
    EveryRunKeepsInv(EMPTY, steps, last);
  }

  /** A read that ended failed was never sent, and no later step ever sends it. */
  lemma FailedWasNeverSent(steps: seq<Step>, mid: State, more: seq<Step>, last: State, id: nat)
    requires Reaches(EMPTY, steps, mid) && Reaches(mid, more, last)
    requires id in mid.stored && mid.stored[id].commitment == Closed(Failed)
    ensures id !in last.sends && id in last.stored && last.stored[id].request == RequestClosed(Failed)
  {
    EveryRunKeepsInv(EMPTY, steps, mid);
    EveryRunKeepsInv(mid, more, last);
    assert Holds(last, id);
    SentHasOwner(last, id);
  }

  lemma SentHasOwner(s: State, id: nat)
    requires Inv(s) && id in s.stored
    ensures id in s.sends ==> !s.stored[id].commitment.Queued? && s.stored[id].commitment != Closed(Failed)
  {
    if id in s.sends {
      assert SentByOwner(s.workers, id);
      var v :| v in s.workers && s.workers[v].read == id && s.workers[v].posted;
      assert Fits(s, s.workers[v]);
    }
  }

  /** Once handed to the network, a read is still running, completed, or awaits reconciliation; a completed one was sent. */
  lemma SentReadsEndOpenly(steps: seq<Step>, last: State, id: nat)
    requires Reaches(EMPTY, steps, last) && id in last.stored
    ensures id in last.sends ==> !last.stored[id].commitment.Queued? && last.stored[id].commitment != Closed(Failed)
    ensures last.stored[id].commitment == Closed(Completed) ==> id in last.sends
  {
    EveryRunKeepsInv(EMPTY, steps, last);
    assert Holds(last, id);
    SentHasOwner(last, id);
  }

  /** The request the client sees always tells what was committed. */
  lemma RequestMirrorsCommitment(steps: seq<Step>, last: State, id: nat)
    requires Reaches(EMPTY, steps, last) && id in last.stored
    ensures var r := last.stored[id];
            && (r.commitment.Queued? <==> r.request == RequestQueued)
            && (r.commitment.Started? <==> r.request == RequestRunning)
            && (r.commitment.Closed? <==> r.request.RequestClosed?)
            && (r.commitment.Closed? ==> r.request.outcome == r.commitment.outcome)
  {
    EveryRunKeepsInv(EMPTY, steps, last);
    assert Holds(last, id);
  }

  /** Per scope at most one read has an open outcome, so nothing is replayed under a new request. */
  lemma OneOpenReadPerScope(steps: seq<Step>, last: State, a: nat, b: nat)
    requires Reaches(EMPTY, steps, last) && a in last.stored && b in last.stored
    requires last.stored[a].scope == last.stored[b].scope && Blocks(last.stored[a]) && Blocks(last.stored[b])
    ensures a == b
  {
    EveryRunKeepsInv(EMPTY, steps, last);
  }

  /** Neither a connection nor a workspace ever exceeds its number of reads. */
  lemma ReadsStayWithinLimits(steps: seq<Step>, last: State, connection: nat, workspace: nat)
    requires Reaches(EMPTY, steps, last) && connection in last.connections
    ensures |OfConnection(last.stored, connection)| <= last.connections[connection].maxRequests
    ensures |OfWorkspace(last.stored, workspace)| <= WORKSPACE_READS
  {
    EveryRunKeepsInv(EMPTY, steps, last);
    if id :| id in OfConnection(last.stored, connection) {
      assert LimitOk(last.connections, last.stored, last.stored[id]);
    } else {
      assert OfConnection(last.stored, connection) == {};
    }
    if id :| id in OfWorkspace(last.stored, workspace) {
      assert LimitOk(last.connections, last.stored, last.stored[id]);
    } else {
      assert OfWorkspace(last.stored, workspace) == {};
    }
  }

  /** A repeated request names the same read and changes nothing, while its connection is current. */
  lemma RepeatedRequestsAgree(steps: seq<Step>, s: State, c: Creation, more: seq<Step>, last: State, again: Creation)
    requires Reaches(EMPTY, steps, s) && c.id !in s.stored && Create(s, c).1.Ok? && Reaches(Create(s, c).0, more, last)
    requires again.connection == c.connection && again.key == c.key && again.body == c.body
    requires again.current && again.connection in last.connections
    ensures Create(last, again) == (last, Create(s, c).1)
  {
    EveryRunKeepsInv(EMPTY, steps, s);
    CreatingKeepsInv(s, c);
    EveryRunKeepsInv(Create(s, c).0, more, last);
  }
}
