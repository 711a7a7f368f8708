/**
 Reads of external resources: admission, the commitment that is written before anything is sent, and the worker that
 may crash, lose its lease to another worker, or lose the acknowledgement of its own transactions.
 */
module McpReads {
  import opened Options

  datatype Outcome = Completed | Failed | NeedsReconciliation

  /** What the client sees of a request. */
  datatype RequestStatus = RequestQueued | RequestRunning | RequestClosed(outcome: Outcome)

  datatype Commitment = Queued | Started | Closed(outcome: Outcome)

  /** `scope` stands for tool, request and replay scope together; `fence` is that of the last lease of the read's job. */
  datatype Read = Read(
    connection: nat,
    workspace: nat,
    scope: nat,
    request: RequestStatus,
    commitment: Commitment,
    startedFence: Option<nat>,
    fence: nat)

  datatype Connection = Connection(workspace: nat, maxRequests: nat, streamVersion: nat)

  datatype Place = Starting | Begun | Cleared | Calling | Posting | Answering | Catching(alreadyStarted: bool) | Gone

  /** One lease of a read's job by a worker. */
  datatype Worker = Worker(read: nat, fence: nat, place: Place, sent: bool, beganHere: bool, posted: bool)

  datatype Receipt = Receipt(body: nat, read: nat)

  /** `sends` lists the reads handed to the network, in order. */
  datatype State = State(
    connections: map<nat, Connection>,
    stored: map<nat, Read>,
    receipts: map<(nat, nat), Receipt>,
    workers: map<nat, Worker>,
    sends: seq<nat>)

  const EMPTY := State(map[], map[], map[], map[], [])
  const WORKSPACE_READS := 1000

  /** The reads of one scope whose outcome is open block every other read of that scope. */
  predicate Blocks(r: Read) { r.commitment.Started? || r.commitment == Closed(NeedsReconciliation) }

  predicate ReplayBlocked(stored: map<nat, Read>, id: nat, scope: nat) {
    exists other :: other in stored && other != id && stored[other].scope == scope && Blocks(stored[other])
  }

  function OfConnection(stored: map<nat, Read>, connection: nat): set<nat> {
    set id | id in stored && stored[id].connection == connection
  }

  function OfWorkspace(stored: map<nat, Read>, workspace: nat): set<nat> {
    set id | id in stored && stored[id].workspace == workspace
  }

  // ---------------------------------------------------------------- creating a request

  /** `current` is the verdict on membership, connection grant and expiry, `valid` the one on the request's parameters. */
  datatype Creation = Creation(connection: nat, key: nat, body: nat, expected: nat, current: bool, valid: bool, id: nat, scope: nat)

  function Refusal(s: State, c: Creation): Option<string> {
    if c.connection !in s.connections then Some("MCP_CONNECTION_NOT_FOUND")
    else if !c.current then Some("MCP_CONNECTION_STALE")
    else if (c.connection, c.key) in s.receipts then
      if s.receipts[(c.connection, c.key)].body != c.body then Some("IDEMPOTENCY_KEY_REUSED") else None
    else
      var target := s.connections[c.connection];
      if target.streamVersion != c.expected then Some("STREAM_VERSION_CONFLICT")
      else if |OfWorkspace(s.stored, target.workspace)| >= WORKSPACE_READS then Some("MCP_WORKSPACE_READ_LIMIT")
      else if |OfConnection(s.stored, c.connection)| >= target.maxRequests then Some("MCP_READ_LIMIT")
      else if !c.valid then Some("MCP_REQUEST_INVALID")
      else if ReplayBlocked(s.stored, c.id, c.scope) then Some("EXTERNAL_READ_REPLAY_BLOCKED")
      else None
  }

  function Create(s: State, c: Creation): (State, Result<nat>) {
    var refusal := Refusal(s, c);
    if refusal.Some? then (s, Err(refusal.value))
    else if (c.connection, c.key) in s.receipts then (s, Ok(s.receipts[(c.connection, c.key)].read))
    else
      var read := Read(c.connection, s.connections[c.connection].workspace, c.scope, RequestQueued, Queued, None, 0);
      (s.(stored := s.stored[c.id := read], receipts := s.receipts[(c.connection, c.key) := Receipt(c.body, c.id)]), Ok(c.id))
  }

  // ---------------------------------------------------------------- the worker

  predicate Known(s: State, w: nat) { w in s.workers && s.workers[w].read in s.stored }

  /** The lease check of the kernel: the job is open and no later lease has been given. */
  predicate HoldsLease(s: State, w: nat)
    requires Known(s, w)
  {
    var r := s.stored[s.workers[w].read];
    !r.commitment.Closed? && r.fence == s.workers[w].fence
  }

  function AtPlace(s: State, w: nat, place: Place): State
    requires w in s.workers
  {
    s.(workers := s.workers[w := s.workers[w].(place := place)])
  }

  function LeaseTo(s: State, w: nat, id: nat): State
    requires id in s.stored
  {
    var r := s.stored[id].(fence := s.stored[id].fence + 1);
    s.(stored := s.stored[id := r], workers := s.workers[w := Worker(id, r.fence, Starting, false, false, false)])
  }

  /**
   The opening transaction. `allowed` covers authorization and an unexpired lease; `acknowledged` is false when the
   transaction commits but the worker never learns of it.
   */
  function BeginRead(s: State, w: nat, allowed: bool, acknowledged: bool): State
    requires Known(s, w)
  {
    var worker := s.workers[w];
    var r := s.stored[worker.read];
    if !allowed || !HoldsLease(s, w) then AtPlace(s, w, Catching(false))
    else if !r.commitment.Queued? then AtPlace(s, w, Catching(true))
    else if ReplayBlocked(s.stored, worker.read, r.scope) then AtPlace(s, w, Catching(false))
    else
      s.(stored := s.stored[worker.read := r.(commitment := Started, startedFence := Some(worker.fence), request := RequestRunning)],
         workers := s.workers[w := worker.(place := if acknowledged then Begun else Catching(false), beganHere := acknowledged)])
  }

  /** Checking the lease and the grant once more, before the transport and right before the request leaves. */
  function CheckAllowed(s: State, w: nat, allowed: bool, next: Place): State
    requires Known(s, w)
  {
    AtPlace(s, w, if allowed && HoldsLease(s, w) then next else Catching(false))
  }

  function EnterTransport(s: State, w: nat): State
    requires w in s.workers
  {
    s.(workers := s.workers[w := s.workers[w].(place := Calling, sent := true)])
  }

  function Post(s: State, w: nat): State
    requires w in s.workers
  {
    s.(workers := s.workers[w := s.workers[w].(place := Answering, posted := true)], sends := s.sends + [s.workers[w].read])
  }

  function CloseRead(s: State, w: nat, outcome: Outcome, place: Place): State
    requires Known(s, w)
  {
    var worker := s.workers[w];
    s.(stored := s.stored[worker.read := s.stored[worker.read].(commitment := Closed(outcome), request := RequestClosed(outcome))],
       workers := s.workers[w := worker.(place := place)])
  }

  /** The closing transaction of a good answer. */
  function CompleteRead(s: State, w: nat, allowed: bool, acknowledged: bool): State
    requires Known(s, w)
  {
    var worker := s.workers[w];
    var r := s.stored[worker.read];
    if allowed && HoldsLease(s, w) && r.commitment.Started? && r.startedFence == Some(worker.fence) then
      CloseRead(s, w, Completed, if acknowledged then Gone else Catching(false))
    else AtPlace(s, w, Catching(false))
  }

  /** May the request have left? A worker that cannot rule it out must say so. */
  predicate MayHaveLeft(worker: Worker, r: Read)
    requires worker.place.Catching?
  {
    || worker.sent
    || worker.place.alreadyStarted
    || (r.commitment.Started? && (!worker.beganHere || r.startedFence != Some(worker.fence)))
  }

  /** The transaction that classifies a failure; without the lease it is refused and writes nothing. */
  function CatchFailure(s: State, w: nat, live: bool): State
    requires Known(s, w) && s.workers[w].place.Catching?
  {
    var worker := s.workers[w];
    var r := s.stored[worker.read];
    if !live || !HoldsLease(s, w) then AtPlace(s, w, Gone)
    else CloseRead(s, w, if MayHaveLeft(worker, r) then NeedsReconciliation else Failed, Gone)
  }

  // ---------------------------------------------------------------- steps

  datatype Step =
    | Connect(connection: nat, value: Connection)
    | Reconfigure(connection: nat, streamVersion: nat)
    | Request(creation: Creation)
    | Lease(worker: nat, read: nat)
    | Begin(worker: nat, allowed: bool, acknowledged: bool)
    | Clear(worker: nat, allowed: bool)
    | Call(worker: nat)
    | Boundary(worker: nat, allowed: bool)
    | Send(worker: nat)
    | Complete(worker: nat, allowed: bool, acknowledged: bool)
    | Throw(worker: nat)
    | Catch(worker: nat, live: bool)
    | Crash(worker: nat)

  predicate At(s: State, w: nat, place: Place) { Known(s, w) && s.workers[w].place == place }

  predicate Enabled(s: State, step: Step) {
    match step
    case Connect(c, _) => c !in s.connections
    case Reconfigure(c, _) => c in s.connections
    case Request(c) => c.id !in s.stored
    case Lease(w, id) => w !in s.workers && id in s.stored && !s.stored[id].commitment.Closed?
    case Begin(w, _, _) => At(s, w, Starting)
    case Clear(w, _) => At(s, w, Begun)
    case Call(w) => At(s, w, Cleared)
    case Boundary(w, _) => At(s, w, Calling)
    case Send(w) => At(s, w, Posting)
    case Complete(w, _, _) => At(s, w, Answering)
    case Throw(w) => Known(s, w) && !s.workers[w].place.Catching? && !s.workers[w].place.Gone?
    case Catch(w, _) => Known(s, w) && s.workers[w].place.Catching?
    case Crash(w) => Known(s, w)
  }

  function Apply(s: State, step: Step): State
    requires Enabled(s, step)
  {
    match step
    case Connect(c, value) => s.(connections := s.connections[c := value])
    case Reconfigure(c, version) => s.(connections := s.connections[c := s.connections[c].(streamVersion := version)])
    case Request(c) => Create(s, c).0
    case Lease(w, id) => LeaseTo(s, w, id)
    case Begin(w, allowed, acknowledged) => BeginRead(s, w, allowed, acknowledged)
    case Clear(w, allowed) => CheckAllowed(s, w, allowed, Cleared)
    case Call(w) => EnterTransport(s, w)
    case Boundary(w, allowed) => CheckAllowed(s, w, allowed, Posting)
    case Send(w) => Post(s, w)
    case Complete(w, allowed, acknowledged) => CompleteRead(s, w, allowed, acknowledged)
    case Throw(w) => AtPlace(s, w, Catching(false))
    case Catch(w, live) => CatchFailure(s, w, live)
    case Crash(w) => AtPlace(s, w, Gone)
  }

  // ---------------------------------------------------------------- invariant

  /** Past the opening transaction, as far as the worker itself can tell or has acted. */
  predicate Owns(worker: Worker) {
    worker.beganHere || worker.sent || worker.posted
    || worker.place.Begun? || worker.place.Cleared? || worker.place.Calling? || worker.place.Posting? || worker.place.Answering?
  }

  /** `left` says whether the read was handed to the network. */
  predicate WorkerOk(worker: Worker, r: Read, left: bool) {
    && worker.fence <= r.fence
    && (Owns(worker) ==> r.startedFence == Some(worker.fence) && !r.commitment.Queued?)
    && (worker.place.Starting? ==> !Owns(worker))
    && (worker.place.Catching? && worker.place.alreadyStarted ==> !r.commitment.Queued? && !Owns(worker))
    && (worker.place.Begun? || worker.place.Cleared? ==> !worker.sent && worker.beganHere)
    && (worker.place.Calling? || worker.place.Posting? || worker.place.Answering? ==> worker.sent)
    && (worker.place.Calling? || worker.place.Posting? ==> !worker.posted)
    && (worker.place.Answering? ==> worker.posted)
    && (worker.posted ==> worker.sent && left)
    && (!worker.sent ==> !worker.posted)
    && (r.commitment == Closed(Failed) && Owns(worker) ==> worker.place.Gone? && !worker.sent)
  }

  predicate ReadOk(r: Read, left: bool) {
    && (match r.commitment
        case Queued => r.request == RequestQueued
        case Started => r.request == RequestRunning
        case Closed(outcome) => r.request == RequestClosed(outcome))
    && (r.commitment.Queued? ==> r.startedFence.None?)
    && (r.commitment.Started? || r.commitment == Closed(NeedsReconciliation) || r.commitment == Closed(Completed) ==> r.startedFence.Some?)
    && (r.startedFence.Some? ==> r.startedFence.value <= r.fence)
    && (r.commitment == Closed(Completed) ==> left)
  }

  predicate SentByOwner(workers: map<nat, Worker>, id: nat) {
    exists w :: w in workers && workers[w].read == id && workers[w].posted
  }

  predicate WorkersOk(s: State) {
    && (forall w :: w in s.workers ==> Known(s, w) && WorkerOk(s.workers[w], s.stored[s.workers[w].read], s.workers[w].read in s.sends))
    && FencesDiffer(s.workers)
  }

  predicate FencesDiffer(workers: map<nat, Worker>) {
    forall v, w :: v in workers && w in workers && v != w && workers[v].read == workers[w].read ==>
      workers[v].fence != workers[w].fence
  }

  predicate SendsOk(workers: map<nat, Worker>, sends: seq<nat>) {
    && (forall id :: id in sends ==> SentByOwner(workers, id))
    && (forall i, j :: 0 <= i < j < |sends| ==> sends[i] != sends[j])
  }

  predicate ScopesOk(stored: map<nat, Read>) {
    forall a, b :: a in stored && b in stored && a != b && stored[a].scope == stored[b].scope ==>
      !(Blocks(stored[a]) && Blocks(stored[b]))
  }

  predicate LimitOk(connections: map<nat, Connection>, stored: map<nat, Read>, r: Read) {
    && r.connection in connections
    && connections[r.connection].workspace == r.workspace
    && |OfConnection(stored, r.connection)| <= connections[r.connection].maxRequests
    && |OfWorkspace(stored, r.workspace)| <= WORKSPACE_READS
  }

  predicate LimitsOk(connections: map<nat, Connection>, stored: map<nat, Read>) {
    forall id :: id in stored ==> LimitOk(connections, stored, stored[id])
  }

  predicate Inv(s: State) {
    && WorkersOk(s)
    && (forall id :: id in s.stored ==> ReadOk(s.stored[id], id in s.sends))
    && SendsOk(s.workers, s.sends)
    && ScopesOk(s.stored)
    && LimitsOk(s.connections, s.stored)
  }

  // ---------------------------------------------------------------- the store and its workers, updated in place

  class ReadStore {
    var connections: map<nat, Connection>
    var stored: map<nat, Read>
    var receipts: map<(nat, nat), Receipt>
    var workers: map<nat, Worker>
    var sends: seq<nat>

    function View(): State
      reads this
    {
      State(connections, stored, receipts, workers, sends)
    }

    constructor ()
      ensures View() == EMPTY
    {
      connections, stored, receipts, workers, sends := map[], map[], map[], map[], [];
    }

    method CreateMcpRequest(c: Creation) returns (result: Result<nat>)
      modifies this`stored, this`receipts
      ensures (View(), result) == Create(old(View()), c)
    {
      if c.connection !in connections {
        return Err("MCP_CONNECTION_NOT_FOUND");
      }
      if !c.current {
        return Err("MCP_CONNECTION_STALE");
      }
      var target := connections[c.connection];
      if (c.connection, c.key) in receipts {
        var known := receipts[(c.connection, c.key)];
        return if known.body != c.body then Err("IDEMPOTENCY_KEY_REUSED") else Ok(known.read);
      }
      if target.streamVersion != c.expected {
        return Err("STREAM_VERSION_CONFLICT");
      }
      if |OfWorkspace(stored, target.workspace)| >= WORKSPACE_READS {
        return Err("MCP_WORKSPACE_READ_LIMIT");
      }
      if |OfConnection(stored, c.connection)| >= target.maxRequests {
        return Err("MCP_READ_LIMIT");
      }
      if !c.valid {
        return Err("MCP_REQUEST_INVALID");
      }
      if ReplayBlocked(stored, c.id, c.scope) {
        return Err("EXTERNAL_READ_REPLAY_BLOCKED");
      }
      stored := stored[c.id := Read(c.connection, target.workspace, c.scope, RequestQueued, Queued, None, 0)];
      receipts := receipts[(c.connection, c.key) := Receipt(c.body, c.id)];
      result := Ok(c.id);
    }

    /** The first transaction of `execute`: commits to the read, and remembers that this very worker began it. */
    method BeginExternalRead(w: nat, allowed: bool, acknowledged: bool)
      requires At(View(), w, Starting)
      modifies this`stored, this`workers
      ensures View() == BeginRead(old(View()), w, allowed, acknowledged)
    {
      var worker := workers[w];
      var r := stored[worker.read];
      var leased := allowed && !r.commitment.Closed? && r.fence == worker.fence;
      if !leased || !r.commitment.Queued? || ReplayBlocked(stored, worker.read, r.scope) {
        workers := workers[w := worker.(place := Catching(leased && !r.commitment.Queued?))];
        return;
      }
      stored := stored[worker.read := r.(commitment := Started, startedFence := Some(worker.fence), request := RequestRunning)];
      workers := workers[w := worker.(place := if acknowledged then Begun else Catching(false), beganHere := acknowledged)];
    }

    /** `sent` is raised before the transport is entered, so that no error inside it can look like an unsent read. */
    method Transport(w: nat)
      requires At(View(), w, Cleared)
      modifies this`workers
      ensures View() == EnterTransport(old(View()), w)
    {
      workers := workers[w := workers[w].(place := Calling, sent := true)];
    }

    method FinishCompleted(w: nat, allowed: bool, acknowledged: bool)
      requires At(View(), w, Answering)
      modifies this`stored, this`workers
      ensures View() == CompleteRead(old(View()), w, allowed, acknowledged)
    {
      var worker := workers[w];
      var r := stored[worker.read];
      if allowed && r.fence == worker.fence && r.commitment.Started? && r.startedFence == Some(worker.fence) {
        stored := stored[worker.read := r.(commitment := Closed(Completed), request := RequestClosed(Completed))];
        workers := workers[w := worker.(place := if acknowledged then Gone else Catching(false))];
      } else {
        workers := workers[w := worker.(place := Catching(false))];
      }
    }

    method FinishFailed(w: nat, live: bool)
      requires Known(View(), w) && workers[w].place.Catching?
      modifies this`stored, this`workers
      ensures View() == CatchFailure(old(View()), w, live)
    {
      var worker := workers[w];
      var r := stored[worker.read];
      workers := workers[w := worker.(place := Gone)];
      if live && !r.commitment.Closed? && r.fence == worker.fence {
        var unknown := worker.sent || worker.place.alreadyStarted
                       || (r.commitment.Started? && (!worker.beganHere || r.startedFence != Some(worker.fence)));
        var outcome := if unknown then NeedsReconciliation else Failed;
        stored := stored[worker.read := r.(commitment := Closed(outcome), request := RequestClosed(outcome))];
      }
    }
  }
}
