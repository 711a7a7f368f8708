/**
 Idempotent asynchronous mutations on any number of hosts that share one store: the in-flight table of each host, the
 durable receipts, and every interleaving of their steps.
 */
module Idempotency {
  import opened Options
  import opened Decimal

  /** What a caller names: tenant, scope and idempotency key. */
  datatype Request = Request(tenant: string, scope: string, key: string)

  /** The in-flight key: both lengths precede their texts, so the parts cannot run into each other. */
  function FlightKey(r: Request): string {
    Print(|r.tenant|) + ":" + r.tenant + Print(|r.scope|) + ":" + r.scope + r.key
  }

  lemma {:induction false} NumeralEndsAtColon(a: string, b: string, x: string, y: string)
    requires AllDigits(a) && AllDigits(b) && a + ":" + x == b + ":" + y
    ensures a == b && x == y
    decreases |a|
  {
    var s := a + ":" + x;
    assert s == b + ":" + y;
    assert s[0] == (if a == [] then ':' else a[0]) && s[0] == (if b == [] then ':' else b[0]);
    assert a == [] <==> b == [];
    if a == [] {
      assert x == s[1..] && y == s[1..];
    } else {
      assert a[1..] + ":" + x == s[1..] && b[1..] + ":" + y == s[1..];
      NumeralEndsAtColon(a[1..], b[1..], x, y);
      assert a == [a[0]] + a[1..] && b == [b[0]] + b[1..];
    }
  }

  lemma EqualLengthsSplit(a: string, b: string, x: string, y: string)
    requires a + x == b + y && |a| == |b|
    ensures a == b && x == y
  {
    assert a == (a + x)[..|a|] && b == (b + y)[..|b|];
    assert x == (a + x)[|a|..] && y == (b + y)[|b|..];
  }

  lemma Regroup(n: string, a: string, x: string)
    ensures n + ":" + a + x == n + ":" + (a + x)
  {
  }

  lemma LengthPrefixSplits(a: string, b: string, x: string, y: string)
    requires Print(|a|) + ":" + a + x == Print(|b|) + ":" + b + y
    ensures a == b && x == y
  {
    var m, n := Print(|a|), Print(|b|);
    Regroup(m, a, x);
    Regroup(n, b, y);
    NumeralEndsAtColon(m, n, a + x, b + y);
    PrintIsInjective(|a|, |b|);
    EqualLengthsSplit(a, b, x, y);
  }

  /** Different requests never share a place in a host's in-flight table. */
  lemma FlightKeyIsInjective(r: Request, q: Request)
    requires FlightKey(r) == FlightKey(q)
    ensures r == q
  {
    var x, y := Print(|r.scope|) + ":" + r.scope + r.key, Print(|q.scope|) + ":" + q.scope + q.key;
    assert FlightKey(r) == Print(|r.tenant|) + ":" + r.tenant + x;
    assert FlightKey(q) == Print(|q.tenant|) + ":" + q.tenant + y;
    LengthPrefixSplits(r.tenant, q.tenant, x, y);
    LengthPrefixSplits(r.scope, q.scope, r.key, q.key);
  }

  // ---------------------------------------------------------------- steps

  datatype Phase =
    | Reading
    | Working
    | Worked(result: nat)
    | Returned(response: nat)
    | Failed(code: string)

  datatype Operation = Operation(host: nat, request: Request, digest: nat, phase: Phase)

  datatype Receipt = Receipt(digest: nat, response: nat)

  /** A call either joined an operation or was refused because its digest differs from the one in flight. */
  datatype Call = Call(request: Request, digest: nat, operation: Option<nat>)

  datatype Flight = Flight(host: nat, key: string)

  datatype State = State(
    store: map<Request, Receipt>,
    completions: seq<Request>,
    operations: map<nat, Operation>,
    flights: map<Flight, nat>,
    calls: map<nat, Call>)

  const EMPTY := State(map[], [], map[], map[], map[])
  const REUSED := "IDEMPOTENCY_KEY_REUSED"

  datatype Step =
    | CallStep(call: nat, host: nat, request: Request, digest: nat, operation: nat)
    | ReadStep(operation: nat)
    | WorkStep(operation: nat, result: Option<nat>)
    | CommitStep(operation: nat)
    | RetireStep(operation: nat)

  predicate InPhase(s: State, op: nat, phase: Phase -> bool) {
    op in s.operations && phase(s.operations[op].phase)
  }

  predicate Enabled(s: State, step: Step) {
    match step
    case CallStep(call, _, _, _, op) => call !in s.calls && op !in s.operations
    case ReadStep(op) => InPhase(s, op, (p: Phase) => p.Reading?)
    case WorkStep(op, _) => InPhase(s, op, (p: Phase) => p.Working?)
    case CommitStep(op) => InPhase(s, op, (p: Phase) => p.Worked?)
    case RetireStep(op) => InPhase(s, op, (p: Phase) => p.Returned? || p.Failed?)
  }

  function Move(s: State, op: nat, phase: Phase): State
    requires op in s.operations
  {
    s.(operations := s.operations[op := s.operations[op].(phase := phase)])
  }

  /** The phase that follows a receipt found in the store. */
  function Replayed(o: Operation, r: Receipt): Phase {
    if r.digest != o.digest then Failed(REUSED) else Returned(r.response)
  }

  function StartCall(s: State, call: nat, host: nat, request: Request, digest: nat, op: nat): State
    requires forall f :: f in s.flights ==> s.flights[f] in s.operations
  {
    var flight := Flight(host, FlightKey(request));
    if flight in s.flights then
      var active := s.flights[flight];
      s.(calls := s.calls[call := Call(request, digest, if s.operations[active].digest != digest then None else Some(active))])
    else
      s.(operations := s.operations[op := Operation(host, request, digest, Reading)],
         flights := s.flights[flight := op],
         calls := s.calls[call := Call(request, digest, Some(op))])
  }

  function ReadReceipt(s: State, op: nat): State
    requires op in s.operations
  {
    var o := s.operations[op];
    Move(s, op, if o.request in s.store then Replayed(o, s.store[o.request]) else Working)
  }

  function FinishWork(s: State, op: nat, result: Option<nat>): State
    requires op in s.operations
  {
    Move(s, op, if result.Some? then Worked(result.value) else Failed("WORK_FAILED"))
  }

  /** The closing transaction looks once more: another host may have recorded the key meanwhile. */
  function Commit(s: State, op: nat): State
    requires op in s.operations && s.operations[op].phase.Worked?
  {
    var o := s.operations[op];
    if o.request in s.store then Move(s, op, Replayed(o, s.store[o.request]))
    else Move(s, op, Returned(o.phase.result)).(store := s.store[o.request := Receipt(o.digest, o.phase.result)],
                                                completions := s.completions + [o.request])
  }

  function Retire(s: State, op: nat): State
    requires op in s.operations
  {
    var flight := Flight(s.operations[op].host, FlightKey(s.operations[op].request));
    if flight in s.flights && s.flights[flight] == op then s.(flights := s.flights - {flight}) else s
  }

  function Apply(s: State, step: Step): State
    requires Inv(s) && Enabled(s, step)
  {
    match step
    case CallStep(call, host, request, digest, op) => StartCall(s, call, host, request, digest, op)
    case ReadStep(op) => ReadReceipt(s, op)
    case WorkStep(op, result) => FinishWork(s, op, result)
    case CommitStep(op) => Commit(s, op)
    case RetireStep(op) => Retire(s, op)
  }

  // ---------------------------------------------------------------- invariant

  predicate Unfinished(o: Operation) { o.phase.Reading? || o.phase.Working? || o.phase.Worked? }

  predicate OperationOk(s: State, op: nat)
    requires op in s.operations
  {
    var o := s.operations[op];
    && (o.phase.Returned? ==> o.request in s.store && s.store[o.request] == Receipt(o.digest, o.phase.response))
    && (Unfinished(o) ==>
          var flight := Flight(o.host, FlightKey(o.request));
          flight in s.flights && s.flights[flight] == op)
  }

  predicate FlightOk(s: State, f: Flight)
    requires f in s.flights
  {
    && s.flights[f] in s.operations
    && s.operations[s.flights[f]].host == f.host
    && FlightKey(s.operations[s.flights[f]].request) == f.key
  }

  predicate CallOk(s: State, c: Call) {
    c.operation.Some? ==>
      && c.operation.value in s.operations
      && s.operations[c.operation.value].request == c.request
      && s.operations[c.operation.value].digest == c.digest
  }

  predicate Inv(s: State) {
    && (forall op :: op in s.operations ==> OperationOk(s, op))
    && (forall f :: f in s.flights ==> FlightOk(s, f))
    && (forall c :: c in s.calls ==> CallOk(s, s.calls[c]))
    && (forall i :: 0 <= i < |s.completions| ==> s.completions[i] in s.store)
    && (forall r :: r in s.store ==> r in s.completions)
    && (forall i, j :: 0 <= i < j < |s.completions| ==> s.completions[i] != s.completions[j])
  }

  lemma JoiningKeepsInv(s: State, call: nat, host: nat, request: Request, digest: nat, op: nat)
    requires Inv(s) && call !in s.calls && Flight(host, FlightKey(request)) in s.flights
    ensures Inv(StartCall(s, call, host, request, digest, op))
  {
    var next := StartCall(s, call, host, request, digest, op);
    var flight := Flight(host, FlightKey(request));
    assert FlightOk(s, flight);
    FlightKeyIsInjective(s.operations[s.flights[flight]].request, request);
    forall c | c in next.calls ensures CallOk(next, next.calls[c]) {
      assert c != call ==> CallOk(s, s.calls[c]);
    }
    forall o | o in next.operations ensures OperationOk(next, o) {
      assert OperationOk(s, o);
    }
    forall f | f in next.flights ensures FlightOk(next, f) {
      assert FlightOk(s, f);
    }
  }

  lemma CallKeepsInv(s: State, call: nat, host: nat, request: Request, digest: nat, op: nat)
    requires Inv(s) && call !in s.calls && op !in s.operations
    ensures Inv(StartCall(s, call, host, request, digest, op))
  {
    var next := StartCall(s, call, host, request, digest, op);
    var flight := Flight(host, FlightKey(request));
    if flight in s.flights {
      JoiningKeepsInv(s, call, host, request, digest, op);
    } else {
      forall o | o in next.operations ensures OperationOk(next, o) {
        assert o != op ==> OperationOk(s, o);
      }
      forall f | f in next.flights ensures FlightOk(next, f) {
        assert f != flight ==> FlightOk(s, f);
      }
      forall c | c in next.calls ensures CallOk(next, next.calls[c]) {
        assert c != call ==> CallOk(s, s.calls[c]);
      }
    }
  }

  /** Moving an operation to a phase keeps the invariant when a returned response is the recorded one. */
  lemma MovingKeepsInv(s: State, op: nat, phase: Phase)
    requires Inv(s) && op in s.operations && Unfinished(s.operations[op])
    requires phase.Returned? ==> s.operations[op].request in s.store
                                 && s.store[s.operations[op].request] == Receipt(s.operations[op].digest, phase.response)
    ensures Inv(Move(s, op, phase))
  {
    var next := Move(s, op, phase);
    forall o | o in next.operations ensures OperationOk(next, o) {
      assert OperationOk(s, o);
    }
    forall f | f in next.flights ensures FlightOk(next, f) {
      assert FlightOk(s, f);
    }
    forall c | c in next.calls ensures CallOk(next, next.calls[c]) {
      assert CallOk(s, s.calls[c]);
    }
  }

  lemma RecordingKeepsInv(s: State, request: Request, receipt: Receipt)
    requires Inv(s) && request !in s.store
    ensures Inv(s.(store := s.store[request := receipt], completions := s.completions + [request]))
  {
    var next := s.(store := s.store[request := receipt], completions := s.completions + [request]);
    forall o | o in next.operations ensures OperationOk(next, o) {
      assert OperationOk(s, o);
    }
    forall f | f in next.flights ensures FlightOk(next, f) {
      assert FlightOk(s, f);
    }
    forall c | c in next.calls ensures CallOk(next, next.calls[c]) {
      assert CallOk(s, s.calls[c]);
    }
  }

  lemma RetiringKeepsInv(s: State, op: nat)
    requires Inv(s) && op in s.operations && !Unfinished(s.operations[op])
    ensures Inv(Retire(s, op))
  {
    var next := Retire(s, op);
    forall o | o in next.operations ensures OperationOk(next, o) {
      assert OperationOk(s, o);
    }
    forall f | f in next.flights ensures FlightOk(next, f) {
      assert FlightOk(s, f);
    }
    forall c | c in next.calls ensures CallOk(next, next.calls[c]) {
      assert CallOk(s, s.calls[c]);
    }
  }

  lemma StepKeepsInv(s: State, step: Step)
    requires Inv(s) && Enabled(s, step)
    ensures Inv(Apply(s, step))
  {
    match step
    case CallStep(call, host, request, digest, op) => CallKeepsInv(s, call, host, request, digest, op);
    case ReadStep(op) =>
      var o := s.operations[op];
      MovingKeepsInv(s, op, if o.request in s.store then Replayed(o, s.store[o.request]) else Working);
    case WorkStep(op, result) => MovingKeepsInv(s, op, if result.Some? then Worked(result.value) else Failed("WORK_FAILED"));
    case CommitStep(op) =>
      var o := s.operations[op];
      if o.request in s.store {
        MovingKeepsInv(s, op, Replayed(o, s.store[o.request]));
      } else {
        var receipt := Receipt(o.digest, o.phase.result);
        RecordingKeepsInv(s, o.request, receipt);
        MovingKeepsInv(s.(store := s.store[o.request := receipt], completions := s.completions + [o.request]), op, Returned(o.phase.result));
      }
    case RetireStep(op) => RetiringKeepsInv(s, op);
  }

  // ---------------------------------------------------------------- every run

  ghost predicate Reaches(s: State, steps: seq<Step>, last: State)
    decreases |steps|
  {
    if steps == [] then s == last
    else Inv(s) && Enabled(s, steps[0]) && Reaches(Apply(s, steps[0]), steps[1..], last)
  }

  lemma StepKeepsReceipts(s: State, step: Step)
    requires Inv(s) && Enabled(s, step)
    ensures forall r :: r in s.store ==> r in Apply(s, step).store && Apply(s, step).store[r] == s.store[r]
  {
  }

  lemma {:induction false} EveryRunKeepsInv(s: State, steps: seq<Step>, last: State)
    requires Inv(s) && Reaches(s, steps, last)
    ensures Inv(last)
    ensures forall r :: r in s.store ==> r in last.store && last.store[r] == s.store[r]
    decreases |steps|
  {
    if steps != [] {
      StepKeepsInv(s, steps[0]);
      StepKeepsReceipts(s, steps[0]);
      EveryRunKeepsInv(Apply(s, steps[0]), steps[1..], last);
    }
  }

  predicate ReturnedTo(s: State, call: nat, response: nat) {
    && call in s.calls && s.calls[call].operation.Some?
    && s.calls[call].operation.value in s.operations
    && s.operations[s.calls[call].operation.value].phase == Returned(response)
  }

  /**
   For any interleaving of callers on any hosts: a call that returns gives the one recorded response of its request and
   carried the recorded digest, so all calls of one request that return agree.
   */
  lemma CallsReturnTheRecordedResponse(steps: seq<Step>, last: State, call: nat, other: nat, x: nat, y: nat)
    requires Reaches(EMPTY, steps, last)
    requires ReturnedTo(last, call, x) && ReturnedTo(last, other, y) && last.calls[call].request == last.calls[other].request
    ensures var c := last.calls[call];
            && c.request in last.store && last.store[c.request] == Receipt(c.digest, x)
            && x == y && c.digest == last.calls[other].digest
  {
    EveryRunKeepsInv(EMPTY, steps, last);
    var c, d := last.calls[call], last.calls[other];
    assert CallOk(last, c) && CallOk(last, d);
    assert OperationOk(last, c.operation.value) && OperationOk(last, d.operation.value);
  }

  /** At most one completion event exists for a request, and it exists exactly when a response is recorded. */
  lemma CompletionsAreUnique(steps: seq<Step>, last: State, i: nat, j: nat)
    requires Reaches(EMPTY, steps, last) && i < |last.completions| && j < |last.completions|
    ensures last.completions[i] == last.completions[j] ==> i == j
    ensures forall r :: r in last.store <==> r in last.completions
  {
    EveryRunKeepsInv(EMPTY, steps, last);
    if i != j {
      var a, b := if i < j then i else j, if i < j then j else i;
      assert last.completions[a] != last.completions[b];
    }
  }

  /** A host never has two unfinished operations for one request. */
  lemma OneFlightPerHost(steps: seq<Step>, last: State, a: nat, b: nat)
    requires Reaches(EMPTY, steps, last) && a in last.operations && b in last.operations
    requires Unfinished(last.operations[a]) && Unfinished(last.operations[b])
    requires last.operations[a].host == last.operations[b].host && last.operations[a].request == last.operations[b].request
    ensures a == b
  {
    EveryRunKeepsInv(EMPTY, steps, last);
    assert OperationOk(last, a) && OperationOk(last, b);
  }

  /** A recorded response is never replaced, whatever happens afterwards. */
  lemma ReceiptsAreStable(steps: seq<Step>, mid: State, more: seq<Step>, last: State, r: Request)
    requires Reaches(EMPTY, steps, mid) && Reaches(mid, more, last) && r in mid.store
    ensures r in last.store && last.store[r] == mid.store[r]
  {
    EveryRunKeepsInv(EMPTY, steps, mid);
    EveryRunKeepsInv(mid, more, last);
  }

  /** The mutable tables behind the steps: each host's in-flight map, and the shared store. */
  class Tables {
    var store: map<Request, Receipt>
    var completions: seq<Request>
    var operations: map<nat, Operation>
    var flights: map<Flight, nat>
    var calls: map<nat, Call>

    function View(): State
      reads this
    {
      State(store, completions, operations, flights, calls)
    }

    constructor ()
      ensures View() == EMPTY
    {
      store, completions, operations, flights, calls := map[], [], map[], map[], map[];
    }

    method Begin(call: nat, host: nat, request: Request, digest: nat, op: nat)
      requires Inv(View()) && call !in calls && op !in operations
      modifies this
      ensures View() == StartCall(old(View()), call, host, request, digest, op) && Inv(View())
    {
      CallKeepsInv(View(), call, host, request, digest, op);
      var flight := Flight(host, FlightKey(request));
      if flight in flights {
        var active := flights[flight];
        assert FlightOk(View(), flight);
        if operations[active].digest != digest {
          calls := calls[call := Call(request, digest, None)];
        } else {
          calls := calls[call := Call(request, digest, Some(active))];
        }
      } else {
        operations := operations[op := Operation(host, request, digest, Reading)];
        flights := flights[flight := op];
        calls := calls[call := Call(request, digest, Some(op))];
      }
    }

    method Read(op: nat)
      requires Inv(View()) && Enabled(View(), ReadStep(op))
      modifies this`operations
      ensures View() == ReadReceipt(old(View()), op) && Inv(View())
    {
      StepKeepsInv(View(), ReadStep(op));
      var o := operations[op];
      var phase := Working;
      if o.request in store {
        phase := if store[o.request].digest != o.digest then Failed(REUSED) else Returned(store[o.request].response);
      }
      operations := operations[op := o.(phase := phase)];
    }

    method CommitWork(op: nat)
      requires Inv(View()) && Enabled(View(), CommitStep(op))
      modifies this
      ensures View() == Commit(old(View()), op) && Inv(View())
    {
      StepKeepsInv(View(), CommitStep(op));
      var o := operations[op];
      if o.request in store {
        var raced := store[o.request];
        operations := operations[op := o.(phase := if raced.digest != o.digest then Failed(REUSED) else Returned(raced.response))];
      } else {
        completions := completions + [o.request];
        store := store[o.request := Receipt(o.digest, o.phase.result)];
        operations := operations[op := o.(phase := Returned(o.phase.result))];
      }
    }

    method Finish(op: nat)
      requires Inv(View()) && Enabled(View(), RetireStep(op))
      modifies this`flights
      ensures View() == Retire(old(View()), op) && Inv(View())
    {
      StepKeepsInv(View(), RetireStep(op));
      var flight := Flight(operations[op].host, FlightKey(operations[op].request));
      if flight in flights && flights[flight] == op {
        flights := flights - {flight};
      }
    }
  }
}
