/** What repeated calls are answered: which calls join, which are refused, and what an operation gives once its request is recorded. */
module IdempotencyAnswers {
  import opened Options
  import opened Idempotency

  // ---------------------------------------------------------------- one step

  /** The store holds a response for the request, given to a call with this digest. */
  predicate Recorded(s: State, request: Request, digest: nat, response: nat) {
    request in s.store && s.store[request].digest == digest && s.store[request].response == response
  }

  /** Reading finds the recorded response for the same digest, a conflict for another one, and otherwise leaves the work to be done. */
  lemma ReadingAnswers(s: State, op: nat)
    requires op in s.operations && s.operations[op].phase == Reading
    ensures var o, next := s.operations[op], ReadReceipt(s, op);
            && next == s.(operations := s.operations[op := o.(phase := next.operations[op].phase)])
            && (forall response :: Recorded(s, o.request, o.digest, response) ==> next.operations[op].phase == Returned(response))
            && (next.operations[op].phase == Working <==> o.request !in s.store)
            && (next.operations[op].phase == Failed("IDEMPOTENCY_KEY_REUSED") <==> o.request in s.store && s.store[o.request].digest != o.digest)
  {
  }

  /** A finished work is recorded with its digest and returned, unless its request was recorded meanwhile: then that record answers. */
  lemma CommittingAnswers(s: State, op: nat)
    requires op in s.operations && s.operations[op].phase.Worked?
    ensures var o, next := s.operations[op], Commit(s, op);
            && next.operations == s.operations[op := o.(phase := next.operations[op].phase)] && next.flights == s.flights && next.calls == s.calls
            && (forall response :: Recorded(s, o.request, o.digest, response) ==>
                  next.operations[op].phase == Returned(response) && next.store == s.store && next.completions == s.completions)
            && (o.request !in s.store ==>
                  && next.operations[op].phase == Returned(o.phase.result)
                  && next.store == s.store[o.request := Receipt(o.digest, o.phase.result)] && next.completions == s.completions + [o.request])
            && (next.operations[op].phase == Failed("IDEMPOTENCY_KEY_REUSED") <==> o.request in s.store && s.store[o.request].digest != o.digest)
            && (next.operations[op].phase.Failed? ==> next.store == s.store && next.completions == s.completions)
  {
  }

  /** The host has an operation for the request that it has not dropped from its table yet. */
  predicate InFlight(s: State, host: nat, request: Request, op: nat) {
    && op in s.operations && s.operations[op].host == host && s.operations[op].request == request
    && Flight(host, FlightKey(request)) in s.flights && s.flights[Flight(host, FlightKey(request))] == op
  }

  /** A call joins the operation in flight exactly when their digests agree, is refused when they differ, and else starts its own. */
  lemma CallsJoinExactlyWhen(steps: seq<Step>, s: State, call: nat, host: nat, request: Request, digest: nat, op: nat)
    requires Reaches(EMPTY, steps, s) && call !in s.calls && op !in s.operations
    ensures forall f :: f in s.flights ==> s.flights[f] in s.operations
    ensures var next := StartCall(s, call, host, request, digest, op);
            && (forall active :: InFlight(s, host, request, active) ==>
                  next == s.(calls := s.calls[call := Call(request, digest, if s.operations[active].digest == digest then Some(active) else None)]))
            && ((forall active :: active in s.operations ==> !InFlight(s, host, request, active)) ==>
                  && next.operations == s.operations[op := Operation(host, request, digest, Reading)] && next.store == s.store
                  && InFlight(next, host, request, op) && next.calls == s.calls[call := Call(request, digest, Some(op))])
    ensures forall active ::
              (active in s.operations && s.operations[active].host == host && s.operations[active].request == request
               && Unfinished(s.operations[active])) ==> InFlight(s, host, request, active)
  {
    EveryRunKeepsInv(EMPTY, steps, s);
    forall f | f in s.flights ensures s.flights[f] in s.operations {
      assert FlightOk(s, f);
    }
    var flight := Flight(host, FlightKey(request));
    if flight in s.flights {
      assert FlightOk(s, flight);
      FlightKeyIsInjective(s.operations[s.flights[flight]].request, request);
      assert InFlight(s, host, request, s.flights[flight]);
    }
    forall active | active in s.operations && s.operations[active].host == host && s.operations[active].request == request
                    && Unfinished(s.operations[active])
      ensures InFlight(s, host, request, active)
    {
      assert OperationOk(s, active);
    }
  }

  /** A finished operation leaves the table of its host, and no other operation does. */
  lemma RetiringDropsOwnFlight(s: State, op: nat)
    requires op in s.operations
    ensures var o, next := s.operations[op], Retire(s, op);
            && next.store == s.store && next.completions == s.completions && next.operations == s.operations && next.calls == s.calls
            && !InFlight(next, o.host, o.request, op)
            && (forall f :: f in next.flights <==> f in s.flights && !(f == Flight(o.host, FlightKey(o.request)) && s.flights[f] == op))
            && (forall f :: f in next.flights ==> next.flights[f] == s.flights[f])
  {
  }

  /** Work ends with its result, or fails without one. */
  lemma WorkEnds(s: State, op: nat, result: Option<nat>)
    requires op in s.operations && s.operations[op].phase == Working
    ensures var next := FinishWork(s, op, result);
            && next == s.(operations := s.operations[op := s.operations[op].(phase := next.operations[op].phase)])
            && (result.Some? ==> next.operations[op].phase == Worked(result.value))
            && (result == None ==> next.operations[op].phase == Failed("WORK_FAILED"))
  {
  }

  // ---------------------------------------------------------------- a repeated call

  /** What an operation ends with when its request was recorded before it began. */
  predicate Replays(o: Operation, receipt: Receipt) {
    || o.phase == Reading
    || (o.digest == receipt.digest && o.phase == Returned(receipt.response))
    || (o.digest != receipt.digest && o.phase == Failed("IDEMPOTENCY_KEY_REUSED"))
  }

  lemma StepReplays(s: State, step: Step, op: nat, request: Request)
    requires Inv(s) && Enabled(s, step) && request in s.store
    requires op in s.operations ==> s.operations[op].request == request ==> Replays(s.operations[op], s.store[request])
    ensures op in Apply(s, step).operations && Apply(s, step).operations[op].request == request ==>
              Replays(Apply(s, step).operations[op], s.store[request])
  {
  }

  lemma {:induction false} RunReplays(s: State, steps: seq<Step>, last: State, op: nat, request: Request)
    requires Inv(s) && Reaches(s, steps, last) && request in s.store
    requires op in s.operations ==> s.operations[op].request == request ==> Replays(s.operations[op], s.store[request])
    ensures op in last.operations && last.operations[op].request == request ==> Replays(last.operations[op], s.store[request])
    decreases |steps|
  {
    if steps != [] {
      StepKeepsInv(s, steps[0]);
      StepKeepsReceipts(s, steps[0]);
      StepReplays(s, steps[0], op, request);
      RunReplays(Apply(s, steps[0]), steps[1..], last, op, request);
    }
  }

  /**
   Once a request is recorded, whatever any hosts do: every operation begun later for it does no work. Past its reading it
   has returned the recorded response when its digest is the recorded one, and has been refused when it is another.
   */
  lemma LaterOperationsReplay(steps: seq<Step>, mid: State, more: seq<Step>, last: State, op: nat, request: Request)
    requires Reaches(EMPTY, steps, mid) && request in mid.store && Reaches(mid, more, last)
    requires op !in mid.operations && op in last.operations && last.operations[op].request == request
    ensures var o, receipt := last.operations[op], mid.store[request];
            && (o.phase != Reading && o.digest == receipt.digest ==> o.phase == Returned(receipt.response))
            && (o.phase != Reading && o.digest != receipt.digest ==> o.phase == Failed("IDEMPOTENCY_KEY_REUSED"))
  {
    EveryRunKeepsInv(EMPTY, steps, mid);
    RunReplays(mid, more, last, op, request);
  }

  /** A client that repeats a recorded request with its digest, on a host where it is not in flight, gets the recorded response. */
  lemma RepeatedCallReturns(steps: seq<Step>, s: State, call: nat, host: nat, request: Request, response: nat, digest: nat, op: nat)
    requires Reaches(EMPTY, steps, s) && Recorded(s, request, digest, response) && call !in s.calls && op !in s.operations
    requires forall active :: active in s.operations ==> !InFlight(s, host, request, active)
    ensures forall f :: f in s.flights ==> s.flights[f] in s.operations
    ensures var called := StartCall(s, call, host, request, digest, op);
            && op in called.operations && called.operations[op].phase == Reading
            && ReturnedTo(ReadReceipt(called, op), call, response)
  {
    CallsJoinExactlyWhen(steps, s, call, host, request, digest, op);
  }

  // ---------------------------------------------------------------- no call is refused without a reason

  /** Another digest stands against this one for the request: in the store, or in an operation. */
  predicate OtherDigestStored(s: State, request: Request, digest: nat) { request in s.store && s.store[request].digest != digest }

  predicate OtherDigestCalled(s: State, request: Request, digest: nat) {
    exists op :: op in s.operations && s.operations[op].request == request && s.operations[op].digest != digest
  }

  /** A record carries the digest of an operation of its request. */
  predicate CalledWith(s: State, request: Request, digest: nat) {
    exists op :: op in s.operations && s.operations[op].request == request && s.operations[op].digest == digest
  }

  predicate OperationJust(s: State, o: Operation) {
    o.phase.Failed? ==> o.phase.code == "WORK_FAILED" || (o.phase.code == "IDEMPOTENCY_KEY_REUSED" && OtherDigestStored(s, o.request, o.digest))
  }

  predicate Just(s: State) {
    && (forall op :: op in s.operations ==> OperationJust(s, s.operations[op]))
    && (forall c :: c in s.calls && s.calls[c].operation.None? ==> OtherDigestCalled(s, s.calls[c].request, s.calls[c].digest))
    && (forall r :: r in s.store ==> CalledWith(s, r, s.store[r].digest))
  }

  /** No step forgets an operation, and it keeps what it was called with. */
  predicate KeepsOperations(s: State, next: State) {
    forall op :: op in s.operations ==>
      && op in next.operations && next.operations[op].request == s.operations[op].request && next.operations[op].digest == s.operations[op].digest
  }

  lemma StepKeepsOperations(s: State, step: Step)
    requires Inv(s) && Enabled(s, step)
    ensures KeepsOperations(s, Apply(s, step))
  {
  }

  lemma ReasonsStay(s: State, next: State, request: Request, digest: nat)
    requires KeepsOperations(s, next) && OtherDigestCalled(s, request, digest)
    ensures OtherDigestCalled(next, request, digest)
  {
    var op :| op in s.operations && s.operations[op].request == request && s.operations[op].digest != digest;
    assert op in next.operations;
  }

  lemma OriginsStay(s: State, next: State, request: Request, digest: nat)
    requires KeepsOperations(s, next) && CalledWith(s, request, digest)
    ensures CalledWith(next, request, digest)
  {
    var op :| op in s.operations && s.operations[op].request == request && s.operations[op].digest == digest;
    assert op in next.operations;
  }

  lemma RecordsHaveOrigins(s: State, step: Step, r: Request)
    requires Inv(s) && Enabled(s, step) && Just(s) && r in Apply(s, step).store
    ensures CalledWith(Apply(s, step), r, Apply(s, step).store[r].digest)
  {
    if r in s.store {
      StepKeepsReceipts(s, step);
      StepKeepsOperations(s, step);
      OriginsStay(s, Apply(s, step), r, s.store[r].digest);
    } else {
      assert step.CommitStep? && step.operation in Apply(s, step).operations;
    }
  }

  lemma OperationsStayJust(s: State, step: Step, op: nat)
    requires Inv(s) && Enabled(s, step) && Just(s) && op in Apply(s, step).operations
    ensures OperationJust(Apply(s, step), Apply(s, step).operations[op])
  {
    StepKeepsReceipts(s, step);
    if step.CallStep? || op != step.operation {
      UntouchedOperations(s, step, op);
    } else if step.ReadStep? {
      ReadingAnswers(s, op);
    } else if step.CommitStep? {
      CommittingAnswers(s, op);
    }
  }

  lemma UntouchedOperations(s: State, step: Step, op: nat)
    requires Inv(s) && Enabled(s, step) && op in Apply(s, step).operations && (step.CallStep? || op != step.operation)
    ensures if op in s.operations then Apply(s, step).operations[op] == s.operations[op] else Apply(s, step).operations[op].phase == Reading
  {
  }

  lemma RefusalsHaveReasons(s: State, call: nat, host: nat, request: Request, digest: nat, op: nat)
    requires Inv(s) && op !in s.operations && StartCall(s, call, host, request, digest, op).calls[call].operation.None?
    ensures OtherDigestCalled(s, request, digest)
  {
    var flight := Flight(host, FlightKey(request));
    assert FlightOk(s, flight);
    FlightKeyIsInjective(s.operations[s.flights[flight]].request, request);
  }

  lemma StepKeepsJust(s: State, step: Step)
    requires Inv(s) && Enabled(s, step) && Just(s)
    ensures Just(Apply(s, step))
  {
    var next := Apply(s, step);
    StepKeepsOperations(s, step);
    forall op | op in next.operations ensures OperationJust(next, next.operations[op]) {
      OperationsStayJust(s, step, op);
    }
    forall c | c in next.calls && next.calls[c].operation.None? ensures OtherDigestCalled(next, next.calls[c].request, next.calls[c].digest) {
      if c !in s.calls {
        RefusalsHaveReasons(s, step.call, step.host, step.request, step.digest, step.operation);
      }
      ReasonsStay(s, next, next.calls[c].request, next.calls[c].digest);
    }
    forall r | r in next.store ensures CalledWith(next, r, next.store[r].digest) {
      RecordsHaveOrigins(s, step, r);
    }
  }

  lemma {:induction false} EveryRunKeepsJust(s: State, steps: seq<Step>, last: State)
    requires Inv(s) && Just(s) && Reaches(s, steps, last)
    ensures Just(last)
    decreases |steps|
  {
    if steps != [] {
      StepKeepsInv(s, steps[0]);
      StepKeepsJust(s, steps[0]);
      EveryRunKeepsJust(Apply(s, steps[0]), steps[1..], last);
    }
  }

  /**
   Over every run: an operation fails only with its work, or because its request is recorded with another digest; a call is
   refused only because an operation of its request has another digest.
   */
  lemma RefusalsAreJustified(steps: seq<Step>, last: State)
    requires Reaches(EMPTY, steps, last)
    ensures forall op :: op in last.operations && last.operations[op].phase.Failed? && last.operations[op].phase.code != "WORK_FAILED" ==>
              && last.operations[op].phase.code == "IDEMPOTENCY_KEY_REUSED"
              && last.operations[op].request in last.store && last.store[last.operations[op].request].digest != last.operations[op].digest
    ensures forall c :: c in last.calls && last.calls[c].operation.None? ==>
              exists op :: op in last.operations && last.operations[op].request == last.calls[c].request
                           && last.operations[op].digest != last.calls[c].digest
  {
    EveryRunKeepsJust(EMPTY, steps, last);
    forall c | c in last.calls && last.calls[c].operation.None?
      ensures exists op :: op in last.operations && last.operations[op].request == last.calls[c].request
                           && last.operations[op].digest != last.calls[c].digest
    {
      assert OtherDigestCalled(last, last.calls[c].request, last.calls[c].digest);
    }
  }

  /** A client that never varies its request is never refused: its calls all join or start, and fail at most with the work. */
  lemma ConstantClientsAreServed(steps: seq<Step>, last: State, request: Request, digest: nat)
    requires Reaches(EMPTY, steps, last)
    requires forall op :: op in last.operations && last.operations[op].request == request ==> last.operations[op].digest == digest
    ensures forall op :: op in last.operations && last.operations[op].request == request && last.operations[op].phase.Failed? ==>
              last.operations[op].phase.code == "WORK_FAILED"
    ensures forall c :: c in last.calls && last.calls[c].request == request && last.calls[c].digest == digest ==>
              last.calls[c].operation.Some?
  {
    EveryRunKeepsJust(EMPTY, steps, last);
    forall op | op in last.operations && last.operations[op].request == request && last.operations[op].phase.Failed?
      ensures last.operations[op].phase.code == "WORK_FAILED"
    {
      assert OperationJust(last, last.operations[op]);
      assert request in last.store ==> CalledWith(last, request, last.store[request].digest);
    }
    forall c | c in last.calls && last.calls[c].request == request && last.calls[c].digest == digest
      ensures last.calls[c].operation.Some?
    {
      assert last.calls[c].operation.None? ==> OtherDigestCalled(last, request, digest);
    }
  }
}
