/**
 Partial delivery decisions: every decision names some outputs of one delivery set, and the stored decision carries
 the earlier choices forward. The stored form is proved equal to a fold over everything that was ever asked.
 */
module DeliveryDecisions {
  import opened Options

  datatype Choice = Accept(reviewed: seq<string>) | RequestChanges(failed: seq<string>, instruction: string) | Defer

  datatype Item = Item(key: string, digest: nat, choice: Choice)
  datatype Output = Output(key: string, digest: nat)

  /** Delivery sets are named by the digest of their content, so one id always means the same outputs. */
  datatype DeliverySet = DeliverySet(id: nat, outputs: seq<Output>)

  datatype Decision = Decision(deliverySet: nat, version: nat, items: seq<Item>)

  datatype Request = Request(delivery: DeliverySet, items: seq<Item>)

  function FindItem(items: seq<Item>, key: string): (found: Option<Item>)
    ensures found.Some? ==> found.value in items && found.value.key == key
    ensures found.None? ==> forall i :: 0 <= i < |items| ==> items[i].key != key
  {
    if items == [] then None
    else if items[0].key == key then Some(items[0])
    else FindItem(items[1..], key)
  }

  predicate DistinctKeys(items: seq<Item>) {
    forall i, j :: 0 <= i < j < |items| ==> items[i].key != items[j].key
  }

  predicate DistinctOutputs(outputs: seq<Output>) {
    forall i, j :: 0 <= i < j < |outputs| ==> outputs[i].key != outputs[j].key
  }

  predicate Names(outputs: seq<Output>, key: string) {
    exists i :: 0 <= i < |outputs| && outputs[i].key == key
  }

  /** The request is not empty, decides no output twice, and decides only outputs of the set. */
  predicate RequestValid(r: Request) {
    && r.items != [] && DistinctKeys(r.items)
    && forall i :: 0 <= i < |r.items| ==> Names(r.delivery.outputs, r.items[i].key)
  }

  /** The last decision recorded for a set, in version order. */
  function Latest(decisions: seq<Decision>, deliverySet: nat): (found: Option<Decision>)
    ensures found.Some? ==> found.value in decisions && found.value.deliverySet == deliverySet
  {
    if decisions == [] then None
    else if decisions[|decisions| - 1].deliverySet == deliverySet then Some(decisions[|decisions| - 1])
    else Latest(decisions[..|decisions| - 1], deliverySet)
  }

  /** The decision of one output: chosen now, or carried forward, or deferred. */
  function Carried(output: Output, chosen: seq<Item>, previous: Option<Decision>): Item {
    var now := FindItem(chosen, output.key);
    var before := if previous.Some? then FindItem(previous.value.items, output.key) else None;
    if now.Some? then now.value
    else if before.Some? then before.value
    else Item(output.key, output.digest, Defer)
  }

  function CarriedItems(r: Request, previous: Option<Decision>): (items: seq<Item>)
    ensures |items| == |r.delivery.outputs|
    ensures forall i :: 0 <= i < |items| ==> items[i] == Carried(r.delivery.outputs[i], r.items, previous)
  {
    seq(|r.delivery.outputs|, i requires 0 <= i < |r.delivery.outputs| => Carried(r.delivery.outputs[i], r.items, previous))
  }

  /** The digests of all items must still be those of the outputs. */
  predicate DigestsMatch(items: seq<Item>, outputs: seq<Output>) {
    |items| == |outputs| && forall i :: 0 <= i < |items| ==> items[i].digest == outputs[i].digest
  }

  datatype Log = Log(goalVersion: nat, decisions: seq<Decision>)

  /** `criteriaReviewed` is the verdict of the per-item rules on reviewed and failed criteria. */
  function Decide(log: Log, r: Request, criteriaReviewed: bool): Result<Log> {
    if !RequestValid(r) then Err("GOAL_DECISION_INVALID")
    else
      var items := CarriedItems(r, Latest(log.decisions, r.delivery.id));
      if !DigestsMatch(items, r.delivery.outputs) then Err("GOAL_DELIVERY_CHANGED")
      else if !criteriaReviewed then Err("GOAL_CRITERIA_NOT_REVIEWED")
      else Ok(Log(log.goalVersion + 1, log.decisions + [Decision(r.delivery.id, log.goalVersion + 1, items)]))
  }

  /** A decision, or any other change of the goal between decisions. */
  datatype Step = DecideStep(request: Request, criteriaReviewed: bool) | OtherChange

  function Apply(log: Log, step: Step): Log {
    match step
    case OtherChange => log.(goalVersion := log.goalVersion + 1)
    case DecideStep(r, reviewed) => (var next := Decide(log, r, reviewed); if next.Ok? then next.value else log)
  }

  function Outcome(start: nat, steps: seq<Step>): Log {
    if steps == [] then Log(start, []) else Apply(Outcome(start, steps[..|steps| - 1]), steps[|steps| - 1])
  }

  /** The reference: the choice made for `key` by the last recorded request that named it, looking at requests only. */
  function LastChoice(start: nat, steps: seq<Step>, deliverySet: nat, key: string): Option<Item> {
    if steps == [] then None
    else
      var front, last := steps[..|steps| - 1], steps[|steps| - 1];
      if last.DecideStep? && last.request.delivery.id == deliverySet && FindItem(last.request.items, key).Some?
         && Decide(Outcome(start, front), last.request, last.criteriaReviewed).Ok?
      then FindItem(last.request.items, key)
      else LastChoice(start, front, deliverySet, key)
  }

  /** All requests that address one set address the same outputs, whose keys are distinct. */
  predicate Consistent(steps: seq<Step>, delivery: DeliverySet) {
    && DistinctOutputs(delivery.outputs)
    && forall i :: 0 <= i < |steps| && steps[i].DecideStep? && steps[i].request.delivery.id == delivery.id ==>
         steps[i].request.delivery == delivery
  }

  lemma {:induction false} FindCarried(outputs: seq<Output>, items: seq<Item>, i: nat)
    requires DistinctOutputs(outputs) && |items| == |outputs| && i < |items|
    requires forall j :: 0 <= j < |items| ==> items[j].key == outputs[j].key
    ensures FindItem(items, outputs[i].key) == Some(items[i])
  {
    if i > 0 {
      assert items[0].key != outputs[i].key;
      FindCarried(outputs[1..], items[1..], i - 1);
    }
  }

  /** A stored decision lists the outputs of its set in order. */
  predicate ListsOutputs(d: Decision, outputs: seq<Output>) {
    |d.items| == |outputs| && forall j :: 0 <= j < |outputs| ==> d.items[j].key == outputs[j].key
  }

  /** What the stored decision holds for an output, given the last explicit choice for it. */
  predicate HoldsChoice(latest: Option<Decision>, outputs: seq<Output>, i: nat, choice: Option<Item>)
    requires i < |outputs|
  {
    && (latest.None? ==> choice.None?)
    && (latest.Some? ==>
          && ListsOutputs(latest.value, outputs)
          && latest.value.items[i] == if choice.Some? then choice.value else Item(outputs[i].key, outputs[i].digest, Defer))
  }

  /** A recorded decision holds the choices of its request and carries the others forward. */
  lemma RecordedHolds(log: Log, r: Request, reviewed: bool, i: nat, choice: Option<Item>)
    requires DistinctOutputs(r.delivery.outputs) && i < |r.delivery.outputs| && Decide(log, r, reviewed).Ok?
    requires HoldsChoice(Latest(log.decisions, r.delivery.id), r.delivery.outputs, i, choice)
    ensures var now := FindItem(r.items, r.delivery.outputs[i].key);
            HoldsChoice(Latest(Decide(log, r, reviewed).value.decisions, r.delivery.id), r.delivery.outputs, i, if now.Some? then now else choice)
  {
    var outputs, previous := r.delivery.outputs, Latest(log.decisions, r.delivery.id);
    if previous.Some? {
      FindCarried(outputs, previous.value.items, i);
    }
    CarriedKeepsKeys(r, previous);
  }

  lemma CarriedKeepsKeys(r: Request, previous: Option<Decision>)
    ensures forall j :: 0 <= j < |r.delivery.outputs| ==> CarriedItems(r, previous)[j].key == r.delivery.outputs[j].key
  {
  }

  lemma OtherSetsStay(log: Log, r: Request, reviewed: bool, deliverySet: nat)
    requires Decide(log, r, reviewed).Ok? && r.delivery.id != deliverySet
    ensures Latest(Decide(log, r, reviewed).value.decisions, deliverySet) == Latest(log.decisions, deliverySet)
  {
    var after := Decide(log, r, reviewed).value;
    assert after.decisions[..|log.decisions|] == log.decisions;
  }

  /** The latest decision of a set holds, for each output, the last explicit choice made for it, or a deferral. */
  lemma {:induction false} LatestHoldsLastChoices(start: nat, steps: seq<Step>, delivery: DeliverySet, i: nat)
    requires Consistent(steps, delivery) && i < |delivery.outputs|
    ensures HoldsChoice(Latest(Outcome(start, steps).decisions, delivery.id), delivery.outputs, i,
                        LastChoice(start, steps, delivery.id, delivery.outputs[i].key))
  {
    if steps != [] {
      var front, last := steps[..|steps| - 1], steps[|steps| - 1];
      LatestHoldsLastChoices(start, front, delivery, i);
      var before := Outcome(start, front);
      if last.DecideStep? && Decide(before, last.request, last.criteriaReviewed).Ok? {
        if last.request.delivery.id == delivery.id {
          assert steps[|steps| - 1].request.delivery == delivery;
          RecordedHolds(before, last.request, last.criteriaReviewed, i, LastChoice(start, front, delivery.id, delivery.outputs[i].key));
        } else {
          OtherSetsStay(before, last.request, last.criteriaReviewed, delivery.id);
        }
      }
    }
  }

  predicate Increasing(log: Log) {
    && (forall i, j :: 0 <= i < j < |log.decisions| ==> log.decisions[i].version < log.decisions[j].version)
    && (forall i :: 0 <= i < |log.decisions| ==> log.decisions[i].version <= log.goalVersion)
  }

  /** Versions of recorded decisions strictly increase, so ordering them by version keeps their order. */
  lemma {:induction false} VersionsIncrease(start: nat, steps: seq<Step>)
    ensures Increasing(Outcome(start, steps))
  {
    if steps != [] {
      VersionsIncrease(start, steps[..|steps| - 1]);
    }
  }

  /** A stored decision holds every output of its set in order, at the digest it has there. */
  predicate MatchesOutputs(d: Decision, outputs: seq<Output>) {
    |d.items| == |outputs| && forall j :: 0 <= j < |outputs| ==> d.items[j].key == outputs[j].key && d.items[j].digest == outputs[j].digest
  }

  lemma {:induction false} LatestMatchesOutputs(start: nat, steps: seq<Step>, delivery: DeliverySet)
    requires Consistent(steps, delivery)
    ensures var latest := Latest(Outcome(start, steps).decisions, delivery.id);
            latest.Some? ==> MatchesOutputs(latest.value, delivery.outputs)
  {
    if steps != [] {
      var front, last := steps[..|steps| - 1], steps[|steps| - 1];
      LatestMatchesOutputs(start, front, delivery);
      var before := Outcome(start, front);
      if last.DecideStep? && Decide(before, last.request, last.criteriaReviewed).Ok? {
        if last.request.delivery.id == delivery.id {
          assert steps[|steps| - 1].request.delivery == delivery;
          CarriedKeepsKeys(last.request, Latest(before.decisions, delivery.id));
        } else {
          OtherSetsStay(before, last.request, last.criteriaReviewed, delivery.id);
        }
      }
    }
  }

  predicate IsOutput(outputs: seq<Output>, item: Item) { exists o :: o in outputs && o.key == item.key && o.digest == item.digest }

  /** The items name outputs of the set, each at most once, at their present digests. */
  predicate DecidesOutputs(items: seq<Item>, outputs: seq<Output>) {
    && items != [] && (forall i, j :: 0 <= i < j < |items| ==> items[i].key != items[j].key)
    && forall i :: 0 <= i < |items| ==> IsOutput(outputs, items[i])
  }

  lemma CarriedMatches(output: Output, items: seq<Item>, outputs: seq<Output>, previous: Option<Decision>, k: nat)
    requires DistinctOutputs(outputs) && k < |outputs| && outputs[k] == output
    requires previous.Some? ==> MatchesOutputs(previous.value, outputs)
    ensures Carried(output, items, previous).digest == output.digest <==>
              FindItem(items, output.key).Some? ==> FindItem(items, output.key).value.digest == output.digest
  {
    if previous.Some? {
      FindCarried(outputs, previous.value.items, k);
    }
  }

  lemma ItemIsFound(items: seq<Item>, i: nat)
    requires i < |items| && DistinctKeys(items)
    ensures FindItem(items, items[i].key) == Some(items[i])
  {
    var found := FindItem(items, items[i].key);
    if found.Some? {
      var j :| 0 <= j < |items| && items[j] == found.value;
    }
  }

  lemma AllMatchExactlyWhen(r: Request, previous: Option<Decision>)
    requires DistinctOutputs(r.delivery.outputs) && RequestValid(r)
    requires previous.Some? ==> MatchesOutputs(previous.value, r.delivery.outputs)
    ensures DigestsMatch(CarriedItems(r, previous), r.delivery.outputs) <==> DecidesOutputs(r.items, r.delivery.outputs)
  {
    var outputs, items := r.delivery.outputs, CarriedItems(r, previous);
    forall k | 0 <= k < |outputs|
      ensures items[k].digest == outputs[k].digest <==>
                FindItem(r.items, outputs[k].key).Some? ==> FindItem(r.items, outputs[k].key).value.digest == outputs[k].digest
    {
      CarriedMatches(outputs[k], r.items, outputs, previous, k);
    }
    forall i | 0 <= i < |r.items| ensures FindItem(r.items, r.items[i].key) == Some(r.items[i]) {
      ItemIsFound(r.items, i);
    }
    if DigestsMatch(items, outputs) {
      forall i | 0 <= i < |r.items| ensures IsOutput(outputs, r.items[i]) {
        assert Names(outputs, r.items[i].key);
        var k :| 0 <= k < |outputs| && outputs[k].key == r.items[i].key;
        assert outputs[k] in outputs && items[k].digest == outputs[k].digest;
      }
    }
    if DecidesOutputs(r.items, outputs) {
      forall k | 0 <= k < |outputs| ensures items[k].digest == outputs[k].digest {
        ChosenAtItsDigest(r.items, outputs, k);
      }
    }
  }

  lemma ChosenAtItsDigest(items: seq<Item>, outputs: seq<Output>, k: nat)
    requires DistinctOutputs(outputs) && DecidesOutputs(items, outputs) && k < |outputs|
    ensures FindItem(items, outputs[k].key).Some? ==> FindItem(items, outputs[k].key).value.digest == outputs[k].digest
  {
    var found := FindItem(items, outputs[k].key);
    if found.Some? {
      var i :| 0 <= i < |items| && items[i] == found.value;
      assert IsOutput(outputs, items[i]);
      var o :| o in outputs && o.key == items[i].key && o.digest == items[i].digest;
      var j :| 0 <= j < |outputs| && outputs[j] == o;
    }
  }

  /**
   After any decisions a request is recorded exactly when it decides outputs of its set at their digests, none twice, and
   the criteria rules hold for it: what was decided earlier never stands in the way. It is recorded at the next version.
   */
  lemma DecidesExactlyWhen(start: nat, steps: seq<Step>, r: Request, reviewed: bool)
    requires Consistent(steps, r.delivery)
    ensures var log := Outcome(start, steps);
            var next := Decide(log, r, reviewed);
            && (next.Ok? <==> DecidesOutputs(r.items, r.delivery.outputs) && reviewed)
            && (next.Ok? ==>
                  && next.value.goalVersion == log.goalVersion + 1 && |next.value.decisions| == |log.decisions| + 1
                  && next.value.decisions[..|log.decisions|] == log.decisions
                  && next.value.decisions[|log.decisions|].deliverySet == r.delivery.id
                  && next.value.decisions[|log.decisions|].version == log.goalVersion + 1)
  {
    LatestMatchesOutputs(start, steps, r.delivery);
    if RequestValid(r) {
      AllMatchExactlyWhen(r, Latest(Outcome(start, steps).decisions, r.delivery.id));
    } else {
      InvalidDecidesNothing(r);
    }
  }

  lemma InvalidDecidesNothing(r: Request)
    ensures DecidesOutputs(r.items, r.delivery.outputs) ==> RequestValid(r)
  {
    if DecidesOutputs(r.items, r.delivery.outputs) {
      forall i | 0 <= i < |r.items| ensures Names(r.delivery.outputs, r.items[i].key) {
        assert IsOutput(r.delivery.outputs, r.items[i]);
        var o :| o in r.delivery.outputs && o.key == r.items[i].key && o.digest == r.items[i].digest;
        var j :| 0 <= j < |r.delivery.outputs| && r.delivery.outputs[j] == o;
      }
    }
  }

  /** A request that is not recorded fails for the first of these reasons. */
  lemma RefusalsNameTheirReason(log: Log, r: Request, reviewed: bool)
    ensures var next := Decide(log, r, reviewed);
            && (next == Err("GOAL_DECISION_INVALID") ==> !DecidesOutputs(r.items, r.delivery.outputs))
            && (next == Err("GOAL_CRITERIA_NOT_REVIEWED") ==> !reviewed)
            && (next.Err? ==> next.code == "GOAL_DECISION_INVALID" || next.code == "GOAL_DELIVERY_CHANGED" || next.code == "GOAL_CRITERIA_NOT_REVIEWED")
  {
    InvalidDecidesNothing(r);
  }

  /** The stored decisions of a goal, with the transaction that records a new one. */
  class DecisionStore {
    var goalVersion: nat
    var decisions: seq<Decision>

    function View(): Log
      reads this
    {
      Log(goalVersion, decisions)
    }

    constructor (version: nat)
      ensures View() == Log(version, [])
    {
      goalVersion, decisions := version, [];
    }

    method DecideGoalDelivery(r: Request, criteriaReviewed: bool) returns (error: Option<string>)
      modifies this
      ensures Decide(old(View()), r, criteriaReviewed).Ok? ==> error.None? && View() == Decide(old(View()), r, criteriaReviewed).value
      ensures Decide(old(View()), r, criteriaReviewed).Err? ==>
                error == Some(Decide(old(View()), r, criteriaReviewed).code) && View() == old(View())
    {
      if !RequestValid(r) {
        return Some("GOAL_DECISION_INVALID");
      }
      var previous := Latest(decisions, r.delivery.id);
      var items: seq<Item> := [];
      var i := 0;
      while i < |r.delivery.outputs|
        invariant 0 <= i <= |r.delivery.outputs| && |items| == i
        invariant forall j :: 0 <= j < i ==> items[j] == Carried(r.delivery.outputs[j], r.items, previous)
      {
        items := items + [Carried(r.delivery.outputs[i], r.items, previous)];
        i := i + 1;
      }
      assert items == CarriedItems(r, previous);
      if !DigestsMatch(items, r.delivery.outputs) {
        return Some("GOAL_DELIVERY_CHANGED");
      }
      if !criteriaReviewed {
        return Some("GOAL_CRITERIA_NOT_REVIEWED");
      }
      goalVersion := goalVersion + 1;
      decisions := decisions + [Decision(r.delivery.id, goalVersion, items)];
      error := None;
    }
  }
}
