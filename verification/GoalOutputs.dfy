/** The checks on what a goal delivers: the outputs themselves, and the item-by-item acceptance of a whole delivery. */
module GoalOutputs {
  import opened Options

  /** `formed` is the verdict on identifier, status and evidence list, `evidence` the error of reading the evidence. */
  datatype Check = Check(id: nat, passed: bool, formed: bool, evidence: Option<string>)

  /** `formed` is the verdict on preview and digest, `resources` the error of reading the output or its sources. */
  datatype Output = Output(key: nat, digest: nat, criteriaVersion: nat, checks: seq<Check>, formed: bool, resources: Option<string>)

  datatype Deliverable = Deliverable(key: nat, required: bool, criteria: seq<nat>)

  datatype Accepted = Accepted(key: nat, digest: nat, reviewed: seq<nat>)

  const OUTPUT_INVALID := "GOAL_OUTPUT_INVALID"
  const INCOMPLETE := "GOAL_DELIVERY_INCOMPLETE"
  const NOT_REVIEWED := "GOAL_CRITERIA_NOT_REVIEWED"
  const MOST_OUTPUTS := 20

  function SetOf(s: seq<nat>): (r: set<nat>)
    ensures forall x :: x in r <==> x in s
  {
    set x | x in s
  }

  predicate Distinct(s: seq<nat>) { forall i, j :: 0 <= i < j < |s| ==> s[i] != s[j] }

  /** Comparing the size of the set with the length of the list finds exactly the repetitions. */
  lemma {:induction false} SetSizeFindsRepeats(s: seq<nat>)
    ensures |SetOf(s)| <= |s|
    ensures |SetOf(s)| == |s| <==> Distinct(s)
    decreases |s|
  {
    if s != [] {
      var front, last := s[..|s| - 1], s[|s| - 1];
      SetSizeFindsRepeats(front);
      assert s == front + [last];
      assert SetOf(s) == SetOf(front) + {last};
      if last in front {
        assert SetOf(s) == SetOf(front);
        var i :| 0 <= i < |front| && front[i] == last;
        assert s[i] == s[|s| - 1];
      } else {
        assert Distinct(front) ==> Distinct(s);
        assert Distinct(s) ==> Distinct(front);
      }
    }
  }

  function OutputKeys(s: seq<Output>): seq<nat> { seq(|s|, i requires 0 <= i < |s| => s[i].key) }

  function AcceptedKeys(s: seq<Accepted>): seq<nat> { seq(|s|, i requires 0 <= i < |s| => s[i].key) }

  function CheckIds(s: seq<Check>): seq<nat> { seq(|s|, i requires 0 <= i < |s| => s[i].id) }

  predicate Listed(deliverables: seq<Deliverable>, key: nat) { exists d :: d in deliverables && d.key == key }

  predicate Delivered(outputs: seq<Output>, key: nat) { exists o :: o in outputs && o.key == key }

  predicate AllPassed(checks: seq<Check>) { forall c :: c in checks ==> c.passed }

  /** What is wrong with one output, if anything. */
  function Fault(o: Output, deliverables: seq<Deliverable>, criteriaVersion: nat): Option<string> {
    if !Listed(deliverables, o.key) || !o.formed then Some(OUTPUT_INVALID)
    else if o.criteriaVersion != criteriaVersion then Some("GOAL_CRITERIA_CHANGED")
    else if o.checks == [] || |SetOf(CheckIds(o.checks))| != |o.checks| then Some(OUTPUT_INVALID)
    else if o.resources.Some? then o.resources
    else EvidenceFault(o.checks)
  }

  /** The first check whose form or evidence fails. */
  function EvidenceFault(checks: seq<Check>): (r: Option<string>)
    ensures r.None? <==> forall c :: c in checks ==> c.formed && c.evidence.None?
  {
    if checks == [] then None
    else if !checks[0].formed then Some(OUTPUT_INVALID)
    else if checks[0].evidence.Some? then checks[0].evidence
    else
      assert checks == [checks[0]] + checks[1..];
      EvidenceFault(checks[1..])
  }

  /** An output without fault: a deliverable, well formed, made for these criteria, with distinct checks, all of them and all resources readable. */
  predicate Faultless(o: Output, deliverables: seq<Deliverable>, criteriaVersion: nat) {
    && (exists d :: d in deliverables && d.key == o.key) && o.formed && o.criteriaVersion == criteriaVersion
    && o.checks != [] && (forall i, j :: 0 <= i < j < |o.checks| ==> o.checks[i].id != o.checks[j].id)
    && o.resources == None && forall c :: c in o.checks ==> c.formed && c.evidence == None
  }

  lemma DistinctChecks(checks: seq<Check>)
    ensures |SetOf(CheckIds(checks))| == |checks| <==> forall i, j :: 0 <= i < j < |checks| ==> checks[i].id != checks[j].id
  {
    SetSizeFindsRepeats(CheckIds(checks));
    assert forall i :: 0 <= i < |checks| ==> CheckIds(checks)[i] == checks[i].id;
  }

  lemma DistinctOutputs(outputs: seq<Output>)
    ensures Distinct(OutputKeys(outputs)) <==> forall i, j :: 0 <= i < j < |outputs| ==> outputs[i].key != outputs[j].key
  {
    assert forall i :: 0 <= i < |outputs| ==> OutputKeys(outputs)[i] == outputs[i].key;
  }

  lemma FaultlessExactlyWhen(o: Output, deliverables: seq<Deliverable>, criteriaVersion: nat)
    ensures Fault(o, deliverables, criteriaVersion) == None <==> Faultless(o, deliverables, criteriaVersion)
  {
    DistinctChecks(o.checks);
  }

  /** The fault reported is the first one, in the order form, criteria, checks, resources, evidence. */
  lemma FaultsComeInOrder(o: Output, deliverables: seq<Deliverable>, criteriaVersion: nat)
    ensures var f, listed := Fault(o, deliverables, criteriaVersion), exists d :: d in deliverables && d.key == o.key;
            && (!listed || !o.formed ==> f == Some("GOAL_OUTPUT_INVALID"))
            && (listed && o.formed && o.criteriaVersion != criteriaVersion ==> f == Some("GOAL_CRITERIA_CHANGED"))
            && (listed && o.formed && o.criteriaVersion == criteriaVersion ==>
                  && ((o.checks == [] || exists i, j :: 0 <= i < j < |o.checks| && o.checks[i].id == o.checks[j].id) ==> f == Some("GOAL_OUTPUT_INVALID"))
                  && (o.checks != [] && (forall i, j :: 0 <= i < j < |o.checks| ==> o.checks[i].id != o.checks[j].id) && o.resources.Some? ==> f == o.resources))
  {
    DistinctChecks(o.checks);
  }

  /** Up to twenty outputs under different keys, none with a fault. */
  predicate WellDelivered(deliverables: seq<Deliverable>, criteriaVersion: nat, outputs: seq<Output>) {
    && |outputs| <= 20 && (forall i, j :: 0 <= i < j < |outputs| ==> outputs[i].key != outputs[j].key)
    && forall o :: o in outputs ==> Faultless(o, deliverables, criteriaVersion)
  }

  /** Every required deliverable is there, and every check has passed. */
  predicate DeliveredInFull(deliverables: seq<Deliverable>, outputs: seq<Output>) {
    && (forall d :: d in deliverables && d.required ==> exists o :: o in outputs && o.key == d.key)
    && (forall o, c :: o in outputs && c in o.checks ==> c.passed)
  }

  /** Fails on the first faulty output; otherwise says whether the delivery is complete and all checks passed. */
  method CheckOutputs(deliverables: seq<Deliverable>, criteriaVersion: nat, outputs: seq<Output>) returns (r: Result<bool>)
    ensures r.Ok? <==>
              && |outputs| <= MOST_OUTPUTS && Distinct(OutputKeys(outputs))
              && forall o :: o in outputs ==> Fault(o, deliverables, criteriaVersion).None?
    ensures r.Ok? <==> WellDelivered(deliverables, criteriaVersion, outputs)
    ensures r == Ok(true) <==> WellDelivered(deliverables, criteriaVersion, outputs) && DeliveredInFull(deliverables, outputs)
    ensures r.Err? && |outputs| <= MOST_OUTPUTS && Distinct(OutputKeys(outputs)) ==>
              exists i :: 0 <= i < |outputs| && Fault(outputs[i], deliverables, criteriaVersion) == Some(r.code)
                          && forall j :: 0 <= j < i ==> Fault(outputs[j], deliverables, criteriaVersion).None?
  {
    SetSizeFindsRepeats(OutputKeys(outputs));
    DistinctOutputs(outputs);
    forall o | o in outputs ensures Fault(o, deliverables, criteriaVersion) == None <==> Faultless(o, deliverables, criteriaVersion) {
      FaultlessExactlyWhen(o, deliverables, criteriaVersion);
    }
    if |outputs| > MOST_OUTPUTS || |SetOf(OutputKeys(outputs))| != |outputs| {
      return Err(OUTPUT_INVALID);
    }
    var i := 0;
    while i < |outputs|
      invariant 0 <= i <= |outputs|
      invariant forall j :: 0 <= j < i ==> Fault(outputs[j], deliverables, criteriaVersion).None?
    {
      var fault := Fault(outputs[i], deliverables, criteriaVersion);
      if fault.Some? {
        assert outputs[i] in outputs;
        return Err(fault.value);
      }
      i := i + 1;
    }
    r := Ok((forall d :: d in deliverables && d.required ==> Delivered(outputs, d.key))
            && (forall o :: o in outputs ==> AllPassed(o.checks)));
  }

  // ---------------------------------------------------------------- acceptance

  function FindAccepted(items: seq<Accepted>, key: nat): (r: Option<Accepted>)
    ensures r.Some? ==> r.value in items && r.value.key == key
    ensures r.None? ==> forall a :: a in items ==> a.key != key
  {
    if items == [] then None else if items[0].key == key then Some(items[0]) else FindAccepted(items[1..], key)
  }

  function CriteriaOf(deliverables: seq<Deliverable>, key: nat): seq<nat> {
    if deliverables == [] then [] else if deliverables[0].key == key then deliverables[0].criteria else CriteriaOf(deliverables[1..], key)
  }

  /** They are those of the deliverable with that key, the first one if there are several. */
  lemma {:induction false} CriteriaAreOfTheDeliverable(deliverables: seq<Deliverable>, key: nat, k: nat)
    requires forall i :: 0 <= i < k && i < |deliverables| ==> deliverables[i].key != key
    ensures k < |deliverables| && deliverables[k].key == key ==> CriteriaOf(deliverables, key) == deliverables[k].criteria
    ensures k >= |deliverables| ==> CriteriaOf(deliverables, key) == []
    decreases |deliverables|
  {
    if deliverables != [] && k > 0 {
      CriteriaAreOfTheDeliverable(deliverables[1..], key, k - 1);
    }
  }

  /** The host's test that every criterion was reviewed: lengths, repetitions, and one look-up per criterion. */
  predicate Reviewed(reviewed: seq<nat>, criteria: seq<nat>) {
    |reviewed| == |criteria| && |SetOf(reviewed)| == |criteria| && forall c :: c in criteria ==> c in reviewed
  }

  /** What is missing for one output, if anything. */
  function Missing(o: Output, items: seq<Accepted>, deliverables: seq<Deliverable>): Option<string> {
    var accepted := FindAccepted(items, o.key);
    if accepted.None? || accepted.value.digest != o.digest then Some(INCOMPLETE)
    else if !Reviewed(accepted.value.reviewed, CriteriaOf(deliverables, o.key)) then Some(NOT_REVIEWED)
    else None
  }

  lemma SubsetOfSameSize(a: set<nat>, b: set<nat>)
    requires a <= b && |a| == |b|
    ensures a == b
  {
    assert |b - a| == |b| - |a|;
    assert b == a + (b - a);
  }

  lemma {:induction false} DistinctCounts(s: seq<nat>, x: nat)
    requires Distinct(s)
    ensures multiset(s)[x] == if x in s then 1 else 0
    decreases |s|
  {
    if s != [] {
      var front := s[..|s| - 1];
      DistinctCounts(front, x);
      assert s == front + [s[|s| - 1]];
    }
  }

  /** For criteria with distinct ids the test passes exactly when the review lists each criterion once and nothing else. */
  lemma ReviewedExactlyWhen(reviewed: seq<nat>, criteria: seq<nat>)
    requires Distinct(criteria)
    ensures Reviewed(reviewed, criteria) <==> multiset(reviewed) == multiset(criteria)
  {
    SetSizeFindsRepeats(reviewed);
    SetSizeFindsRepeats(criteria);
    if Reviewed(reviewed, criteria) {
      SubsetOfSameSize(SetOf(criteria), SetOf(reviewed));
      forall x ensures multiset(reviewed)[x] == multiset(criteria)[x] {
        DistinctCounts(reviewed, x);
        DistinctCounts(criteria, x);
        assert x in SetOf(reviewed) <==> x in SetOf(criteria);
      }
    }
    PermutationReviews(reviewed, criteria);
  }

  lemma PermutationReviews(reviewed: seq<nat>, criteria: seq<nat>)
    requires Distinct(criteria)
    ensures multiset(reviewed) == multiset(criteria) ==> Reviewed(reviewed, criteria)
  {
    if multiset(reviewed) == multiset(criteria) {
      SamePermutation(reviewed, criteria);
      assert SetOf(reviewed) == SetOf(criteria);
      SetSizeFindsRepeats(criteria);
    }
  }

  lemma SamePermutation(a: seq<nat>, b: seq<nat>)
    requires multiset(a) == multiset(b)
    ensures |a| == |b| && forall x :: x in a <==> x in b
  {
    assert |a| == |multiset(a)| == |multiset(b)| == |b|;
    forall x ensures x in a <==> x in b {
      assert x in multiset(a) <==> x in multiset(b);
    }
  }

  /** Every output is accepted at its digest with all its criteria reviewed, and nothing else is accepted. */
  predicate WholeDeliveryAccepted(items: seq<Accepted>, outputs: seq<Output>, deliverables: seq<Deliverable>) {
    && multiset(AcceptedKeys(items)) == multiset(OutputKeys(outputs))
    && forall a, o :: a in items && o in outputs && a.key == o.key ==>
         a.digest == o.digest && multiset(a.reviewed) == multiset(CriteriaOf(deliverables, o.key))
  }

  predicate CriteriaDistinct(deliverables: seq<Deliverable>) { forall d :: d in deliverables ==> Distinct(d.criteria) }

  lemma {:induction false} CriteriaOfIsDistinct(deliverables: seq<Deliverable>, key: nat)
    requires CriteriaDistinct(deliverables)
    ensures Distinct(CriteriaOf(deliverables, key))
    decreases |deliverables|
  {
    if deliverables != [] {
      assert deliverables[0] in deliverables;
      CriteriaOfIsDistinct(deliverables[1..], key);
    }
  }

  lemma OneItemPerKey(items: seq<Accepted>, a: Accepted, b: Accepted)
    requires Distinct(AcceptedKeys(items)) && a in items && b in items && a.key == b.key
    ensures a == b
  {
    var i :| 0 <= i < |items| && items[i] == a;
    var j :| 0 <= j < |items| && items[j] == b;
    var keys := AcceptedKeys(items);
    assert keys[i] == keys[j];
  }

  /** No output is missing exactly when the whole delivery, and nothing else, is accepted. */
  lemma NothingMissingExactlyWhen(items: seq<Accepted>, outputs: seq<Output>, deliverables: seq<Deliverable>)
    requires Distinct(OutputKeys(outputs)) && CriteriaDistinct(deliverables)
    ensures && |items| == |outputs| && Distinct(AcceptedKeys(items))
            && (forall o :: o in outputs ==> Missing(o, items, deliverables).None?)
            <==> WholeDeliveryAccepted(items, outputs, deliverables)
  {
    var theirs, ours := AcceptedKeys(items), OutputKeys(outputs);
    forall o | o in outputs
      ensures forall a :: a in items ==> (Reviewed(a.reviewed, CriteriaOf(deliverables, o.key)) <==> multiset(a.reviewed) == multiset(CriteriaOf(deliverables, o.key)))
      ensures o.key in ours
    {
      CriteriaOfIsDistinct(deliverables, o.key);
      forall a | a in items {
        ReviewedExactlyWhen(a.reviewed, CriteriaOf(deliverables, o.key));
      }
      var i :| 0 <= i < |outputs| && outputs[i] == o;
      assert ours[i] == o.key;
    }
    if |items| == |outputs| && Distinct(theirs) && forall o :: o in outputs ==> Missing(o, items, deliverables).None? {
      KeysArePermuted(items, outputs, deliverables);
      forall a, o | a in items && o in outputs && a.key == o.key
        ensures a.digest == o.digest && multiset(a.reviewed) == multiset(CriteriaOf(deliverables, o.key))
      {
        OneItemPerKey(items, a, FindAccepted(items, o.key).value);
      }
    }
    if WholeDeliveryAccepted(items, outputs, deliverables) {
      SamePermutation(theirs, ours);
      StaysDistinct(theirs, ours);
      forall o | o in outputs ensures Missing(o, items, deliverables).None? {
        assert o.key in theirs;
        var i :| 0 <= i < |theirs| && theirs[i] == o.key;
        assert items[i] in items && items[i].key == o.key;
      }
    }
  }

  lemma StaysDistinct(a: seq<nat>, b: seq<nat>)
    requires multiset(a) == multiset(b) && Distinct(b)
    ensures Distinct(a)
  {
    SamePermutation(a, b);
    assert SetOf(a) == SetOf(b);
    SetSizeFindsRepeats(a);
    SetSizeFindsRepeats(b);
  }

  lemma KeysArePermuted(items: seq<Accepted>, outputs: seq<Output>, deliverables: seq<Deliverable>)
    requires |items| == |outputs| && Distinct(AcceptedKeys(items)) && Distinct(OutputKeys(outputs))
    requires forall o :: o in outputs ==> Missing(o, items, deliverables).None?
    ensures multiset(AcceptedKeys(items)) == multiset(OutputKeys(outputs))
  {
    var theirs, ours := AcceptedKeys(items), OutputKeys(outputs);
    SetSizeFindsRepeats(theirs);
    SetSizeFindsRepeats(ours);
    forall k | k in ours ensures k in theirs {
      var i :| 0 <= i < |ours| && ours[i] == k;
      assert outputs[i] in outputs;
      var a := FindAccepted(items, k).value;
      var j :| 0 <= j < |items| && items[j] == a;
      assert theirs[j] == k;
    }
    SubsetOfSameSize(SetOf(ours), SetOf(theirs));
    forall x ensures multiset(theirs)[x] == multiset(ours)[x] {
      DistinctCounts(theirs, x);
      DistinctCounts(ours, x);
      assert x in SetOf(theirs) <==> x in SetOf(ours);
    }
  }

  /** The acceptance loop: it passes exactly when the whole delivery, and nothing else, is accepted. */
  method CheckAcceptance(items: seq<Accepted>, outputs: seq<Output>, deliverables: seq<Deliverable>) returns (r: Option<string>)
    requires Distinct(OutputKeys(outputs)) && CriteriaDistinct(deliverables)
    ensures r.None? <==> WholeDeliveryAccepted(items, outputs, deliverables)
    ensures r.Some? ==> r.value == INCOMPLETE || r.value == NOT_REVIEWED
  {
    NothingMissingExactlyWhen(items, outputs, deliverables);
    SetSizeFindsRepeats(AcceptedKeys(items));
    if |items| != |outputs| || |SetOf(AcceptedKeys(items))| != |items| {
      return Some(INCOMPLETE);
    }
    var i := 0;
    while i < |outputs|
      invariant 0 <= i <= |outputs|
      invariant forall j :: 0 <= j < i ==> Missing(outputs[j], items, deliverables).None?
    {
      var missing := Missing(outputs[i], items, deliverables);
      if missing.Some? {
        assert outputs[i] in outputs;
        return missing;
      }
      i := i + 1;
    }
    r := None;
  }
}
