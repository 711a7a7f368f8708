/** Choosing the agent for a goal: what makes a candidate eligible, how candidates are ranked, and who is chosen. */
module AgentScheduler {
  import opened Options
  import opened Sorting
  import opened Wilson

  datatype Runner = Builtin | Claude | Codex

  datatype Wanted = Auto | Only(runner: Runner)

  datatype Strategy = ByQuality | Balanced | ByCost

  /** `id` is the candidate's place in the order of ids; `denied` says whether the caller already found a reason against it. */
  datatype Candidate = Candidate(
    id: nat,
    runner: Runner,
    model: nat,
    currency: nat,
    samples: nat,
    accepted: nat,
    cost: Option<nat>,
    duration: nat,
    denied: bool)

  datatype Request = Request(wanted: Wanted, strategy: Strategy, model: Option<nat>, value: Option<nat>, hourlyCost: nat)

  datatype Budget = Budget(currency: nat, maxCost: nat, maxDuration: nat)

  datatype Evaluated = Evaluated(candidate: Candidate, observed: bool, quality: nat, total: Option<nat>, net: Option<int>, eligible: bool)

  const ENOUGH_SAMPLES := 5
  const THRESHOLD := 5000
  const HOUR: nat := 3600000

  /** A candidate's accepted results are among its samples. */
  predicate Sound(candidates: seq<Candidate>) { forall c :: c in candidates ==> c.accepted <= c.samples }

  predicate Distinct(candidates: seq<Candidate>) {
    forall i, j :: 0 <= i < j < |candidates| ==> candidates[i].id != candidates[j].id
  }

  function TimeCost(c: Candidate, request: Request): nat { CeilDivide(request.hourlyCost * c.duration, HOUR) }

  function Total(c: Candidate, request: Request, quality: nat): Option<nat> {
    if c.cost.None? || (c.samples >= ENOUGH_SAMPLES && quality == 0) then None
    else
      var outlay := c.cost.value + TimeCost(c, request);
      Some(if c.samples >= ENOUGH_SAMPLES then ExpectedTotal(outlay, quality) else outlay)
  }

  function Evaluate(c: Candidate, request: Request, budget: Budget): Evaluated
    requires c.accepted <= c.samples
  {
    var observed := c.samples >= ENOUGH_SAMPLES;
    var quality := if observed then LowerBound(c.accepted, c.samples) else 0;
    var total := Total(c, request, quality);
    var net := if request.value.Some? && observed && total.Some? then Some(request.value.value as int - total.value) else None;
    var auto := request.wanted.Auto?;
    var eligible := && !c.denied
                    && !(auto && observed && quality < THRESHOLD)
                    && c.currency == budget.currency
                    && !(c.cost.Some? && c.cost.value > budget.maxCost)
                    && c.duration <= budget.maxDuration
                    && !(auto && !c.runner.Builtin? && (!observed || c.cost.None?));
    Evaluated(c, observed, quality, total, net, eligible)
  }

  function EvaluateAll(candidates: seq<Candidate>, request: Request, budget: Budget): (r: seq<Evaluated>)
    requires Sound(candidates)
    ensures forall e :: e in r <==> e.candidate in candidates && e == Evaluate(e.candidate, request, budget)
  {
    if candidates == [] then []
    else [Evaluate(candidates[0], request, budget)] + EvaluateAll(candidates[1..], request, budget)
  }

  predicate Requested(e: Evaluated, request: Request) {
    && e.eligible
    && (request.wanted.Auto? || e.candidate.runner == request.wanted.runner)
    && (request.wanted != Only(Builtin) || request.model.None? || e.candidate.model == request.model.value)
  }

  function Filter<T(!new)>(s: seq<T>, keep: T -> bool): (r: seq<T>)
    ensures forall x :: x in r <==> x in s && keep(x)
  {
    if s == [] then [] else (if keep(s[0]) then [s[0]] else []) + Filter(s[1..], keep)
  }

  function BestQuality(s: seq<Evaluated>): (best: nat)
    ensures forall e :: e in s ==> e.quality <= best
    ensures s != [] ==> exists e :: e in s && e.quality == best
  {
    if s == [] then 0
    else var rest := BestQuality(s[1..]); if s[0].quality > rest then s[0].quality else rest
  }

  function Tolerance(strategy: Strategy): nat {
    match strategy
    case ByQuality => 0
    case Balanced => 500
    case ByCost => 1000
  }

  /** In automatic choice only candidates close to the best observed quality stay. */
  function NearBest(s: seq<Evaluated>, request: Request): (r: seq<Evaluated>)
    ensures forall e :: e in r <==> e in s && (request.wanted.Auto? && BestQuality(s) > 0 ==> e.quality >= BestQuality(s) - Tolerance(request.strategy))
    ensures s != [] ==> r != []
  {
    var best := BestQuality(s);
    if request.wanted.Auto? && best > 0 then
      var near := Filter(s, (e: Evaluated) => e.quality >= best - Tolerance(request.strategy));
      assert s != [] ==> exists e :: e in s && e.quality == best && e in near;
      near
    else s
  }

  function Eligible(candidates: seq<Candidate>, request: Request, budget: Budget): (r: seq<Evaluated>)
    requires Sound(candidates)
  {
    Filter(EvaluateAll(candidates, request, budget), (e: Evaluated) => Requested(e, request))
  }

  function Contenders(candidates: seq<Candidate>, request: Request, budget: Budget): seq<Evaluated>
    requires Sound(candidates)
  {
    NearBest(Eligible(candidates, request, budget), request)
  }

  // ---------------------------------------------------------------- the comparison

  function CompareCost(a: Evaluated, b: Evaluated): int {
    if a.total.None? then if b.total.None? then 0 else 1
    else if b.total.None? then -1
    else if a.total.value < b.total.value then -1 else if a.total.value > b.total.value then 1 else 0
  }

  predicate Preferred(e: Evaluated, request: Request) { request.model == Some(e.candidate.model) }

  /** Negative when `a` goes first: preferred model, quality, net value, total cost, duration, id, in this order. */
  function Compare(a: Evaluated, b: Evaluated, request: Request): int {
    if !a.observed && !b.observed && Preferred(a, request) != Preferred(b, request) then
      if Preferred(a, request) then -1 else 1
    else if request.strategy.ByQuality? && a.quality != b.quality then b.quality - a.quality
    else if request.value.Some? && a.net.Some? && b.net.Some? && a.net != b.net then
      if b.net.value < a.net.value then -1 else 1
    else if CompareCost(a, b) != 0 then CompareCost(a, b)
    else if a.candidate.duration != b.candidate.duration then a.candidate.duration - b.candidate.duration
    else a.candidate.id - b.candidate.id
  }

  function Before(request: Request): (Evaluated, Evaluated) -> bool {
    (a: Evaluated, b: Evaluated) => Compare(a, b, request) < 0
  }

  function Choose(candidates: seq<Candidate>, request: Request, budget: Budget): Result<nat>
    requires Sound(candidates)
  {
    if Eligible(candidates, request, budget) == [] then Err("SCHEDULER_NO_CANDIDATE")
    else Ok(Sorted(Contenders(candidates, request, budget), Before(request))[0].candidate.id)
  }

  method ChooseAgent(candidates: seq<Candidate>, request: Request, budget: Budget) returns (result: Result<nat>)
    requires Sound(candidates)
    ensures result == Choose(candidates, request, budget)
  {
    var evaluated := EvaluateAll(candidates, request, budget);
    var eligible := Filter(evaluated, (e: Evaluated) => Requested(e, request));
    if eligible == [] {
      return Err("SCHEDULER_NO_CANDIDATE");
    }
    eligible := NearBest(eligible, request);
    var ranking := new Evaluated[|eligible|](i requires 0 <= i < |eligible| => eligible[i]);
    assert ranking[..] == eligible;
    Sort(ranking, Before(request));
    result := Ok(ranking[0].candidate.id);
    assert ranking[..][0] == ranking[0];
  }

  // ---------------------------------------------------------------- the comparison ranks

  /** All a comparison looks at, in its order; `byModel` says whether the preferred model counts. */
  datatype Key = Key(model: int, quality: int, unpriced: int, total: int, duration: int, id: int)

  function KeyOf(e: Evaluated, request: Request, byModel: bool): Key {
    Key(if byModel && Preferred(e, request) then 0 else 1,
        if request.strategy.ByQuality? then -(e.quality as int) else 0,
        if e.total.None? then 1 else 0,
        if e.total.None? then 0 else e.total.value,
        e.candidate.duration,
        e.candidate.id)
  }

  predicate Less(a: Key, b: Key) {
    if a.model != b.model then a.model < b.model
    else if a.quality != b.quality then a.quality < b.quality
    else if a.unpriced != b.unpriced then a.unpriced < b.unpriced
    else if a.total != b.total then a.total < b.total
    else if a.duration != b.duration then a.duration < b.duration
    else a.id < b.id
  }

  predicate NetFollowsTotal(e: Evaluated, request: Request) {
    e.net == if request.value.Some? && e.observed && e.total.Some? then Some(request.value.value as int - e.total.value) else None
  }

  /** The net-value step never contradicts the step by total cost. */
  lemma NetNeverContradictsTotal(a: Candidate, b: Candidate, request: Request, budget: Budget)
    requires a.accepted <= a.samples && b.accepted <= b.samples
    requires Evaluate(a, request, budget).net.Some? && Evaluate(b, request, budget).net.Some?
    ensures var x, y := Evaluate(a, request, budget), Evaluate(b, request, budget);
            && (x.net.value > y.net.value <==> CompareCost(x, y) < 0)
            && (x.net.value == y.net.value <==> CompareCost(x, y) == 0)
  {
  }

  lemma CompareByKey(a: Evaluated, b: Evaluated, request: Request, byModel: bool)
    requires NetFollowsTotal(a, request) && NetFollowsTotal(b, request)
    requires byModel ==> !a.observed && !b.observed
    requires !byModel && !a.observed && !b.observed ==> Preferred(a, request) == Preferred(b, request)
    ensures Compare(a, b, request) < 0 <==> Less(KeyOf(a, request, byModel), KeyOf(b, request, byModel))
  {
  }

  lemma LessIsStrict(a: Key, b: Key, c: Key)
    ensures !Less(a, a)
    ensures Less(a, b) && Less(b, c) ==> Less(a, c)
    ensures a.id != b.id ==> Less(a, b) != Less(b, a)
  {
  }

  /** Either the preferred model counts for all of them, or for none. */
  predicate Uniform(s: seq<Evaluated>, request: Request, byModel: bool) {
    && (forall e :: e in s ==> NetFollowsTotal(e, request) && (byModel ==> !e.observed))
    && (forall a, b :: a in s && b in s && !byModel && !a.observed && !b.observed ==> Preferred(a, request) == Preferred(b, request))
    && (forall a, b :: a in s && b in s && a.candidate.id == b.candidate.id ==> a == b)
  }

  lemma UniformRanks(s: seq<Evaluated>, request: Request, byModel: bool)
    requires Uniform(s, request, byModel)
    ensures Ranks(Before(request), s)
  {
    var before := Before(request);
    forall x, y | x in s && y in s
      ensures before(x, y) <==> Less(KeyOf(x, request, byModel), KeyOf(y, request, byModel))
    {
      CompareByKey(x, y, request, byModel);
    }
    forall x, y, z | x in s && y in s && z in s
      ensures !before(x, x) && (x != y ==> before(x, y) != before(y, x)) && (before(x, y) && before(y, z) ==> before(x, z))
    {
      LessIsStrict(KeyOf(x, request, byModel), KeyOf(y, request, byModel), KeyOf(z, request, byModel));
    }
  }

  /** In automatic choice the contenders are all measured or all unmeasured. */
  lemma AutoIsHomogeneous(candidates: seq<Candidate>, request: Request, budget: Budget, a: Evaluated, b: Evaluated)
    requires Sound(candidates) && request.wanted.Auto?
    requires a in Contenders(candidates, request, budget) && b in Contenders(candidates, request, budget)
    ensures a.observed == b.observed
    ensures a.observed ==> a.quality >= THRESHOLD
  {
    BestIsMeasured(candidates, request, budget);
    ContenderIsNearBest(candidates, request, budget, a);
    ContenderIsNearBest(candidates, request, budget, b);
    NearBestIsUniform(BestQuality(Eligible(candidates, request, budget)), Tolerance(request.strategy), a, b);
  }

  lemma NearBestIsUniform(best: nat, tolerance: nat, a: Evaluated, b: Evaluated)
    requires best == 0 || best >= THRESHOLD
    requires a.quality <= best && b.quality <= best && tolerance < THRESHOLD
    requires best > 0 ==> a.quality >= best - tolerance && b.quality >= best - tolerance
    requires if a.observed then a.quality >= THRESHOLD else a.quality == 0
    requires if b.observed then b.quality >= THRESHOLD else b.quality == 0
    ensures a.observed == b.observed
  {
  }

  /** An eligible candidate of an automatic choice meets the threshold if it was measured, and has no quality if it was not. */
  lemma MeasuredMeetTheThreshold(candidates: seq<Candidate>, request: Request, budget: Budget, e: Evaluated)
    requires Sound(candidates) && request.wanted.Auto? && e in Eligible(candidates, request, budget)
    ensures if e.observed then e.quality >= THRESHOLD else e.quality == 0
  {
    assert e in EvaluateAll(candidates, request, budget) && Requested(e, request);
  }

  lemma BestIsMeasured(candidates: seq<Candidate>, request: Request, budget: Budget)
    requires Sound(candidates) && request.wanted.Auto?
    ensures var best := BestQuality(Eligible(candidates, request, budget)); best == 0 || best >= THRESHOLD
  {
    var s := Eligible(candidates, request, budget);
    if BestQuality(s) > 0 {
      var e :| e in s && e.quality == BestQuality(s);
      MeasuredMeetTheThreshold(candidates, request, budget, e);
    }
  }

  lemma ContenderIsNearBest(candidates: seq<Candidate>, request: Request, budget: Budget, e: Evaluated)
    requires Sound(candidates) && request.wanted.Auto? && e in Contenders(candidates, request, budget)
    ensures var best := BestQuality(Eligible(candidates, request, budget));
            e.quality <= best && (best > 0 ==> e.quality >= best - Tolerance(request.strategy))
    ensures if e.observed then e.quality >= THRESHOLD else e.quality == 0
  {
    MeasuredMeetTheThreshold(candidates, request, budget, e);
  }

  lemma SameIdSameContender(candidates: seq<Candidate>, request: Request, budget: Budget, a: Evaluated, b: Evaluated)
    requires Sound(candidates) && Distinct(candidates) && a.candidate.id == b.candidate.id
    requires a in Contenders(candidates, request, budget) && b in Contenders(candidates, request, budget)
    ensures a == b
  {
    var i :| 0 <= i < |candidates| && candidates[i] == a.candidate;
    var j :| 0 <= j < |candidates| && candidates[j] == b.candidate;
    assert i == j;
  }

  /** A command-line runner asked for together with a model: the one case in which the preference breaks the order. */
  predicate CliWithModel(request: Request) {
    (request.wanted == Only(Claude) || request.wanted == Only(Codex)) && request.model.Some?
  }

  lemma PreferenceIsUniform(candidates: seq<Candidate>, request: Request, budget: Budget, a: Evaluated, b: Evaluated, other: Evaluated)
    requires Sound(candidates) && !CliWithModel(request)
    requires a in Contenders(candidates, request, budget) && b in Contenders(candidates, request, budget)
    requires request.wanted.Auto? ==> other in Contenders(candidates, request, budget) && other.observed
    requires !a.observed && !b.observed
    ensures Preferred(a, request) == Preferred(b, request)
  {
    if request.wanted.Auto? {
      AutoIsHomogeneous(candidates, request, budget, a, other);
      assert false;
    } else {
      assert Requested(a, request) && Requested(b, request);
    }
  }

  lemma ContenderNetFollowsTotal(candidates: seq<Candidate>, request: Request, budget: Budget, e: Evaluated)
    requires Sound(candidates) && e in Contenders(candidates, request, budget)
    ensures NetFollowsTotal(e, request)
  {
    assert e in EvaluateAll(candidates, request, budget);
  }

  lemma ContendersAreUniform(candidates: seq<Candidate>, request: Request, budget: Budget, byModel: bool)
    requires Sound(candidates) && Distinct(candidates) && !CliWithModel(request)
    requires byModel == (request.wanted.Auto? && forall e :: e in Contenders(candidates, request, budget) ==> !e.observed)
    ensures Uniform(Contenders(candidates, request, budget), request, byModel)
  {
    var s := Contenders(candidates, request, budget);
    forall e | e in s ensures NetFollowsTotal(e, request) {
      ContenderNetFollowsTotal(candidates, request, budget, e);
    }
    forall a, b | a in s && b in s && a.candidate.id == b.candidate.id ensures a == b {
      SameIdSameContender(candidates, request, budget, a, b);
    }
    forall a, b | a in s && b in s && !byModel && !a.observed && !b.observed
      ensures Preferred(a, request) == Preferred(b, request)
    {
      var e := if request.wanted.Auto? then var x :| x in s && x.observed; x else a;
      PreferenceIsUniform(candidates, request, budget, a, b, e);
    }
  }

  lemma ContendersAreRanked(candidates: seq<Candidate>, request: Request, budget: Budget)
    requires Sound(candidates) && Distinct(candidates) && !CliWithModel(request)
    ensures Ranks(Before(request), Contenders(candidates, request, budget))
  {
    var s := Contenders(candidates, request, budget);
    var byModel := request.wanted.Auto? && forall e :: e in s ==> !e.observed;
    ContendersAreUniform(candidates, request, budget, byModel);
    UniformRanks(s, request, byModel);
  }

  ghost predicate AlwaysRanks(request: Request, budget: Budget) {
    forall candidates: seq<Candidate> :: Sound(candidates) && Distinct(candidates) ==>
      Ranks(Before(request), Contenders(candidates, request, budget))
  }

  /** Three candidates that beat each other in a circle. */
  function Circle(request: Request, budget: Budget): seq<Candidate>
    requires CliWithModel(request)
  {
    var model, runner, currency := request.model.value, request.wanted.runner, budget.currency;
    [Candidate(0, runner, model + 1, currency, ENOUGH_SAMPLES, 0, Some(0), 0, false),
     Candidate(1, runner, model, currency, 0, 0, None, 0, false),
     Candidate(2, runner, model + 1, currency, 0, 0, Some(0), 0, false)]
  }

  lemma CirclesExist(request: Request, budget: Budget)
    requires CliWithModel(request)
    ensures var s := Circle(request, budget);
            && Sound(s) && Distinct(s)
            && !Ranks(Before(request), Contenders(s, request, budget))
  {
    var s := Circle(request, budget);
    var a, b, c := Evaluate(s[1], request, budget), Evaluate(s[2], request, budget), Evaluate(s[0], request, budget);
    assert s[0] in s && s[1] in s && s[2] in s;
    assert c.total.None?;
    assert TimeCost(s[2], request) == 0;
    assert b.total == Some(0);
    var all := Contenders(s, request, budget);
    assert a in all && b in all && c in all;
    var before := Before(request);
    assert before(a, b) && before(b, c) && !before(a, c);
  }

  /** The comparison ranks every list of contenders exactly when no command-line runner is asked for with a model. */
  lemma RanksExactlyWhen(request: Request, budget: Budget)
    ensures AlwaysRanks(request, budget) <==> !CliWithModel(request)
  {
    if CliWithModel(request) {
      CirclesExist(request, budget);
    } else {
      forall candidates: seq<Candidate> | Sound(candidates) && Distinct(candidates)
        ensures Ranks(Before(request), Contenders(candidates, request, budget))
      {
        ContendersAreRanked(candidates, request, budget);
      }
    }
  }

  // ---------------------------------------------------------------- the choice

  /** Nobody is chosen exactly when no candidate qualifies. */
  lemma RefusedExactlyWhen(candidates: seq<Candidate>, request: Request, budget: Budget)
    requires Sound(candidates)
    ensures Choose(candidates, request, budget).Err? <==>
              forall c :: c in candidates ==> !Requested(Evaluate(c, request, budget), request)
  {
    var s := Eligible(candidates, request, budget);
    if s == [] {
      forall c | c in candidates ensures !Requested(Evaluate(c, request, budget), request) {
        assert Evaluate(c, request, budget) !in s;
      }
    } else {
      assert s[0] in s;
    }
  }

  /** The chosen candidate goes before every other contender. */
  lemma ChosenIsFirst(candidates: seq<Candidate>, request: Request, budget: Budget) returns (chosen: Evaluated)
    requires Sound(candidates) && Distinct(candidates) && !CliWithModel(request)
    requires Choose(candidates, request, budget).Ok?
    ensures chosen in Contenders(candidates, request, budget)
    ensures Choose(candidates, request, budget) == Ok(chosen.candidate.id)
    ensures forall e :: e in Contenders(candidates, request, budget) && e != chosen ==> Before(request)(chosen, e)
  {
    var s, before := Contenders(candidates, request, budget), Before(request);
    ContendersAreRanked(candidates, request, budget);
    SortedPermutes(s, before);
    SortedIsOrdered(s, before);
    var sorted := Sorted(s, before);
    chosen := sorted[0];
    assert chosen in sorted;
    forall e | e in s && e != chosen ensures before(chosen, e) {
      assert e in sorted;
      var i :| 0 <= i < |sorted| && sorted[i] == e;
      assert !before(sorted[i], sorted[0]);
    }
  }

  lemma FirstByQuality(a: Evaluated, b: Evaluated, request: Request)
    requires request.strategy.ByQuality? && a.observed == b.observed && (!a.observed ==> a.quality == b.quality)
    requires Compare(a, b, request) < 0
    ensures b.quality <= a.quality
  {
  }

  lemma FirstByTotal(a: Evaluated, b: Evaluated, request: Request)
    requires !request.strategy.ByQuality? && a.observed && b.observed && NetFollowsTotal(a, request) && NetFollowsTotal(b, request)
    requires Compare(a, b, request) < 0
    ensures CompareCost(a, b) <= 0
  {
  }

  /** The strategy decides among the contenders: no better quality, or, once measured, no lower expected total is passed over. */
  lemma ChosenServesStrategy(candidates: seq<Candidate>, request: Request, budget: Budget, other: Evaluated) returns (chosen: Evaluated)
    requires Sound(candidates) && Distinct(candidates) && request.wanted.Auto? && Choose(candidates, request, budget).Ok?
    requires other in Contenders(candidates, request, budget)
    ensures chosen in Contenders(candidates, request, budget) && Choose(candidates, request, budget) == Ok(chosen.candidate.id)
    ensures request.strategy.ByQuality? ==> other.quality <= chosen.quality
    ensures !request.strategy.ByQuality? && chosen.observed ==> CompareCost(chosen, other) <= 0
  {
    chosen := ChosenAgainst(candidates, request, budget, other);
    if other != chosen {
      if request.strategy.ByQuality? {
        FirstByQuality(chosen, other, request);
      } else if chosen.observed {
        FirstByTotal(chosen, other, request);
      }
    }
  }

  lemma ChosenAgainst(candidates: seq<Candidate>, request: Request, budget: Budget, other: Evaluated) returns (chosen: Evaluated)
    requires Sound(candidates) && Distinct(candidates) && request.wanted.Auto? && Choose(candidates, request, budget).Ok?
    requires other in Contenders(candidates, request, budget)
    ensures chosen in Contenders(candidates, request, budget) && Choose(candidates, request, budget) == Ok(chosen.candidate.id)
    ensures other == chosen || Compare(chosen, other, request) < 0
    ensures chosen.observed == other.observed && (!chosen.observed ==> chosen.quality == other.quality)
    ensures NetFollowsTotal(chosen, request) && NetFollowsTotal(other, request)
  {
    chosen := ChosenIsFirst(candidates, request, budget);
    AutoIsHomogeneous(candidates, request, budget, chosen, other);
    EvaluationFacts(chosen.candidate, request, budget);
    EvaluationFacts(other.candidate, request, budget);
    assert other != chosen ==> Before(request)(chosen, other);
  }

  lemma EvaluationFacts(c: Candidate, request: Request, budget: Budget)
    requires c.accepted <= c.samples
    ensures var e := Evaluate(c, request, budget); NetFollowsTotal(e, request) && (!e.observed ==> e.quality == 0)
  {
  }

  /** Automatic choice passes over no candidate whose quality exceeds the chosen one's by more than the strategy tolerates. */
  lemma ChosenIsNearTheBest(candidates: seq<Candidate>, request: Request, budget: Budget, c: Candidate) returns (chosen: Evaluated)
    requires Sound(candidates) && Distinct(candidates) && request.wanted.Auto? && Choose(candidates, request, budget).Ok?
    requires c in candidates && Requested(Evaluate(c, request, budget), request)
    ensures Choose(candidates, request, budget) == Ok(chosen.candidate.id) && chosen.candidate in candidates
    ensures Evaluate(c, request, budget).quality <= chosen.quality + Tolerance(request.strategy)
    ensures chosen.observed ==> chosen.quality >= THRESHOLD
  {
    chosen := ChosenIsFirst(candidates, request, budget);
    AutoIsHomogeneous(candidates, request, budget, chosen, chosen);
    assert Evaluate(c, request, budget) in Eligible(candidates, request, budget);
  }

  lemma SameContenders(s: seq<Candidate>, t: seq<Candidate>, request: Request, budget: Budget)
    requires Sound(s) && Sound(t) && forall c :: c in s <==> c in t
    ensures forall e :: e in Contenders(s, request, budget) <==> e in Contenders(t, request, budget)
    ensures Choose(s, request, budget).Ok? <==> Choose(t, request, budget).Ok?
  {
    var a, b := Eligible(s, request, budget), Eligible(t, request, budget);
    assert forall e :: e in a <==> e in b;
    BestWithin(a, b);
    BestWithin(b, a);
    RefusedExactlyWhen(s, request, budget);
    RefusedExactlyWhen(t, request, budget);
  }

  lemma {:induction false} BestWithin(a: seq<Evaluated>, b: seq<Evaluated>)
    requires forall e :: e in a ==> e in b
    ensures BestQuality(a) <= BestQuality(b)
    decreases |a|
  {
    if a != [] {
      assert a[0] in a && forall e :: e in a[1..] ==> e in a;
      BestWithin(a[1..], b);
    }
  }

  /** Who is chosen does not depend on the order of the list. */
  lemma ChoiceIgnoresListOrder(s: seq<Candidate>, t: seq<Candidate>, request: Request, budget: Budget)
    requires Sound(s) && Distinct(s) && Distinct(t) && (forall c :: c in s <==> c in t) && !CliWithModel(request)
    ensures Sound(t) && Choose(s, request, budget) == Choose(t, request, budget)
  {
    SameContenders(s, t, request, budget);
    if Choose(s, request, budget).Ok? {
      var x := ChosenIsFirst(s, request, budget);
      var y := ChosenIsFirst(t, request, budget);
      ContendersAreRanked(s, request, budget);
      assert x != y ==> Before(request)(x, y) && Before(request)(y, x);
    }
  }
}
