/** The rules of the choice in terms of the candidates' own records: who qualifies, what one is expected to cost, how ties end. */
module SchedulingRules {
  import opened Options
  import opened Sorting
  import opened Wilson
  import opened AgentScheduler

  /**
   A candidate qualifies when nothing was held against it, it works in the budget's currency, and its known cost and duration
   fit. An automatic choice also asks for at least half of the results to be accepted once five are known, and takes a
   command-line runner only with such a record and a known cost. A named runner must be that one, with the model asked for.
   */
  predicate Qualifies(c: Candidate, request: Request, budget: Budget)
    requires c.accepted <= c.samples
  {
    && !c.denied && c.currency == budget.currency && c.duration <= budget.maxDuration
    && (c.cost.Some? ==> c.cost.value <= budget.maxCost)
    && match request.wanted {
         case Auto =>
           && (c.samples >= 5 ==> LowerBound(c.accepted, c.samples) >= 5000)
           && (c.runner == Builtin || (c.samples >= 5 && c.cost.Some?))
         case Only(runner) =>
           c.runner == runner && (runner == Builtin && request.model.Some? ==> c.model == request.model.value)
       }
  }

  lemma QualifiesExactlyWhen(c: Candidate, request: Request, budget: Budget)
    requires c.accepted <= c.samples
    ensures Requested(Evaluate(c, request, budget), request) <==> Qualifies(c, request, budget)
  {
  }

  /** Nobody is chosen exactly when nobody qualifies. */
  lemma NobodyIsChosenExactlyWhen(candidates: seq<Candidate>, request: Request, budget: Budget)
    requires Sound(candidates)
    ensures Choose(candidates, request, budget).Err? <==> forall c :: c in candidates ==> !Qualifies(c, request, budget)
  {
    RefusedExactlyWhen(candidates, request, budget);
    forall c | c in candidates ensures Requested(Evaluate(c, request, budget), request) <==> Qualifies(c, request, budget) {
      QualifiesExactlyWhen(c, request, budget);
    }
  }

  /** The chosen id is that of a candidate that qualifies, whatever was asked for. */
  lemma ChosenQualifies(candidates: seq<Candidate>, request: Request, budget: Budget)
    requires Sound(candidates) && Choose(candidates, request, budget).Ok?
    ensures exists c :: c in candidates && c.id == Choose(candidates, request, budget).value && Qualifies(c, request, budget)
  {
    var s, before := Contenders(candidates, request, budget), Before(request);
    SortedPermutes(s, before);
    var chosen := Sorted(s, before)[0];
    assert chosen in Sorted(s, before) && chosen in s && chosen in EvaluateAll(candidates, request, budget);
    QualifiesExactlyWhen(chosen.candidate, request, budget);
  }

  /** The quality a candidate counts with: its bound from five samples on, nothing before. */
  function Quality(c: Candidate): nat
    requires c.accepted <= c.samples
  {
    if c.samples >= 5 then LowerBound(c.accepted, c.samples) else 0
  }

  /** An automatic choice by quality passes over no better candidate, a balanced one none better by more than 5%, one by cost none by more than 10%. */
  lemma NoneMuchBetterIsPassedOver(candidates: seq<Candidate>, request: Request, budget: Budget, c: Candidate) returns (chosen: Candidate)
    requires Sound(candidates) && Distinct(candidates) && request.wanted.Auto? && Choose(candidates, request, budget).Ok?
    requires c in candidates && Qualifies(c, request, budget)
    ensures chosen in candidates && Choose(candidates, request, budget) == Ok(chosen.id) && Qualifies(chosen, request, budget)
    ensures Quality(c) <= Quality(chosen) + match request.strategy { case ByQuality => 0 case Balanced => 500 case ByCost => 1000 }
  {
    QualifiesExactlyWhen(c, request, budget);
    var e := ChosenIsNearTheBest(candidates, request, budget, c);
    chosen := e.candidate;
    var other := ChosenIsFirst(candidates, request, budget);
    ChosenQualifies(candidates, request, budget);
    var q :| q in candidates && q.id == chosen.id && Qualifies(q, request, budget);
    SameIdSameCandidate(candidates, q, chosen);
    SameIdSameCandidate(candidates, other.candidate, chosen);
  }

  lemma SameIdSameCandidate(candidates: seq<Candidate>, a: Candidate, b: Candidate)
    requires Distinct(candidates) && a in candidates && b in candidates && a.id == b.id
    ensures a == b
  {
  }

  /** A total is expected of every priced candidate but one measured without quality. */
  lemma TotalsAreExpectedExactlyWhen(c: Candidate, request: Request, budget: Budget)
    requires c.accepted <= c.samples
    ensures Evaluate(c, request, budget).total.Some? <==> c.cost.Some? && (c.samples < 5 || Quality(c) > 0)
  {
  }

  /** It is the least amount that covers cost and time, shared out over the accepted part of the results once they are measured. */
  lemma TotalsCoverCostAndTime(c: Candidate, request: Request, budget: Budget, time: nat, m: nat)
    requires c.accepted <= c.samples && Evaluate(c, request, budget).total.Some?
    requires forall t: nat :: time <= t <==> request.hourlyCost * c.duration <= t * 3600000
    ensures c.cost.Some?
    ensures Evaluate(c, request, budget).total.value <= m <==>
              if c.samples >= 5 then (c.cost.value + time) * 10000 <= m * Quality(c) else c.cost.value + time <= m
  {
    TimeIsLeast(c, request, time);
    if c.samples >= 5 {
      BoundIsWithinRate(c.accepted, c.samples);
      TotalCoversOutlay(c.cost.value + time, Quality(c), m);
    }
  }

  lemma TimeIsLeast(c: Candidate, request: Request, time: nat)
    requires forall t: nat :: time <= t <==> request.hourlyCost * c.duration <= t * 3600000
    ensures TimeCost(c, request) == time
  {
    CeilDivideIsLeast(request.hourlyCost * c.duration, HOUR, time);
    CeilDivideIsLeast(request.hourlyCost * c.duration, HOUR, TimeCost(c, request));
  }

  /** The value a measured candidate leaves, where the request names one. */
  lemma NetsAreValueLessTotal(c: Candidate, request: Request, budget: Budget)
    requires c.accepted <= c.samples
    ensures var e := Evaluate(c, request, budget);
            && (e.net.Some? <==> request.value.Some? && c.samples >= 5 && e.total.Some?)
            && (e.net.Some? ==> e.net.value == request.value.value - e.total.value)
            && e.candidate == c && e.quality == Quality(c) && e.observed == (c.samples >= 5)
  {
  }

  /** Between contenders that strategy, preference and total leave equal, the shorter one is chosen, then the one with the first id. */
  lemma TiesGoToTheShorterThenTheFirst(candidates: seq<Candidate>, request: Request, budget: Budget, chosen: Evaluated, other: Evaluated)
    requires Sound(candidates) && Distinct(candidates) && !CliWithModel(request)
    requires Choose(candidates, request, budget) == Ok(chosen.candidate.id)
    requires chosen in Contenders(candidates, request, budget) && other in Contenders(candidates, request, budget) && other != chosen
    requires chosen.quality == other.quality && chosen.total == other.total && chosen.observed == other.observed
    requires chosen.candidate.model == other.candidate.model
    ensures chosen.candidate.duration < other.candidate.duration
            || (chosen.candidate.duration == other.candidate.duration && chosen.candidate.id < other.candidate.id)
  {
    var first := ChosenIsFirst(candidates, request, budget);
    SameIdSameContender(candidates, request, budget, first, chosen);
    ContenderNetFollowsTotal(candidates, request, budget, chosen);
    ContenderNetFollowsTotal(candidates, request, budget, other);
    TieBreak(chosen, other, request);
    assert Before(request)(chosen, other);
  }

  lemma TieBreak(a: Evaluated, b: Evaluated, request: Request)
    requires NetFollowsTotal(a, request) && NetFollowsTotal(b, request)
    requires a.quality == b.quality && a.total == b.total && a.observed == b.observed && a.candidate.model == b.candidate.model
    ensures Compare(a, b, request) < 0 ==>
              a.candidate.duration < b.candidate.duration || (a.candidate.duration == b.candidate.duration && a.candidate.id < b.candidate.id)
  {
  }

  /** Among unmeasured contenders of an automatic choice the model asked for comes first, then the lower total, priced before unpriced. */
  lemma UnmeasuredChoicesFollowTheModel(candidates: seq<Candidate>, request: Request, budget: Budget, chosen: Evaluated, other: Evaluated)
    requires Sound(candidates) && Distinct(candidates) && request.wanted.Auto?
    requires Choose(candidates, request, budget) == Ok(chosen.candidate.id)
    requires chosen in Contenders(candidates, request, budget) && other in Contenders(candidates, request, budget) && chosen.candidate.samples < 5
    ensures request.model == Some(other.candidate.model) ==> request.model == Some(chosen.candidate.model)
    ensures chosen.candidate.model == other.candidate.model && other.total.Some? ==> chosen.total.Some? && chosen.total.value <= other.total.value
  {
    var first := ChosenIsFirst(candidates, request, budget);
    SameIdSameContender(candidates, request, budget, first, chosen);
    AutoIsHomogeneous(candidates, request, budget, chosen, other);
    NetsAreValueLessTotal(chosen.candidate, request, budget);
    NetsAreValueLessTotal(other.candidate, request, budget);
    assert other != chosen ==> Before(request)(chosen, other);
  }
}
