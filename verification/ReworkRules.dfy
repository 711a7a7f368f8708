/** The rules of rework in terms of the records themselves: when a round is previewed and confirmed, an attempt admitted and settled. */
module ReworkRules {
  import opened Options
  import opened GoalModel
  import opened Rework

  // ---------------------------------------------------------------- limits

  /** A limit that is set is not exceeded; one that is negative is always exceeded. */
  predicate Allows(limit: Option<int>, count: nat) { limit.Some? ==> count <= limit.value }

  lemma FitsExactlyWhen(count: nat, hard: nat, plan: Option<int>, group: Option<int>, policy: Option<int>)
    ensures Fits(count, Bound(hard, plan, group, policy)) <==>
              count <= hard && Allows(plan, count) && Allows(group, count) && Allows(policy, count)
  {
  }

  /** The places of the nodes that run again. */
  function Again(nodes: seq<Node>, reused: set<string>): set<nat> { set k: nat | k < |nodes| && nodes[k].id !in reused }

  function AgentsAgain(nodes: seq<Node>, reused: set<string>): set<nat> {
    set k: nat | k < |nodes| && nodes[k].id !in reused && nodes[k].isAgent
  }

  lemma AgainGrows(front: seq<Node>, last: Node, reused: set<string>)
    ensures Again(front + [last], reused) == Again(front, reused) + (if last.id !in reused then {|front|} else {})
    ensures AgentsAgain(front + [last], reused) == AgentsAgain(front, reused) + (if last.id !in reused && last.isAgent then {|front|} else {})
  {
  }

  lemma {:induction false} FreshNodesAreCounted(nodes: seq<Node>, reused: set<string>)
    ensures FreshNodes(nodes, reused) == |Again(nodes, reused)| && FreshAgents(nodes, reused) == |AgentsAgain(nodes, reused)|
  {
    if nodes == [] {
      assert Again(nodes, reused) == {} && AgentsAgain(nodes, reused) == {};
    } else {
      var front := nodes[..|nodes| - 1];
      FreshNodesAreCounted(front, reused);
      AgainGrows(front, nodes[|front|], reused);
      assert front + [nodes[|front|]] == nodes;
    }
  }

  /** Nodes and attempts of the rounds so far, and the first execution, which counts as one of each. */
  lemma WorkIsCounted(w: Work)
    ensures w.Single? ==> NodesSoFar(w) == 1 && AttemptsSoFar(w) == 1
    ensures w.Grouped? ==>
              var first := if w.group.initial == None then 0 else 1;
              NodesSoFar(w) == first + RunNodes(w.group.runs) && AttemptsSoFar(w) == first + |w.group.attempts|
  {
  }

  /** All limits, of code, plan, group and policy, admit one more round with these nodes. */
  predicate RoundFits(w: Work, nodes: seq<Node>, reused: set<string>, round: nat, plan: Limits, policy: Limits) {
    var group := if w.Grouped? then w.group.limits else Limits(None, None, None);
    var allNodes, allAttempts := NodesSoFar(w) + FreshNodes(nodes, reused), AttemptsSoFar(w) + FreshAgents(nodes, reused);
    && allNodes <= 12 && Allows(plan.maxNodes, allNodes) && Allows(group.maxNodes, allNodes) && Allows(policy.maxNodes, allNodes)
    && allAttempts <= 24 && Allows(plan.maxAttempts, allAttempts) && Allows(group.maxAttempts, allAttempts) && Allows(policy.maxAttempts, allAttempts)
    && round <= 2 && Allows(plan.maxReworkRounds, round) && Allows(group.maxReworkRounds, round) && Allows(policy.maxReworkRounds, round)
  }

  lemma CapacityExactlyWhen(w: Work, nodes: seq<Node>, reused: set<string>, round: nat, plan: Limits, policy: Limits)
    ensures HasCapacity(w, nodes, reused, round, plan, policy) <==> RoundFits(w, nodes, reused, round, plan, policy)
  {
    var group := GroupLimits(w);
    FitsExactlyWhen(NodesSoFar(w) + FreshNodes(nodes, reused), 12, plan.maxNodes, group.maxNodes, policy.maxNodes);
    FitsExactlyWhen(AttemptsSoFar(w) + FreshAgents(nodes, reused), 24, plan.maxAttempts, group.maxAttempts, policy.maxAttempts);
    FitsExactlyWhen(round, 2, plan.maxReworkRounds, group.maxReworkRounds, policy.maxReworkRounds);
  }

  // ---------------------------------------------------------------- what was spent

  function TokensOf(attempts: seq<Attempt>): nat {
    if attempts == [] then 0 else (if attempts[0].usage.Some? then attempts[0].usage.value.tokens else 0) + TokensOf(attempts[1..])
  }

  function CostOf(attempts: seq<Attempt>): nat {
    if attempts == [] then 0 else (if attempts[0].usage.Some? then attempts[0].usage.value.cost else 0) + CostOf(attempts[1..])
  }

  lemma {:induction false} SpentAddsUp(from: Usage, attempts: seq<Attempt>)
    ensures Spent(from, attempts) == Usage(from.currency, from.tokens + TokensOf(attempts), from.cost + CostOf(attempts))
    decreases |attempts|
  {
    if attempts != [] {
      assert |attempts[1..]| < |attempts|;
      SpentJoins(from, [attempts[0]], attempts[1..]);
      assert [attempts[0]] + attempts[1..] == attempts;
      assert [attempts[0]][..0] == [];
      SpentAddsUp(Spent(from, [attempts[0]]), attempts[1..]);
    }
  }

  /** Every attempt of the group is settled, in the goal's currency. */
  predicate AllSettled(g: Group, currency: string) {
    forall i :: 0 <= i < |g.attempts| ==> g.attempts[i].usage.Some? && g.attempts[i].usage.value.currency == currency
  }

  /** The accounting knows what was spent exactly when every attempt is settled; it then adds up the first execution and all attempts. */
  lemma AccountsExactlyWhen(w: Work, currency: string)
    ensures AccountFor(w, currency).Ok? <==> (w.Grouped? ==> AllSettled(w.group, currency))
    ensures w.Single? ==> AccountFor(w, currency) == Ok(Accounted(w.usage, w.deadline, 1, 0))
    ensures w.Grouped? && AccountFor(w, currency).Ok? ==>
              var first := if w.group.initial.Some? then w.group.initial.value else Usage(currency, 0, 0);
              AccountFor(w, currency).value ==
                Accounted(Usage(currency, first.tokens + TokensOf(w.group.attempts), first.cost + CostOf(w.group.attempts)),
                          w.group.deadline, w.group.rounds + 1, w.group.version)
  {
    if w.Grouped? {
      SpentAddsUp(Start(w.group, currency), w.group.attempts);
      if AllSettled(w.group, currency) {
        assert forall i :: 0 <= i < |w.group.attempts| ==> AttemptKnown(w.group.attempts[i], currency);
      }
    }
  }

  // ---------------------------------------------------------------- preview and confirmation

  /** A round is previewed exactly when the usage is known, the deadline is to come, both amounts leave a rest, and all limits admit the round. */
  lemma PreviewsExactlyWhen(w: Work, goal: nat, budget: Usage, nodes: seq<Node>, reused: set<string>, plan: Limits, policy: Limits, now: int)
    ensures PreviewRework(w, goal, budget, nodes, reused, plan, policy, now).Ok? <==>
              && AccountFor(w, budget.currency).Ok?
              && var a := AccountFor(w, budget.currency).value;
                 && now < a.deadline && a.usage.tokens < budget.tokens && a.usage.cost < budget.cost
                 && RoundFits(w, nodes, reused, a.round, plan, policy)
  {
    if AccountFor(w, budget.currency).Ok? {
      CapacityExactlyWhen(w, nodes, reused, AccountFor(w, budget.currency).value.round, plan, policy);
    }
  }

  /** Unknown usage is reported before a round too many, that before a missing rest, and that before nodes and attempts beyond their limits. */
  lemma PreviewRefusalsNameTheirReason(w: Work, goal: nat, budget: Usage, nodes: seq<Node>, reused: set<string>, plan: Limits, policy: Limits, now: int)
    requires PreviewRework(w, goal, budget, nodes, reused, plan, policy, now).Err?
    ensures var code, known := PreviewRework(w, goal, budget, nodes, reused, plan, policy, now).code, AccountFor(w, budget.currency).Ok?;
            && (code == "GOAL_USAGE_UNKNOWN" <==> !known)
            && (code == "GOAL_BUDGET_EXCEEDED" <==>
                  known && var a := AccountFor(w, budget.currency).value;
                           && a.round <= 2 && Allows(plan.maxReworkRounds, a.round) && Allows(policy.maxReworkRounds, a.round)
                           && (a.deadline <= now || a.usage.tokens >= budget.tokens || a.usage.cost >= budget.cost))
            && (code != "GOAL_USAGE_UNKNOWN" && code != "GOAL_BUDGET_EXCEEDED" ==> code == "GOAL_REWORK_LIMIT")
  {
  }

  /** It names goal and present account, keeps the nodes, and gives every agent node that runs again an equal share of what is left. */
  lemma PreviewsShareTheRest(w: Work, goal: nat, budget: Usage, nodes: seq<Node>, reused: set<string>, plan: Limits, policy: Limits, now: int,
                             p: Preview, a: Accounted, k: nat)
    requires PreviewRework(w, goal, budget, nodes, reused, plan, policy, now) == Ok(p) && AccountFor(w, budget.currency) == Ok(a)
    requires k < |nodes|
    ensures p.goal == goal && p.accounted == a && p.reused == reused && |p.nodes| == |nodes|
    ensures p.nodes[k].id == nodes[k].id && p.nodes[k].isAgent == nodes[k].isAgent
    ensures k !in AgentsAgain(nodes, reused) ==> p.nodes[k].budget == nodes[k].budget
    ensures k in AgentsAgain(nodes, reused) ==>
              var count := |AgentsAgain(nodes, reused)|;
              count > 0 && p.nodes[k].budget == Usage(nodes[k].budget.currency, (budget.tokens - a.usage.tokens) / count, (budget.cost - a.usage.cost) / count)
  {
    FreshNodesAreCounted(nodes, reused);
    SharesAre(nodes, reused, budget.tokens - a.usage.tokens, budget.cost - a.usage.cost, FreshAgents(nodes, reused), k);
  }

  lemma {:induction false} SomeAgent(nodes: seq<Node>, reused: set<string>, k: nat)
    requires k < |nodes|
    ensures nodes[k].isAgent && nodes[k].id !in reused ==> FreshAgents(nodes, reused) > 0
    decreases |nodes|
  {
    if k < |nodes| - 1 {
      SomeAgent(nodes[..|nodes| - 1], reused, k);
    }
  }

  lemma {:induction false} SharesAre(nodes: seq<Node>, reused: set<string>, tokens: nat, cost: nat, count: nat, k: nat)
    requires k < |nodes| && (FreshAgents(nodes, reused) > 0 ==> count > 0)
    ensures var n, shared := nodes[k], Share(nodes, reused, tokens, cost, count)[k];
            if n.isAgent && n.id !in reused
            then count > 0 && shared == Node(n.id, n.isAgent, Usage(n.budget.currency, tokens / count, cost / count))
            else shared == n
    decreases |nodes|
  {
    SomeAgent(nodes, reused, |nodes| - 1);
    if k < |nodes| - 1 {
      SharesAre(nodes[..|nodes| - 1], reused, tokens, cost, count, k);
    }
  }

  /** A preview is confirmed exactly when it is of this goal, its deadline is to come, the account is still the one it counted, and the limits still admit it. */
  lemma ConfirmsExactlyWhen(w: Work, p: Preview, goal: nat, budget: Usage, plan: Limits, policy: Limits, now: int)
    ensures ConfirmRework(w, p, goal, budget, plan, policy, now).Ok? <==>
              && p.goal == goal && now < p.accounted.deadline && AccountFor(w, budget.currency).Ok?
              && var a := AccountFor(w, budget.currency).value;
                 && p.accounted.groupVersion == a.groupVersion && p.accounted.round == a.round && p.accounted.deadline == a.deadline
                 && (w.Single? ==> p.accounted.usage == a.usage)
                 && RoundFits(w, p.nodes, p.reused, a.round, plan, policy)
  {
    CapacityExactlyWhen(w, p.nodes, p.reused, p.accounted.round, plan, policy);
  }

  /** A confirmed round continues the group with the nodes of its preview; the first round imports the first execution. */
  lemma ConfirmedRoundsContinueTheGroup(w: Work, p: Preview, goal: nat, budget: Usage, plan: Limits, policy: Limits, now: int)
    requires ConfirmRework(w, p, goal, budget, plan, policy, now).Ok?
    ensures var after := ConfirmRework(w, p, goal, budget, plan, policy, now).value;
            && after.Grouped? && var g, run := after.group, RunRecord(p.nodes, p.reused);
               && (w.Single? ==> g.cap == budget && g.initial == Some(w.usage) && g.runs == [run] && g.attempts == []
                                 && g.rounds == 1 && g.deadline == w.deadline && g.version == 1)
               && (w.Grouped? ==> g == w.group.(runs := w.group.runs + [run], rounds := w.group.rounds + 1, version := w.group.version + 1, limits := g.limits))
  {
  }

  /** From then on the limits of the group are the tightest of all that the round was started under. */
  lemma LimitsOnlyTighten(w: Work, p: Preview, goal: nat, budget: Usage, plan: Limits, policy: Limits, now: int, count: nat)
    requires ConfirmRework(w, p, goal, budget, plan, policy, now).Ok?
    ensures var after := ConfirmRework(w, p, goal, budget, plan, policy, now).value;
            var before := if w.Grouped? then w.group.limits else Limits(None, None, None);
            && after.Grouped? && var limits := after.group.limits;
               && (Allows(limits.maxNodes, count) <==>
                     count <= 12 && Allows(plan.maxNodes, count) && Allows(before.maxNodes, count) && Allows(policy.maxNodes, count))
               && (Allows(limits.maxAttempts, count) <==>
                     count <= 24 && Allows(plan.maxAttempts, count) && Allows(before.maxAttempts, count) && Allows(policy.maxAttempts, count))
               && (Allows(limits.maxReworkRounds, count) <==>
                     count <= 2 && Allows(plan.maxReworkRounds, count) && Allows(before.maxReworkRounds, count) && Allows(policy.maxReworkRounds, count))
  {
    var before := GroupLimits(w);
    BoundAllows(12, plan.maxNodes, before.maxNodes, policy.maxNodes, NodesSoFar(w) + FreshNodes(p.nodes, p.reused), count);
    BoundAllows(24, plan.maxAttempts, before.maxAttempts, policy.maxAttempts, AttemptsSoFar(w) + FreshAgents(p.nodes, p.reused), count);
    BoundAllows(2, plan.maxReworkRounds, before.maxReworkRounds, policy.maxReworkRounds, p.accounted.round, count);
  }

  lemma BoundAllows(hard: nat, plan: Option<int>, group: Option<int>, policy: Option<int>, fits: nat, count: nat)
    requires Fits(fits, Bound(hard, plan, group, policy))
    ensures Allows(Bound(hard, plan, group, policy), count) <==> count <= hard && Allows(plan, count) && Allows(group, count) && Allows(policy, count)
  {
  }

  // ---------------------------------------------------------------- attempts

  /** What an attempt takes of the budget: what it used once settled, what was reserved for it before. */
  function TakenTokens(attempts: seq<Attempt>): nat {
    if attempts == [] then 0
    else (match attempts[0].usage case Some(u) => u.tokens case None => attempts[0].budget.tokens) + TakenTokens(attempts[1..])
  }

  function TakenCost(attempts: seq<Attempt>): nat {
    if attempts == [] then 0
    else (match attempts[0].usage case Some(u) => u.cost case None => attempts[0].budget.cost) + TakenCost(attempts[1..])
  }

  lemma {:induction false} HeldIsTaken(attempts: seq<Attempt>, more: seq<Attempt>)
    ensures HeldTokens(attempts + more) == HeldTokens(attempts) + TakenTokens(more)
    ensures HeldCost(attempts + more) == HeldCost(attempts) + TakenCost(more)
    decreases |more|
  {
    if more == [] {
      assert attempts + more == attempts;
    } else {
      HeldIsTaken(attempts + [more[0]], more[1..]);
      assert attempts + [more[0]] + more[1..] == attempts + more;
      assert (attempts + [more[0]])[..|attempts|] == attempts;
    }
  }

  /**
   An attempt is admitted exactly when the kernel finds nothing against it, one more attempt stays within every limit, it is
   budgeted in the group's currency, and with everything taken so far it fits the cap in both amounts.
   */
  lemma AdmitsExactlyWhen(g: Group, budget: Usage, policy: Limits, refused: Option<string>)
    ensures var first, made := if g.initial.Some? then g.initial.value else Usage(g.cap.currency, 0, 0), |g.attempts| + (if g.initial.Some? then 1 else 0);
            Admit(g, budget, policy, refused).Ok? <==>
              && refused == None && made + 1 <= 24 && Allows(g.limits.maxAttempts, made + 1) && Allows(policy.maxAttempts, made + 1)
              && budget.currency == g.cap.currency
              && first.tokens + TakenTokens(g.attempts) + budget.tokens <= g.cap.tokens
              && first.cost + TakenCost(g.attempts) + budget.cost <= g.cap.cost
    ensures Admit(g, budget, policy, refused).Ok? ==>
              Admit(g, budget, policy, refused).value == g.(attempts := g.attempts + [Attempt(budget, None)])
  {
    CommittedIsTaken(g);
    OneMoreIsAllowed(|g.attempts| + (if g.initial.Some? then 1 else 0), g.limits.maxAttempts, policy.maxAttempts);
  }

  lemma CommittedIsTaken(g: Group)
    ensures var first := if g.initial.Some? then g.initial.value else Usage(g.cap.currency, 0, 0);
            CommittedTokens(g) == first.tokens + TakenTokens(g.attempts) && CommittedCost(g) == first.cost + TakenCost(g.attempts)
  {
    HeldIsTaken([], g.attempts);
    assert [] + g.attempts == g.attempts;
  }

  lemma OneMoreIsAllowed(made: nat, group: Option<int>, policy: Option<int>)
    ensures var most := Bound(HARD_ATTEMPTS, group, group, policy);
            (most.Some? && made < most.value) <==> made + 1 <= 24 && Allows(group, made + 1) && Allows(policy, made + 1)
  {
  }

  /** Settling names an attempt in its currency; it is recorded once, and repeating the same usage changes nothing. */
  lemma SettlesExactlyWhen(g: Group, i: nat, usage: Usage, refused: Option<string>)
    ensures SettleAttempt(g, i, usage, refused).Ok? <==>
              && i < |g.attempts| && g.attempts[i].budget.currency == usage.currency && refused == None
              && (g.attempts[i].usage.Some? ==> g.attempts[i].usage.value == usage)
    ensures SettleAttempt(g, i, usage, refused).Ok? ==>
              var after := SettleAttempt(g, i, usage, refused).value;
              && after == g.(attempts := after.attempts) && |after.attempts| == |g.attempts|
              && after.attempts[i] == Attempt(g.attempts[i].budget, Some(usage))
              && forall k :: 0 <= k < |g.attempts| && k != i ==> after.attempts[k] == g.attempts[k]
  {
  }
}
