/**
 Rework rounds: what was spent so far, how the rest of the budget is split over the plan nodes that run again, the
 cumulative limits on nodes, attempts and rounds, and the attempts that the coordination kernel then admits.
 */
module Rework {
  import opened Options
  import opened GoalModel

  const HARD_NODES := 12
  const HARD_ATTEMPTS := 24
  const HARD_ROUNDS := 2

  datatype Node = Node(id: string, isAgent: bool, budget: Usage)

  /** Limits of a plan, a group or a workspace policy; an absent limit does not restrict. */
  datatype Limits = Limits(maxNodes: Option<int>, maxAttempts: Option<int>, maxReworkRounds: Option<int>)

  datatype RunRecord = RunRecord(nodes: seq<Node>, reused: set<string>)

  /** An attempt of a node: the budget reserved for it and, once it is settled and closed, its usage. */
  datatype Attempt = Attempt(budget: Usage, usage: Option<Usage>)

  datatype Group = Group(
    cap: Usage,
    initial: Option<Usage>,
    runs: seq<RunRecord>,
    attempts: seq<Attempt>,
    rounds: nat,
    limits: Limits,
    deadline: int,
    version: nat)

  /** What a reworkable goal is bound to: its first execution, or the coordination group that continued it. */
  datatype Work = Single(usage: Usage, deadline: int) | Grouped(group: Group)

  datatype Accounted = Accounted(usage: Usage, deadline: int, round: nat, groupVersion: nat)

  // ---------------------------------------------------------------- accounting

  predicate AttemptKnown(a: Attempt, currency: string) { a.usage.Some? && a.usage.value.currency == currency }

  predicate AllKnown(attempts: seq<Attempt>, currency: string) {
    forall i :: 0 <= i < |attempts| ==> AttemptKnown(attempts[i], currency)
  }

  function Start(g: Group, currency: string): Usage {
    if g.initial.Some? then Usage(currency, g.initial.value.tokens, g.initial.value.cost) else Usage(currency, 0, 0)
  }

  function Spent(from: Usage, attempts: seq<Attempt>): Usage {
    if attempts == [] then from
    else
      var rest, last := Spent(from, attempts[..|attempts| - 1]), attempts[|attempts| - 1];
      if last.usage.Some? then Usage(rest.currency, rest.tokens + last.usage.value.tokens, rest.cost + last.usage.value.cost) else rest
  }

  function AccountFor(w: Work, currency: string): Result<Accounted> {
    match w
    case Single(usage, deadline) => Ok(Accounted(usage, deadline, 1, 0))
    case Grouped(g) =>
      if !AllKnown(g.attempts, currency) then Err("GOAL_USAGE_UNKNOWN")
      else Ok(Accounted(Spent(Start(g, currency), g.attempts), g.deadline, g.rounds + 1, g.version))
  }

  method Accounting(w: Work, currency: string) returns (result: Result<Accounted>)
    ensures result == AccountFor(w, currency)
  {
    if w.Single? {
      return Ok(Accounted(w.usage, w.deadline, 1, 0));
    }
    var g := w.group;
    var total := Start(g, currency);
    var i := 0;
    while i < |g.attempts|
      invariant 0 <= i <= |g.attempts|
      invariant AllKnown(g.attempts[..i], currency)
      invariant total == Spent(Start(g, currency), g.attempts[..i])
    {
      if !AttemptKnown(g.attempts[i], currency) {
        return Err("GOAL_USAGE_UNKNOWN");
      }
      assert g.attempts[..i + 1][..i] == g.attempts[..i];
      total := Usage(total.currency, total.tokens + g.attempts[i].usage.value.tokens, total.cost + g.attempts[i].usage.value.cost);
      i := i + 1;
    }
    assert g.attempts[..i] == g.attempts;
    result := Ok(Accounted(total, g.deadline, g.rounds + 1, g.version));
  }

  // ---------------------------------------------------------------- cumulative limits

  function FreshNodes(nodes: seq<Node>, reused: set<string>): nat {
    if nodes == [] then 0
    else FreshNodes(nodes[..|nodes| - 1], reused) + (if nodes[|nodes| - 1].id !in reused then 1 else 0)
  }

  predicate FreshAgent(n: Node, reused: set<string>) { n.isAgent && n.id !in reused }

  function FreshAgents(nodes: seq<Node>, reused: set<string>): nat {
    if nodes == [] then 0
    else FreshAgents(nodes[..|nodes| - 1], reused) + (if FreshAgent(nodes[|nodes| - 1], reused) then 1 else 0)
  }

  function RunNodes(runs: seq<RunRecord>): nat {
    if runs == [] then 0
    else RunNodes(runs[..|runs| - 1]) + FreshNodes(runs[|runs| - 1].nodes, runs[|runs| - 1].reused)
  }

  /** The first execution counts as one node and one attempt, whichever form its record has. */
  function Original(w: Work): nat {
    match w
    case Single(_, _) => 1
    case Grouped(g) => if g.initial.Some? then 1 else 0
  }

  function NodesSoFar(w: Work): nat {
    Original(w) + (if w.Grouped? then RunNodes(w.group.runs) else 0)
  }

  function AttemptsSoFar(w: Work): nat {
    Original(w) + (if w.Grouped? then |w.group.attempts| else 0)
  }

  function Lower(hard: int, value: Option<int>): Option<int> {
    match value
    case None => Some(hard)
    case Some(v) => if v < 0 then None else Some(if v < hard then v else hard)
  }

  /** The smallest of a hard limit and the limits that are set; none when a set limit is invalid. */
  function Bound(hard: int, plan: Option<int>, group: Option<int>, policy: Option<int>): Option<int> {
    var a := Lower(hard, plan);
    var b := if a.Some? then Lower(a.value, group) else None;
    if b.Some? then Lower(b.value, policy) else None
  }

  predicate Fits(count: nat, bound: Option<int>) { bound.Some? && count <= bound.value }

  const UNLIMITED := Limits(None, None, None)

  function GroupLimits(w: Work): Limits { if w.Grouped? then w.group.limits else UNLIMITED }

  predicate HasCapacity(w: Work, nodes: seq<Node>, reused: set<string>, round: nat, plan: Limits, policy: Limits) {
    var group := GroupLimits(w);
    && Fits(NodesSoFar(w) + FreshNodes(nodes, reused), Bound(HARD_NODES, plan.maxNodes, group.maxNodes, policy.maxNodes))
    && Fits(AttemptsSoFar(w) + FreshAgents(nodes, reused), Bound(HARD_ATTEMPTS, plan.maxAttempts, group.maxAttempts, policy.maxAttempts))
    && Fits(round, Bound(HARD_ROUNDS, plan.maxReworkRounds, group.maxReworkRounds, policy.maxReworkRounds))
  }

  // ---------------------------------------------------------------- preview and confirmation

  /**
   A stored preview names the goal's contents at that time by their digest. `counted` is how many attempts it counted,
   the first execution among them; the host does not store it, and no step reads it.
   */
  datatype Preview = Preview(goal: nat, accounted: Accounted, counted: nat, nodes: seq<Node>, reused: set<string>)

  predicate Above(round: nat, limit: Option<int>) { limit.Some? && round > limit.value }

  predicate TooManyRounds(round: nat, plan: Limits, policy: Limits) {
    round > HARD_ROUNDS || Above(round, plan.maxReworkRounds) || Above(round, policy.maxReworkRounds)
  }

  /** Every agent node that runs again gets an equal share of the remaining budget, rounded down. */
  function Share(nodes: seq<Node>, reused: set<string>, tokens: nat, cost: nat, count: nat): (shared: seq<Node>)
    requires FreshAgents(nodes, reused) > 0 ==> count > 0
    ensures |shared| == |nodes|
  {
    if nodes == [] then []
    else
      var last := nodes[|nodes| - 1];
      Share(nodes[..|nodes| - 1], reused, tokens, cost, count) +
      [if FreshAgent(last, reused) then last.(budget := Usage(last.budget.currency, tokens / count, cost / count)) else last]
  }

  function PreviewRework(w: Work, goal: nat, budget: Usage, nodes: seq<Node>, reused: set<string>, plan: Limits, policy: Limits, now: int): Result<Preview> {
    var accounted := AccountFor(w, budget.currency);
    if accounted.Err? then Err(accounted.code)
    else
      var a := accounted.value;
      if TooManyRounds(a.round, plan, policy) then Err("GOAL_REWORK_LIMIT")
      else if a.deadline <= now || a.usage.tokens >= budget.tokens || a.usage.cost >= budget.cost then Err("GOAL_BUDGET_EXCEEDED")
      else if !HasCapacity(w, nodes, reused, a.round, plan, policy) then Err("GOAL_REWORK_LIMIT")
      else Ok(Preview(goal, a, AttemptsSoFar(w), Share(nodes, reused, budget.tokens - a.usage.tokens, budget.cost - a.usage.cost, FreshAgents(nodes, reused)), reused))
  }

  /** The limits of a group are tightened by those of every plan and policy that a round was started under. */
  function Tightened(group: Limits, plan: Limits, policy: Limits): Limits {
    Limits(Bound(HARD_NODES, plan.maxNodes, group.maxNodes, policy.maxNodes),
           Bound(HARD_ATTEMPTS, plan.maxAttempts, group.maxAttempts, policy.maxAttempts),
           Bound(HARD_ROUNDS, plan.maxReworkRounds, group.maxReworkRounds, policy.maxReworkRounds))
  }

  /** The coordination group after a confirmed round: the kernel imports the first execution and counts the round. */
  function Started(w: Work, p: Preview, budget: Usage, plan: Limits, policy: Limits): Work {
    var run, limits := RunRecord(p.nodes, p.reused), Tightened(GroupLimits(w), plan, policy);
    match w
    case Single(usage, deadline) => Grouped(Group(budget, Some(usage), [run], [], 1, limits, deadline, 1))
    case Grouped(g) => Grouped(g.(runs := g.runs + [run], rounds := g.rounds + 1, limits := limits, version := g.version + 1))
  }

  /** The confirmation checks the stored preview against the present once more before it starts the round. */
  function ConfirmRework(w: Work, p: Preview, goal: nat, budget: Usage, plan: Limits, policy: Limits, now: int): Result<Work> {
    if p.goal != goal || now >= p.accounted.deadline then Err("GOAL_PREVIEW_CHANGED")
    else
      var counted := AccountFor(w, budget.currency);
      if counted.Err? then Err(counted.code)
      else if counted.value.groupVersion != p.accounted.groupVersion || counted.value.round != p.accounted.round
              || counted.value.deadline != p.accounted.deadline
              || (w.Single? && counted.value.usage != p.accounted.usage) then Err("GOAL_PREVIEW_CHANGED")
      else if !HasCapacity(w, p.nodes, p.reused, p.accounted.round, plan, policy) then Err("GOAL_REWORK_LIMIT")
      else Ok(Started(w, p, budget, plan, policy))
  }

  // ---------------------------------------------------------------- attempts

  /** What an attempt holds of the budget: its usage once settled, what was reserved for it until then. */
  function Held(a: Attempt): Usage { if a.usage.Some? then a.usage.value else a.budget }

  function HeldTokens(attempts: seq<Attempt>): nat {
    if attempts == [] then 0 else HeldTokens(attempts[..|attempts| - 1]) + Held(attempts[|attempts| - 1]).tokens
  }

  function HeldCost(attempts: seq<Attempt>): nat {
    if attempts == [] then 0 else HeldCost(attempts[..|attempts| - 1]) + Held(attempts[|attempts| - 1]).cost
  }

  function CommittedTokens(g: Group): nat { Start(g, g.cap.currency).tokens + HeldTokens(g.attempts) }

  function CommittedCost(g: Group): nat { Start(g, g.cap.currency).cost + HeldCost(g.attempts) }

  /** The kernel's admission of one attempt; `refused` is the verdict of its checks on the node and its dependencies. */
  function Admit(g: Group, budget: Usage, policy: Limits, refused: Option<string>): Result<Group> {
    var most := Bound(HARD_ATTEMPTS, g.limits.maxAttempts, g.limits.maxAttempts, policy.maxAttempts);
    if refused.Some? then Err(refused.value)
    else if most.None? then Err("COORDINATION_LIMIT_INVALID")
    else if |g.attempts| + (if g.initial.Some? then 1 else 0) >= most.value then Err("COORDINATION_ATTEMPT_LIMIT")
    else if budget.currency != g.cap.currency then Err("COORDINATION_NODE_INVALID")
    else if CommittedTokens(g) + budget.tokens > g.cap.tokens || CommittedCost(g) + budget.cost > g.cap.cost then Err("COORDINATION_BUDGET_EXCEEDED")
    else Ok(g.(attempts := g.attempts + [Attempt(budget, None)]))
  }

  /** An attempt is settled once; whatever it used is recorded, be it more than was reserved. */
  function SettleAttempt(g: Group, i: nat, usage: Usage, refused: Option<string>): Result<Group> {
    if i >= |g.attempts| then Err("COORDINATION_ATTEMPT_MISSING")
    else if g.attempts[i].budget.currency != usage.currency then Err("COORDINATION_CURRENCY_CHANGED")
    else if refused.Some? then Err(refused.value)
    else if g.attempts[i].usage.Some? then if g.attempts[i].usage.value != usage then Err("COORDINATION_USAGE_CONFLICT") else Ok(g)
    else Ok(g.(attempts := g.attempts[i := g.attempts[i].(usage := Some(usage))]))
  }

  // ---------------------------------------------------------------- budgets of one round

  function AgentTokens(nodes: seq<Node>, reused: set<string>): nat {
    if nodes == [] then 0
    else AgentTokens(nodes[..|nodes| - 1], reused) + (if FreshAgent(nodes[|nodes| - 1], reused) then nodes[|nodes| - 1].budget.tokens else 0)
  }

  function AgentCost(nodes: seq<Node>, reused: set<string>): nat {
    if nodes == [] then 0
    else AgentCost(nodes[..|nodes| - 1], reused) + (if FreshAgent(nodes[|nodes| - 1], reused) then nodes[|nodes| - 1].budget.cost else 0)
  }

  lemma OneMore(n: nat, each: nat)
    ensures (n + 1) * each == n * each + each
  {
  }

  lemma {:induction false} SharesAddUp(nodes: seq<Node>, reused: set<string>, tokens: nat, cost: nat, count: nat)
    requires count > 0
    ensures var shared := Share(nodes, reused, tokens, cost, count);
            && AgentTokens(shared, reused) == FreshAgents(nodes, reused) * (tokens / count)
            && AgentCost(shared, reused) == FreshAgents(nodes, reused) * (cost / count)
            && FreshAgents(shared, reused) == FreshAgents(nodes, reused)
            && FreshNodes(shared, reused) == FreshNodes(nodes, reused)
  {
    if nodes != [] {
      var front, last := nodes[..|nodes| - 1], nodes[|nodes| - 1];
      SharesAddUp(front, reused, tokens, cost, count);
      OneMore(FreshAgents(front, reused), tokens / count);
      OneMore(FreshAgents(front, reused), cost / count);
      var shared := Share(nodes, reused, tokens, cost, count);
      assert shared[..|shared| - 1] == Share(front, reused, tokens, cost, count);
      assert FreshAgents(nodes, reused) == FreshAgents(front, reused) + (if FreshAgent(last, reused) then 1 else 0);
      assert FreshAgent(shared[|shared| - 1], reused) == FreshAgent(last, reused);
    }
  }

  lemma SharesFit(count: nat, amount: nat)
    requires count > 0
    ensures count * (amount / count) <= amount
  {
  }

  lemma {:induction false} NoSharesWithoutAgents(nodes: seq<Node>, reused: set<string>, tokens: nat, cost: nat, count: nat)
    requires FreshAgents(nodes, reused) == 0
    ensures Share(nodes, reused, tokens, cost, count) == nodes && AgentTokens(nodes, reused) == 0 && AgentCost(nodes, reused) == 0
  {
    if nodes != [] {
      NoSharesWithoutAgents(nodes[..|nodes| - 1], reused, tokens, cost, count);
    }
  }

  /** What was counted at preview plus the budgets of all nodes that run again never exceeds the goal's budget. */
  lemma RoundFitsTheBudget(w: Work, goal: nat, budget: Usage, nodes: seq<Node>, reused: set<string>, plan: Limits, policy: Limits, now: int)
    requires PreviewRework(w, goal, budget, nodes, reused, plan, policy, now).Ok?
    ensures PreviewFits(PreviewRework(w, goal, budget, nodes, reused, plan, policy, now).value, budget)
    ensures var p := PreviewRework(w, goal, budget, nodes, reused, plan, policy, now).value;
            && FreshNodes(p.nodes, p.reused) == FreshNodes(nodes, reused)
            && FreshAgents(p.nodes, p.reused) == FreshAgents(nodes, reused)
  {
    var a := AccountFor(w, budget.currency).value;
    var tokens, cost, count := budget.tokens - a.usage.tokens, budget.cost - a.usage.cost, FreshAgents(nodes, reused);
    if count > 0 {
      SharesAddUp(nodes, reused, tokens, cost, count);
      SharesFit(count, tokens);
      SharesFit(count, cost);
    } else {
      NoSharesWithoutAgents(nodes, reused, tokens, cost, count);
    }
  }

  predicate PreviewFits(p: Preview, budget: Usage) {
    && p.accounted.usage.tokens + AgentTokens(p.nodes, p.reused) <= budget.tokens
    && p.accounted.usage.cost + AgentCost(p.nodes, p.reused) <= budget.cost
  }

  // ---------------------------------------------------------------- any sequence of rounds and attempts

  /** A goal under rework: its budget, its work so far and every preview ever stored for it. */
  datatype Project = Project(budget: Usage, work: Work, previews: seq<Preview>)

  /** Previews, confirmations of any stored preview, however old, and the kernel admitting and settling attempts. */
  datatype Step =
    | PreviewStep(goal: nat, nodes: seq<Node>, reused: set<string>, plan: Limits, policy: Limits, now: int)
    | ConfirmStep(preview: nat, goal: nat, plan: Limits, policy: Limits, now: int)
    | AdmitStep(budget: Usage, policy: Limits, refused: Option<string>)
    | SettleStep(attempt: nat, usage: Usage, refused: Option<string>)

  function Confirmed(x: Project, step: Step): Result<Work>
    requires step.ConfirmStep?
  {
    if step.preview >= |x.previews| then Err("GOAL_PREVIEW_CHANGED")
    else ConfirmRework(x.work, x.previews[step.preview], step.goal, x.budget, step.plan, step.policy, step.now)
  }

  function WithGroup(x: Project, g: Result<Group>): Project { if g.Ok? then x.(work := Grouped(g.value)) else x }

  function Apply(x: Project, step: Step): Project {
    match step
    case PreviewStep(goal, nodes, reused, plan, policy, now) =>
      (var p := PreviewRework(x.work, goal, x.budget, nodes, reused, plan, policy, now); if p.Ok? then x.(previews := x.previews + [p.value]) else x)
    case ConfirmStep(_, _, _, _, _) => (var c := Confirmed(x, step); if c.Ok? then x.(work := c.value) else x)
    case AdmitStep(budget, policy, refused) => if x.work.Grouped? then WithGroup(x, Admit(x.work.group, budget, policy, refused)) else x
    case SettleStep(i, usage, refused) => if x.work.Grouped? then WithGroup(x, SettleAttempt(x.work.group, i, usage, refused)) else x
  }

  function Outcome(x: Project, steps: seq<Step>): Project {
    if steps == [] then x else Apply(Outcome(x, steps[..|steps| - 1]), steps[|steps| - 1])
  }

  // ---------------------------------------------------------------- limits over any run

  predicate WithinLimits(w: Work) {
    && NodesSoFar(w) <= HARD_NODES
    && AttemptsSoFar(w) <= HARD_ATTEMPTS
    && RoundsOf(w) <= HARD_ROUNDS
  }

  function RoundsOf(w: Work): nat { if w.Grouped? then w.group.rounds else 0 }

  lemma StartedNodes(w: Work, p: Preview, budget: Usage, plan: Limits, policy: Limits)
    ensures var after := Started(w, p, budget, plan, policy);
            NodesSoFar(after) == NodesSoFar(w) + FreshNodes(p.nodes, p.reused) && AttemptsSoFar(after) == AttemptsSoFar(w)
  {
    match w
    case Single(_, _) =>
      var runs := [RunRecord(p.nodes, p.reused)];
      assert runs[..0] == [];
      assert RunNodes(runs) == FreshNodes(p.nodes, p.reused);
    case Grouped(g) =>
      var run := RunRecord(p.nodes, p.reused);
      assert (g.runs + [run])[..|g.runs|] == g.runs;
  }

  /** A confirmed round stays within twelve nodes, twenty-four attempts made or planned, and two rounds. */
  lemma ConfirmedRoundStaysWithinLimits(w: Work, p: Preview, goal: nat, budget: Usage, plan: Limits, policy: Limits, now: int)
    requires ConfirmRework(w, p, goal, budget, plan, policy, now).Ok?
    ensures var after := ConfirmRework(w, p, goal, budget, plan, policy, now).value;
            && after.Grouped?
            && NodesSoFar(after) == NodesSoFar(w) + FreshNodes(p.nodes, p.reused) <= HARD_NODES
            && AttemptsSoFar(after) + FreshAgents(p.nodes, p.reused) <= HARD_ATTEMPTS
            && after.group.rounds == p.accounted.round == RoundsOf(w) + 1 <= HARD_ROUNDS
  {
    StartedNodes(w, p, budget, plan, policy);
  }

  lemma {:induction false} RoundsStayWithinLimits(x: Project, steps: seq<Step>)
    requires WithinLimits(x.work)
    ensures WithinLimits(Outcome(x, steps).work)
  {
    if steps != [] {
      var front, last := steps[..|steps| - 1], steps[|steps| - 1];
      RoundsStayWithinLimits(x, front);
      var before := Outcome(x, front);
      if last.ConfirmStep? && Apply(before, last) != before {
        ConfirmedRoundStaysWithinLimits(before.work, before.previews[last.preview], last.goal, before.budget, last.plan, last.policy, last.now);
      }
    }
  }

  /** How many steps of a run were confirmations that started a round. */
  function Confirmations(x: Project, steps: seq<Step>): nat {
    if steps == [] then 0
    else
      var front, last := steps[..|steps| - 1], steps[|steps| - 1];
      Confirmations(x, front) + (if last.ConfirmStep? && Confirmed(Outcome(x, front), last).Ok? then 1 else 0)
  }

  /** Over any run at most two rounds are started, and the group counts each of them once. */
  lemma {:induction false} AtMostTwoRounds(x: Project, steps: seq<Step>)
    requires RoundsOf(x.work) <= HARD_ROUNDS
    ensures RoundsOf(Outcome(x, steps).work) == RoundsOf(x.work) + Confirmations(x, steps) <= HARD_ROUNDS
  {
    if steps != [] {
      var front, last := steps[..|steps| - 1], steps[|steps| - 1];
      AtMostTwoRounds(x, front);
      var before := Outcome(x, front);
      if last.ConfirmStep? && Confirmed(before, last).Ok? {
        ConfirmedRoundStaysWithinLimits(before.work, before.previews[last.preview], last.goal, before.budget, last.plan, last.policy, last.now);
      }
    }
  }

  // ---------------------------------------------------------------- the budget over any run

  function OverrunTokens(attempts: seq<Attempt>): nat {
    if attempts == [] then 0
    else
      var a := attempts[|attempts| - 1];
      OverrunTokens(attempts[..|attempts| - 1]) + (if Held(a).tokens > a.budget.tokens then Held(a).tokens - a.budget.tokens else 0)
  }

  function OverrunCost(attempts: seq<Attempt>): nat {
    if attempts == [] then 0
    else
      var a := attempts[|attempts| - 1];
      OverrunCost(attempts[..|attempts| - 1]) + (if Held(a).cost > a.budget.cost then Held(a).cost - a.budget.cost else 0)
  }

  predicate CommittedFits(g: Group) {
    && CommittedTokens(g) <= g.cap.tokens + OverrunTokens(g.attempts)
    && CommittedCost(g) <= g.cap.cost + OverrunCost(g.attempts)
  }

  /** The work belongs to the goal's budget, the stored previews fit it, and what is committed exceeds it by overruns only. */
  predicate ProjectOk(x: Project) {
    && (forall i :: 0 <= i < |x.previews| ==> PreviewFits(x.previews[i], x.budget))
    && (x.work.Grouped? ==> x.work.group.cap == x.budget && CommittedFits(x.work.group))
  }

  lemma HeldGrows(attempts: seq<Attempt>, a: Attempt)
    requires a.usage.None?
    ensures HeldTokens(attempts + [a]) == HeldTokens(attempts) + a.budget.tokens && OverrunTokens(attempts + [a]) == OverrunTokens(attempts)
    ensures HeldCost(attempts + [a]) == HeldCost(attempts) + a.budget.cost && OverrunCost(attempts + [a]) == OverrunCost(attempts)
  {
    assert (attempts + [a])[..|attempts|] == attempts;
  }

  /** Settling one reservation raises what is held by no more than its overrun. */
  lemma {:induction false} SettlingAddsOverrunOnly(attempts: seq<Attempt>, i: nat, usage: Usage)
    requires i < |attempts| && attempts[i].usage.None?
    ensures var after := attempts[i := attempts[i].(usage := Some(usage))];
            && HeldTokens(after) + OverrunTokens(attempts) <= HeldTokens(attempts) + OverrunTokens(after)
            && HeldCost(after) + OverrunCost(attempts) <= HeldCost(attempts) + OverrunCost(after)
    decreases |attempts|
  {
    var after, front := attempts[i := attempts[i].(usage := Some(usage))], attempts[..|attempts| - 1];
    if i < |front| {
      SettlingAddsOverrunOnly(front, i, usage);
      assert after[..|front|] == front[i := front[i].(usage := Some(usage))];
    } else {
      assert after[..|front|] == front;
    }
  }

  lemma AdmittingFits(g: Group, budget: Usage, policy: Limits, refused: Option<string>)
    requires Admit(g, budget, policy, refused).Ok?
    ensures CommittedFits(Admit(g, budget, policy, refused).value)
  {
    HeldGrows(g.attempts, Attempt(budget, None));
  }

  lemma SettlingFits(g: Group, i: nat, usage: Usage, refused: Option<string>)
    requires CommittedFits(g) && SettleAttempt(g, i, usage, refused).Ok?
    ensures CommittedFits(SettleAttempt(g, i, usage, refused).value)
  {
    if g.attempts[i].usage.None? {
      SettlingAddsOverrunOnly(g.attempts, i, usage);
    }
  }

  /** The attempts admitted since a preview of the present round. */
  function Later(w: Work, p: Preview): seq<Attempt> {
    if w.Grouped? && Original(w) <= p.counted <= AttemptsSoFar(w) then w.group.attempts[p.counted - Original(w)..] else []
  }

  /** What a preview of the present round counted is still what its attempts used. */
  predicate CountsRightly(w: Work, currency: string, p: Preview) {
    p.accounted.round == RoundsOf(w) + 1 ==>
      if w.Single? then p.accounted.usage == w.usage
      else
        var n := p.counted - Original(w);
        && 0 <= n <= |w.group.attempts| && AllKnown(w.group.attempts[..n], currency)
        && p.accounted.usage == Spent(Start(w.group, currency), w.group.attempts[..n])
  }

  predicate PreviewsCountRightly(x: Project) {
    forall i :: 0 <= i < |x.previews| ==>
      x.previews[i].accounted.round <= RoundsOf(x.work) + 1 && CountsRightly(x.work, x.budget.currency, x.previews[i])
  }

  lemma AdmittingCountsRightly(g: Group, a: Attempt, currency: string, p: Preview)
    requires CountsRightly(Grouped(g), currency, p)
    ensures CountsRightly(Grouped(g.(attempts := g.attempts + [a])), currency, p)
  {
    var n := p.counted - Original(Grouped(g));
    if p.accounted.round == g.rounds + 1 {
      assert (g.attempts + [a])[..n] == g.attempts[..n];
    }
  }

  /** Settling an open attempt changes none that a preview counted, for those were settled. */
  lemma SettlingCountsRightly(g: Group, i: nat, usage: Usage, currency: string, p: Preview)
    requires i < |g.attempts| && g.attempts[i].usage.None? && CountsRightly(Grouped(g), currency, p)
    ensures CountsRightly(Grouped(g.(attempts := g.attempts[i := g.attempts[i].(usage := Some(usage))])), currency, p)
  {
    var n := p.counted - Original(Grouped(g));
    if p.accounted.round == g.rounds + 1 {
      assert i < n ==> AttemptKnown(g.attempts[..n][i], currency);
      assert g.attempts[i := g.attempts[i].(usage := Some(usage))][..n] == g.attempts[..n];
    }
  }

  lemma PreviewCountsRightly(w: Work, goal: nat, budget: Usage, nodes: seq<Node>, reused: set<string>, plan: Limits, policy: Limits, now: int)
    requires PreviewRework(w, goal, budget, nodes, reused, plan, policy, now).Ok?
    ensures var p := PreviewRework(w, goal, budget, nodes, reused, plan, policy, now).value;
            p.accounted.round == RoundsOf(w) + 1 && CountsRightly(w, budget.currency, p)
  {
    if w.Grouped? {
      assert w.group.attempts[..|w.group.attempts|] == w.group.attempts;
    }
  }

  lemma GroupStepCountsRightly(x: Project, step: Step)
    requires PreviewsCountRightly(x) && x.work.Grouped? && (step.AdmitStep? || step.SettleStep?) && Apply(x, step) != x
    ensures PreviewsCountRightly(Apply(x, step))
  {
    var g := x.work.group;
    forall i | 0 <= i < |x.previews|
      ensures x.previews[i].accounted.round <= RoundsOf(Apply(x, step).work) + 1
      ensures CountsRightly(Apply(x, step).work, x.budget.currency, x.previews[i])
    {
      if step.AdmitStep? {
        AdmittingCountsRightly(g, Attempt(step.budget, None), x.budget.currency, x.previews[i]);
      } else {
        SettlingCountsRightly(g, step.attempt, step.usage, x.budget.currency, x.previews[i]);
      }
    }
  }

  lemma StepCountsRightly(x: Project, step: Step)
    requires PreviewsCountRightly(x)
    ensures PreviewsCountRightly(Apply(x, step))
  {
    if Apply(x, step) != x {
      match step
      case PreviewStep(goal, nodes, reused, plan, policy, now) => PreviewCountsRightly(x.work, goal, x.budget, nodes, reused, plan, policy, now);
      case ConfirmStep(_, _, _, _, _) =>
      case AdmitStep(_, _, _) => GroupStepCountsRightly(x, step);
      case SettleStep(_, _, _) => GroupStepCountsRightly(x, step);
    }
  }

  lemma {:induction false} EveryRunCountsRightly(x: Project, steps: seq<Step>)
    requires PreviewsCountRightly(x)
    ensures PreviewsCountRightly(Outcome(x, steps))
  {
    if steps != [] {
      EveryRunCountsRightly(x, steps[..|steps| - 1]);
      StepCountsRightly(Outcome(x, steps[..|steps| - 1]), steps[|steps| - 1]);
    }
  }

  lemma {:induction false} SpentJoins(from: Usage, a: seq<Attempt>, b: seq<Attempt>)
    ensures Spent(from, a + b) == Spent(Spent(from, a), b)
  {
    if b == [] {
      assert a + b == a;
    } else {
      assert (a + b)[..|a + b| - 1] == a + b[..|b| - 1];
      SpentJoins(from, a, b[..|b| - 1]);
    }
  }

  lemma SplitUsage(g: Group, currency: string, n: nat)
    requires n <= |g.attempts|
    ensures Spent(Start(g, currency), g.attempts) == Spent(Spent(Start(g, currency), g.attempts[..n]), g.attempts[n..])
  {
    SpentJoins(Start(g, currency), g.attempts[..n], g.attempts[n..]);
    assert g.attempts[..n] + g.attempts[n..] == g.attempts;
  }

  /** At a confirmation the present usage is what the preview counted plus what the attempts admitted since then used. */
  lemma PresentUsage(w: Work, currency: string, p: Preview)
    requires AccountFor(w, currency).Ok? && p.accounted.round == AccountFor(w, currency).value.round && CountsRightly(w, currency, p)
    ensures AccountFor(w, currency).value.usage == Spent(p.accounted.usage, Later(w, p))
  {
    if w.Grouped? {
      SplitUsage(w.group, currency, p.counted - Original(w));
    }
  }

  /**
   At every confirmed round the started nodes are those of a stored preview, so what that preview counted plus their
   budgets is within the goal's budget; and the present usage is the counted one plus that of attempts admitted since.
   */
  lemma ConfirmedRoundFitsTheBudget(x: Project, steps: seq<Step>, step: Step)
    requires ProjectOk(x) && PreviewsCountRightly(x) && step.ConfirmStep? && Confirmed(Outcome(x, steps), step).Ok?
    ensures var before := Outcome(x, steps);
            var p, after := before.previews[step.preview], Confirmed(before, step).value;
            && after.Grouped? && |after.group.runs| > 0
            && var run := after.group.runs[|after.group.runs| - 1];
               && run == RunRecord(p.nodes, p.reused)
               && p.accounted.usage.tokens + AgentTokens(run.nodes, run.reused) <= x.budget.tokens
               && p.accounted.usage.cost + AgentCost(run.nodes, run.reused) <= x.budget.cost
               && AccountFor(before.work, x.budget.currency).Ok?
               && AccountFor(before.work, x.budget.currency).value.usage == Spent(p.accounted.usage, Later(before.work, p))
  {
    BudgetHoldsOverAllRounds(x, steps);
    EveryRunCountsRightly(x, steps);
    var before := Outcome(x, steps);
    assert PreviewFits(before.previews[step.preview], x.budget);
    PresentUsage(before.work, x.budget.currency, before.previews[step.preview]);
  }

  predicate NoAdmissions(steps: seq<Step>) { forall i :: 0 <= i < |steps| ==> !steps[i].AdmitStep? }

  /** A preview stays as stored, and without an admission the number of attempts stays. */
  lemma {:induction false} PreviewsStay(x: Project, steps: seq<Step>, k: nat)
    requires k < |x.previews|
    ensures k < |Outcome(x, steps).previews| && Outcome(x, steps).previews[k] == x.previews[k]
    ensures NoAdmissions(steps) ==> AttemptsSoFar(Outcome(x, steps).work) == AttemptsSoFar(x.work)
  {
    if steps != [] {
      PreviewsStay(x, steps[..|steps| - 1], k);
      AttemptsComeByAdmission(Outcome(x, steps[..|steps| - 1]), steps[|steps| - 1]);
    }
  }

  lemma AttemptsComeByAdmission(x: Project, step: Step)
    ensures !step.AdmitStep? ==> AttemptsSoFar(Apply(x, step).work) == AttemptsSoFar(x.work)
  {
  }

  /**
   When nothing was admitted between a preview and its confirmation, the usage it counted is the present one at any
   round, so present usage plus the budgets of the started nodes is within the goal's budget.
   */
  lemma ConfirmedUsageIsPresent(x: Project, steps: seq<Step>, preview: Step, more: seq<Step>, step: Step)
    requires ProjectOk(x) && PreviewsCountRightly(x) && NoAdmissions(more) && step.ConfirmStep?
    requires preview.PreviewStep? && Apply(Outcome(x, steps), preview) != Outcome(x, steps) && step.preview == |Outcome(x, steps).previews|
    requires Confirmed(Outcome(Apply(Outcome(x, steps), preview), more), step).Ok?
    ensures var before := Outcome(Apply(Outcome(x, steps), preview), more);
            && AccountFor(before.work, x.budget.currency).Ok?
            && var now, p := AccountFor(before.work, x.budget.currency).value.usage, before.previews[step.preview];
               && now == p.accounted.usage
               && now.tokens + AgentTokens(p.nodes, p.reused) <= x.budget.tokens
               && now.cost + AgentCost(p.nodes, p.reused) <= x.budget.cost
  {
    var made := Apply(Outcome(x, steps), preview);
    BudgetHoldsOverAllRounds(x, steps);
    EveryRunCountsRightly(x, steps);
    StepFits(Outcome(x, steps), preview);
    StepCountsRightly(Outcome(x, steps), preview);
    PreviewsStay(made, more, step.preview);
    ConfirmedRoundFitsTheBudget(made, more, step);
    LaterIsEmpty(Outcome(made, more).work, made.previews[step.preview]);
  }

  lemma LaterIsEmpty(w: Work, p: Preview)
    requires p.counted == AttemptsSoFar(w)
    ensures Later(w, p) == []
  {
  }

  lemma ConfirmingFits(x: Project, step: Step)
    requires ProjectOk(x) && step.ConfirmStep? && Confirmed(x, step).Ok?
    ensures ProjectOk(Apply(x, step))
  {
    assert PreviewFits(x.previews[step.preview], x.budget);
  }

  lemma StepFits(x: Project, step: Step)
    requires ProjectOk(x)
    ensures ProjectOk(Apply(x, step)) && Apply(x, step).budget == x.budget
  {
    if Apply(x, step) != x {
      match step
      case PreviewStep(goal, nodes, reused, plan, policy, now) => RoundFitsTheBudget(x.work, goal, x.budget, nodes, reused, plan, policy, now);
      case ConfirmStep(_, _, _, _, _) => ConfirmingFits(x, step);
      case AdmitStep(budget, policy, refused) => AdmittingFits(x.work.group, budget, policy, refused);
      case SettleStep(i, usage, refused) => SettlingFits(x.work.group, i, usage, refused);
    }
  }

  /**
   Over any number of rounds, previews and attempts: the first execution's usage, the settled usage and the open
   reservations together exceed the goal's budget by no more than what single attempts used beyond their own budgets.
   */
  lemma {:induction false} BudgetHoldsOverAllRounds(x: Project, steps: seq<Step>)
    requires ProjectOk(x)
    ensures ProjectOk(Outcome(x, steps)) && Outcome(x, steps).budget == x.budget
    ensures var w := Outcome(x, steps).work;
            w.Grouped? ==>
              && CommittedTokens(w.group) <= x.budget.tokens + OverrunTokens(w.group.attempts)
              && CommittedCost(w.group) <= x.budget.cost + OverrunCost(w.group.attempts)
  {
    if steps != [] {
      BudgetHoldsOverAllRounds(x, steps[..|steps| - 1]);
      StepFits(Outcome(x, steps[..|steps| - 1]), steps[|steps| - 1]);
    }
  }

  // ---------------------------------------------------------------- the two forms of a first execution

  predicate Imported(x: Project) { x.work.Grouped? && x.work.group.initial.Some? && x.work.group.initial.value.currency == x.budget.currency == x.work.group.cap.currency }

  /** The same project, had its first execution been an attempt of a one-node run of the group instead of an import. */
  function AsAttempt(x: Project, first: Node): Project
    requires Imported(x) && first.isAgent
  {
    var g := x.work.group;
    x.(work := Grouped(g.(initial := None, runs := [RunRecord([first], {})] + g.runs, attempts := [Attempt(g.cap, g.initial)] + g.attempts)))
  }

  function Shifted(step: Step): Step { if step.SettleStep? then step.(attempt := step.attempt + 1) else step }

  function ShiftedAll(steps: seq<Step>): seq<Step> {
    if steps == [] then [] else ShiftedAll(steps[..|steps| - 1]) + [Shifted(steps[|steps| - 1])]
  }

  lemma {:induction false} FirstIsSpent(first: Usage, budget: Usage, attempts: seq<Attempt>)
    ensures Spent(Usage(first.currency, 0, 0), [Attempt(budget, Some(first))] + attempts) == Spent(first, attempts)
    ensures HeldTokens([Attempt(budget, Some(first))] + attempts) == first.tokens + HeldTokens(attempts)
    ensures HeldCost([Attempt(budget, Some(first))] + attempts) == first.cost + HeldCost(attempts)
  {
    var all := [Attempt(budget, Some(first))] + attempts;
    if attempts == [] {
      assert all[..0] == [] && all[0] == Attempt(budget, Some(first));
      assert Spent(Usage(first.currency, 0, 0), all[..0]) == Usage(first.currency, 0, 0);
    } else {
      var front := attempts[..|attempts| - 1];
      FirstIsSpent(first, budget, front);
      assert all[..|all| - 1] == [Attempt(budget, Some(first))] + front && all[|all| - 1] == attempts[|attempts| - 1];
    }
  }

  lemma FirstIsKnown(a: Attempt, attempts: seq<Attempt>, currency: string)
    requires AttemptKnown(a, currency)
    ensures AllKnown([a] + attempts, currency) <==> AllKnown(attempts, currency)
  {
    var all := [a] + attempts;
    assert forall i :: 0 <= i < |attempts| ==> all[i + 1] == attempts[i];
    if AllKnown(attempts, currency) {
      forall i | 0 <= i < |all| ensures AttemptKnown(all[i], currency) {
        assert i > 0 ==> all[i] == attempts[i - 1];
      }
    }
  }

  lemma {:induction false} FirstIsCounted(first: Node, runs: seq<RunRecord>)
    ensures RunNodes([RunRecord([first], {})] + runs) == 1 + RunNodes(runs)
  {
    var all := [RunRecord([first], {})] + runs;
    if runs == [] {
      assert all[..0] == [] && [first][..0] == [];
      assert FreshNodes([first], {}) == 1;
    } else {
      FirstIsCounted(first, runs[..|runs| - 1]);
      assert all[..|all| - 1] == [RunRecord([first], {})] + runs[..|runs| - 1];
    }
  }

  /** Both forms count the same usage, nodes and attempts, so every preview and confirmation decides alike. */
  lemma FormsCountAlike(x: Project, first: Node)
    requires Imported(x) && first.isAgent
    ensures var a, b := x.work, AsAttempt(x, first).work;
            && AccountFor(a, x.budget.currency) == AccountFor(b, x.budget.currency)
            && NodesSoFar(a) == NodesSoFar(b) && AttemptsSoFar(a) == AttemptsSoFar(b)
            && CommittedTokens(a.group) == CommittedTokens(b.group) && CommittedCost(a.group) == CommittedCost(b.group)
            && GroupLimits(a) == GroupLimits(b)
  {
    var g := x.work.group;
    FirstIsSpent(g.initial.value, g.cap, g.attempts);
    FirstIsKnown(Attempt(g.cap, g.initial), g.attempts, x.budget.currency);
    FirstIsCounted(first, g.runs);
  }

  lemma AdmissionsAgree(x: Project, first: Node, step: Step)
    requires Imported(x) && first.isAgent && step.AdmitStep?
    ensures Imported(Apply(x, step)) && AsAttempt(Apply(x, step), first) == Apply(AsAttempt(x, first), step)
  {
    FormsCountAlike(x, first);
    var g := x.work.group;
    var a := Attempt(step.budget, None);
    assert [Attempt(g.cap, g.initial)] + (g.attempts + [a]) == ([Attempt(g.cap, g.initial)] + g.attempts) + [a];
  }

  lemma SettlementsAgree(x: Project, first: Node, step: Step)
    requires Imported(x) && first.isAgent && step.SettleStep?
    ensures Imported(Apply(x, step)) && AsAttempt(Apply(x, step), first) == Apply(AsAttempt(x, first), Shifted(step))
  {
    var g, i := x.work.group, step.attempt;
    var all := [Attempt(g.cap, g.initial)] + g.attempts;
    if i < |g.attempts| {
      var a := g.attempts[i].(usage := Some(step.usage));
      assert all[i + 1] == g.attempts[i];
      assert [Attempt(g.cap, g.initial)] + g.attempts[i := a] == all[i + 1 := a];
    }
  }

  lemma ConfirmationsAgree(x: Project, first: Node, step: Step)
    requires Imported(x) && first.isAgent && step.ConfirmStep?
    ensures Imported(Apply(x, step)) && AsAttempt(Apply(x, step), first) == Apply(AsAttempt(x, first), step)
  {
    FormsCountAlike(x, first);
    if Confirmed(x, step).Ok? {
      var g, p := x.work.group, x.previews[step.preview];
      var one, run := [RunRecord([first], {})], [RunRecord(p.nodes, p.reused)];
      assert one + (g.runs + run) == (one + g.runs) + run;
    }
  }

  lemma StepsAgree(x: Project, first: Node, step: Step)
    requires Imported(x) && first.isAgent
    ensures Imported(Apply(x, step)) && AsAttempt(Apply(x, step), first) == Apply(AsAttempt(x, first), Shifted(step))
  {
    match step
    case PreviewStep(_, _, _, _, _, _) => FormsCountAlike(x, first);
    case ConfirmStep(_, _, _, _, _) => ConfirmationsAgree(x, first, step);
    case AdmitStep(_, _, _) => AdmissionsAgree(x, first, step);
    case SettleStep(_, _, _) => SettlementsAgree(x, first, step);
  }

  /**
   An imported first execution counts exactly like a first attempt of the group: over any run, whatever is previewed,
   confirmed, admitted and settled, both forms take the same decisions and stay each other's image.
   */
  lemma {:induction false} FormsAgree(x: Project, first: Node, steps: seq<Step>)
    requires Imported(x) && first.isAgent
    ensures Imported(Outcome(x, steps)) && AsAttempt(Outcome(x, steps), first) == Outcome(AsAttempt(x, first), ShiftedAll(steps))
  {
    if steps != [] {
      var front := steps[..|steps| - 1];
      FormsAgree(x, first, front);
      StepsAgree(Outcome(x, front), first, steps[|steps| - 1]);
      assert ShiftedAll(steps)[..|ShiftedAll(steps)| - 1] == ShiftedAll(front);
    }
  }
}
