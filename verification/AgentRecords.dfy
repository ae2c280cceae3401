/** Plans, outcomes and budget ledgers of one Agent session.
    Content digests are injective, so an identifier that is the digest of a value is represented
    by the value itself: a `RunPlan` is its own plan id. */
module AgentRecords {
  import opened Options

  /** Instants, in microseconds. */
  type Time = int

  const MICROSECONDS: int := 1_000_000

  /** `int(seconds)`: truncation toward zero. */
  function WholeSeconds(duration: int): int {
    if duration >= 0 then duration / MICROSECONDS else -(-duration / MICROSECONDS)
  }

  function Min(a: int, b: int): int { if a <= b then a else b }
  function Max(a: int, b: int): int { if a >= b then a else b }

  /******* Runs *******/

  datatype Budget = Budget(wallSeconds: nat, modelTokens: nat, toolCalls: nat)

  /** `authority` stands for the engagement, target, scope, policy and profile bindings. */
  datatype Task = Task(
    taskId: nat, authority: string, allowedTools: set<string>, budget: Budget, deadline: Time)

  /** `timeout` is in microseconds. */
  datatype RunLimits = RunLimits(maxSteps: nat, maxOutputTokensPerStep: nat, timeout: int)
  {
    predicate Valid() {
      1 <= maxSteps <= 8 && 0 < maxOutputTokensPerStep <= 65_536 && timeout > 0
    }
  }

  datatype RunPlan = RunPlan(
    task: Task, limits: RunLimits, callSet: Option<seq<CallOption>>, createdAt: Time, deadline: Time, key: string)

  /** What the call commitment covers: everything but the call's identity and key. */
  datatype Commitment = Commitment(task: Task, toolId: string, request: string)

  datatype BrokerCall = BrokerCall(task: Task, toolId: string, request: string, callId: nat, key: string)
  {
    function Commit(): Commitment {
      Commitment(task, toolId, request)
    }

    /** The intent an Agent has to propose for this call to be the one it meant. */
    function Intent(): ToolIntent {
      ToolIntent(toolId, [CommitmentArgument(Commit())], "source")
    }
  }

  /** An intent stands for the task, tool and request of a call, whatever its identity, and works in the sources. */
  lemma IntentsMatchExactly(a: BrokerCall, b: BrokerCall)
    ensures a.Intent() == b.Intent() <==> a.task == b.task && a.toolId == b.toolId && a.request == b.request
    ensures a.Commit() == b.Commit() <==> a.Intent() == b.Intent()
    ensures a.Intent().toolId == a.toolId && a.Intent().workingDirectory == "source"
  {
    assert a.Intent().arguments[0] == b.Intent().arguments[0] <==> a.Commit() == b.Commit();
  }

  datatype CallOption = CallOption(commitment: Commitment, call: BrokerCall)

  datatype Argument = CommitmentArgument(commitment: Commitment) | TextArgument(text: string)

  datatype ToolIntent = ToolIntent(toolId: string, arguments: seq<Argument>, workingDirectory: string)

  datatype RunStatus = ToolProposed | RunCompleted | RunBlocked | RunFailed | RunTimedOut

  datatype RunOutcome = RunOutcome(
    planId: RunPlan, taskId: nat, status: RunStatus, steps: nat, inputTokens: nat, outputTokens: nat,
    intent: Option<ToolIntent>, summary: Option<string>, errors: seq<string>, completedAt: Time)
  {
    function Tokens(): nat { inputTokens + outputTokens }

    /** A proposal carries an intent, a decision a summary, a failure only error codes. */
    predicate WellShaped() {
      match status
      case ToolProposed => intent.Some? && summary.None? && errors == []
      case RunCompleted => intent.None? && summary.Some? && errors == []
      case RunBlocked => intent.None? && summary.Some? && errors == []
      case _ => intent.None? && summary.None? && errors != []
    }
  }

  predicate Failed(status: RunStatus) {
    status.RunFailed? || status.RunTimedOut?
  }

  /** What the runtime leaves in the run ledger for a plan. */
  ghost predicate RunResultOk(plan: RunPlan, o: RunOutcome) {
    && o.planId == plan && o.taskId == plan.task.taskId
    && 1 <= o.steps <= plan.limits.maxSteps
    && o.WellShaped()
    && (!Failed(o.status) ==> o.Tokens() <= plan.task.budget.modelTokens)
    && (o.status.ToolProposed? ==> plan.task.budget.toolCalls >= 1 && o.intent.value.toolId in plan.task.allowedTools)
  }

  /******* Tool handoffs *******/

  datatype HandoffPlan = HandoffPlan(
    agentPlan: RunPlan, agentOutcomeDigest: RunOutcome, call: BrokerCall, attempt: nat,
    previous: Option<HandoffPlan>, timeout: int, createdAt: Time, deadline: Time, key: string)
  {
    predicate WellShaped() {
      && call.task == agentPlan.task
      && call.toolId in agentPlan.task.allowedTools
      && 1 <= attempt <= 2
      && (attempt == 1 <==> previous.None?)
      && createdAt < deadline <= agentPlan.task.deadline
    }
  }

  datatype BrokerStatus = Completed | Denied | ApprovalRequired | TimedOut | Failed_

  datatype BrokerResult = BrokerResult(
    callDigest: BrokerCall, status: BrokerStatus, toolCallsUsed: nat, evidenceRefs: set<string>)

  /** What a Broker guarantees about a call made under a tool budget. */
  predicate BrokerResultOk(budget: nat, r: BrokerResult) {
    && r.toolCallsUsed <= budget
    && (r.status.Completed? ==> r.toolCallsUsed >= 1 && r.evidenceRefs != {})
    && (r.status.ApprovalRequired? ==> r.toolCallsUsed < budget)
  }

  datatype Observation = Observation(handoffId: HandoffPlan, result: BrokerResult, observedAt: Time)

  datatype HandoffOutcome = HandoffOutcome(
    handoffId: HandoffPlan, agentPlanId: RunPlan, agentOutcomeDigest: RunOutcome, callDigest: BrokerCall,
    attempt: nat, status: BrokerStatus, result: BrokerResult, observation: Option<Observation>, completedAt: Time)

  ghost predicate HandoffResultOk(h: HandoffPlan, o: HandoffOutcome) {
    && o.handoffId == h && o.agentPlanId == h.agentPlan && o.agentOutcomeDigest == h.agentOutcomeDigest
    && o.callDigest == h.call && o.attempt == h.attempt
    && o.status == o.result.status && o.result.callDigest == h.call
    && (o.status.Completed? <==> o.observation.Some?)
    && (o.observation.Some? ==> o.observation.value == Observation(h, o.result, o.completedAt))
    && BrokerResultOk(h.agentPlan.task.budget.toolCalls, o.result)
  }

  /******* Continuations *******/

  datatype ContinuationPlan = ContinuationPlan(
    rootPlan: RunPlan, rootOutcome: RunOutcome, handoff: HandoffOutcome, observationId: Observation,
    plan: RunPlan, budget: ContinuationBudget, createdAt: Time, deadline: Time, key: string)
  {
    /** The validator every plan passes when it is made and at the boundary. */
    predicate WellShaped() {
      && rootOutcome.planId == rootPlan && rootOutcome.taskId == rootPlan.task.taskId
      && rootOutcome.status.ToolProposed? && rootOutcome.intent.Some?
      && handoff.status.Completed? && handoff.observation == Some(observationId)
      && handoff.agentPlanId == rootPlan && handoff.agentOutcomeDigest == rootOutcome
      && plan.task.authority == rootPlan.task.authority && plan.task.deadline == rootPlan.task.deadline
      && plan.task.taskId != rootPlan.task.taskId
      && plan.task.allowedTools == {} && plan.task.budget.toolCalls == 0
      && budget.Valid()
      && budget.originalModelTokens == rootPlan.task.budget.modelTokens
      && budget.consumedModelTokens == rootOutcome.Tokens()
      && budget.consumedAgentSteps == rootOutcome.steps
      && budget.consumedToolCalls == handoff.result.toolCallsUsed <= rootPlan.task.budget.toolCalls
      && plan.task.budget.modelTokens == budget.remainingModelTokens
      && plan.task.budget.wallSeconds == budget.remainingWallSeconds <= rootPlan.task.budget.wallSeconds
      && budget.remainingWallSeconds <= WholeSeconds(Min(rootPlan.deadline, rootPlan.task.deadline) - createdAt)
      && plan.limits.maxSteps == 1 && plan.limits.timeout <= budget.remainingWallSeconds * MICROSECONDS
      && plan.deadline == rootPlan.deadline == deadline && plan.createdAt == createdAt < deadline
    }
  }

  datatype ContinuationBudget = ContinuationBudget(
    originalModelTokens: int, consumedModelTokens: int, remainingModelTokens: int,
    consumedAgentSteps: int, consumedToolCalls: int, remainingWallSeconds: int)
  {
    predicate Valid() {
      && originalModelTokens > 0 && consumedModelTokens >= 0 && remainingModelTokens > 0
      && 1 <= consumedAgentSteps <= 8 && consumedToolCalls >= 1
      && 0 < remainingWallSeconds <= 86_400
      && consumedModelTokens < originalModelTokens
      && remainingModelTokens == originalModelTokens - consumedModelTokens
    }
  }

  datatype ContinuationOutcome = ContinuationOutcome(
    continuationId: ContinuationPlan, rootPlanId: RunPlan, observationId: Observation, continuationPlanId: RunPlan,
    status: RunStatus, agentOutcome: RunOutcome, completedAt: Time)

  /** The continuation plan made at `now` for a completed handoff, if there is budget left for one and
      its context is `assembled`. */
  function PrepareContinuation(rootPlan: RunPlan, rootOutcome: RunOutcome, handoff: HandoffOutcome, now: Time,
                               key: string, runKey: string, taskId: nat, assembled: bool): Option<ContinuationPlan>
  {
    var deadline := Min(rootPlan.deadline, rootPlan.task.deadline);
    var remainingWall := Min(rootPlan.task.budget.wallSeconds, WholeSeconds(deadline - now));
    var consumed := rootOutcome.Tokens();
    var remaining := rootPlan.task.budget.modelTokens - consumed;
    if remainingWall <= 0 || now >= deadline || remaining <= 0
       || handoff.observation.None? || handoff.result.toolCallsUsed < 1 || !assembled then None
    else
      var task := Task(taskId, rootPlan.task.authority, {},
                       Budget(remainingWall, remaining, 0), rootPlan.task.deadline);
      var limits := RunLimits(1, Min(rootPlan.limits.maxOutputTokensPerStep, remaining),
                              Min(rootPlan.limits.timeout, remainingWall * MICROSECONDS));
      var plan := RunPlan(task, limits, None, now, rootPlan.deadline, runKey);
      var budget := ContinuationBudget(rootPlan.task.budget.modelTokens, consumed, remaining,
                                       rootOutcome.steps, handoff.result.toolCallsUsed, remainingWall);
      var continuation := ContinuationPlan(rootPlan, rootOutcome, handoff, handoff.observation.value, plan, budget,
                                           now, rootPlan.deadline, key);
      if continuation.WellShaped() then Some(continuation) else None
  }

  ghost predicate ContinuationResultOk(c: ContinuationPlan, o: ContinuationOutcome) {
    && o.continuationId == c && o.rootPlanId == c.rootPlan && o.observationId == c.observationId
    && o.continuationPlanId == c.plan
    && o.status == o.agentOutcome.status
    && RunResultOk(c.plan, o.agentOutcome)
  }

  /******* Sessions *******/

  datatype SessionBudget = SessionBudget(
    originalModelTokens: int, originalToolCalls: int, consumedModelTokens: int, remainingModelTokens: int,
    consumedAgentSteps: int, consumedToolCalls: int, remainingToolCalls: int,
    providerAttempts: int, brokerAttempts: int, remainingWallSeconds: int)
  {
    predicate Valid() {
      && originalModelTokens > 0 && originalToolCalls == 2
      && consumedModelTokens >= 0 && remainingModelTokens >= 0
      && 1 <= consumedAgentSteps <= 24 && 1 <= consumedToolCalls <= 2 && remainingToolCalls >= 0
      && 1 <= providerAttempts <= 3 && 1 <= brokerAttempts <= 3
      && 0 <= remainingWallSeconds <= 86_400
      && consumedModelTokens <= originalModelTokens
      && remainingModelTokens == originalModelTokens - consumedModelTokens
      && consumedToolCalls <= originalToolCalls
      && remainingToolCalls == originalToolCalls - consumedToolCalls
    }
  }

  datatype SessionPlan = SessionPlan(
    rootPlan: RunPlan, rootOutcome: RunOutcome, firstHandoff: HandoffOutcome, firstObservationId: Observation,
    roundPlan: RunPlan, options: seq<CallOption>, budget: SessionBudget,
    createdAt: Time, deadline: Time, key: string)
  {
    /** The validator every plan passes at the boundary. */
    ghost predicate Valid() {
      && rootOutcome.status.ToolProposed? && rootOutcome.planId == rootPlan && rootOutcome.intent.Some?
      && firstHandoff.status.Completed? && firstHandoff.observation == Some(firstObservationId)
      && firstHandoff.agentPlanId == rootPlan && firstHandoff.agentOutcomeDigest == rootOutcome
      && roundPlan.task.authority == rootPlan.task.authority
      && roundPlan.task.taskId != rootPlan.task.taskId
      && roundPlan.task.deadline == rootPlan.task.deadline
      && roundPlan.task.budget.toolCalls == 1
      && roundPlan.callSet == Some(options)
      && 1 <= |options| <= 8
      && (forall i :: 0 <= i < |options| ==> OptionOk(options[i]))
      && DistinctCommitments(options)
      && !RepeatsIntent(options, rootOutcome.intent)
      && budget.Valid()
      && budget.originalModelTokens == rootPlan.task.budget.modelTokens
      && budget.originalToolCalls == rootPlan.task.budget.toolCalls
      && budget.consumedModelTokens == rootOutcome.Tokens()
      && budget.remainingModelTokens == roundPlan.task.budget.modelTokens
      && budget.consumedAgentSteps == rootOutcome.steps
      && budget.consumedToolCalls == firstHandoff.result.toolCallsUsed
      && budget.remainingToolCalls >= 1
      && budget.providerAttempts == 1 && budget.brokerAttempts == 1
      && budget.remainingWallSeconds == roundPlan.task.budget.wallSeconds
      && roundPlan.limits.maxSteps == 1
      && roundPlan.deadline == deadline == Min(rootPlan.deadline, rootPlan.task.deadline)
      && roundPlan.createdAt == createdAt < deadline
    }

    ghost predicate OptionOk(option: CallOption) {
      && option.commitment == option.call.Commit()
      && option.call.task == roundPlan.task
      && option.call.toolId in roundPlan.task.allowedTools
    }
  }

  predicate DistinctCommitments(options: seq<CallOption>) {
    forall i, j :: 0 <= i < j < |options| ==> options[i].commitment != options[j].commitment
  }

  /** Some option is the call the first round already made. */
  predicate RepeatsIntent(options: seq<CallOption>, intent: Option<ToolIntent>) {
    exists i :: 0 <= i < |options| && Some(options[i].call.Intent()) == intent
  }

  /** The call a template stands for in a task. */
  function CallOf(task: Task, template: (string, string, string), callId: nat): BrokerCall {
    BrokerCall(task, template.0, template.1, callId, template.2)
  }

  function OptionsOf(task: Task, templates: seq<(string, string, string)>, callId: nat): seq<CallOption> {
    seq(|templates|, i requires 0 <= i < |templates| =>
      CallOption(CallOf(task, templates[i], callId + i).Commit(), CallOf(task, templates[i], callId + i)))
  }

  /** The plan `prepare` seals at `now`: what is left of the root run's budget becomes the second round's.
      The Broker `accepts` the calls it validates. */
  function PrepareSession(rootPlan: RunPlan, rootOutcome: RunOutcome, firstHandoff: HandoffOutcome,
                          templates: seq<(string, string, string)>, now: Time, key: string, runKey: string,
                          taskId: nat, callId: nat, accepts: BrokerCall -> bool, assembled: bool): Option<SessionPlan>
  {
    var deadline := Min(rootPlan.deadline, rootPlan.task.deadline);
    var remainingWall := Min(rootPlan.task.budget.wallSeconds, WholeSeconds(deadline - now));
    var consumed := rootOutcome.Tokens();
    var remaining := rootPlan.task.budget.modelTokens - consumed;
    var consumedTools := firstHandoff.result.toolCallsUsed;
    if !(1 <= |templates| <= 8) || firstHandoff.observation.None? || now >= deadline || remainingWall <= 0
       || remaining <= 0 || rootPlan.task.budget.toolCalls != 2 || consumedTools != 1 then None
    else
      var task := Task(taskId, rootPlan.task.authority, set t | t in templates :: t.0,
                       Budget(remainingWall, remaining, 1), rootPlan.task.deadline);
      var options := OptionsOf(task, templates, callId);
      if taskId == rootPlan.task.taskId || RepeatsIntent(options, rootOutcome.intent)
         || !DistinctCommitments(options)
         || (exists i :: 0 <= i < |options| && !accepts(options[i].call)) || !assembled then None
      else
        var limits := RunLimits(1, Min(rootPlan.limits.maxOutputTokensPerStep, remaining),
                                Min(rootPlan.limits.timeout, remainingWall * MICROSECONDS));
        var round := RunPlan(task, limits, Some(options), now, deadline, runKey);
        var budget := SessionBudget(rootPlan.task.budget.modelTokens, rootPlan.task.budget.toolCalls,
                                    consumed, remaining, rootOutcome.steps, consumedTools,
                                    rootPlan.task.budget.toolCalls - consumedTools, 1, 1, remainingWall);
        if budget.Valid() then
          Some(SessionPlan(rootPlan, rootOutcome, firstHandoff, firstHandoff.observation.value, round, options,
                           budget, now, deadline, key))
        else None
  }

  /** An authoritative root run and first handoff always prepare into a valid plan. */
  lemma PreparedSessionIsValid(rootPlan: RunPlan, rootOutcome: RunOutcome, firstHandoff: HandoffOutcome,
                               templates: seq<(string, string, string)>, now: Time, key: string, runKey: string,
                               taskId: nat, callId: nat, accepts: BrokerCall -> bool, assembled: bool)
    requires RunResultOk(rootPlan, rootOutcome) && rootOutcome.status.ToolProposed?
    requires HandoffResultOk(firstHandoff.handoffId, firstHandoff) && firstHandoff.status.Completed?
    requires firstHandoff.agentPlanId == rootPlan && firstHandoff.agentOutcomeDigest == rootOutcome
    ensures var plan := PrepareSession(rootPlan, rootOutcome, firstHandoff, templates, now, key, runKey, taskId, callId,
                                       accepts, assembled);
            plan.Some? ==>
              && plan.value.Valid()
              && plan.value.roundPlan.task.budget.wallSeconds <= rootPlan.task.budget.wallSeconds
  {
  }

  /** A plan made for what is left of a run: its authority and deadline, no more output or time than the run
      had, and no more than is left. */
  ghost predicate TakesOver(root: RunPlan, plan: RunPlan, now: Time, key: string, taskId: nat, deadline: Time) {
    && plan.key == key && plan.createdAt == now && plan.deadline == deadline
    && plan.task.taskId == taskId && plan.task.authority == root.task.authority && plan.task.deadline == root.task.deadline
    && (plan.task.budget.wallSeconds == root.task.budget.wallSeconds
        || (plan.task.budget.wallSeconds < root.task.budget.wallSeconds
            && var end := if root.deadline <= root.task.deadline then root.deadline else root.task.deadline;
               now + plan.task.budget.wallSeconds * MICROSECONDS <= end
               < now + (plan.task.budget.wallSeconds + 1) * MICROSECONDS))
    && now + plan.task.budget.wallSeconds * MICROSECONDS <= root.deadline
    && now + plan.task.budget.wallSeconds * MICROSECONDS <= root.task.deadline
    && IsLeast(plan.limits.maxOutputTokensPerStep, root.limits.maxOutputTokensPerStep, plan.task.budget.modelTokens)
    && IsLeast(plan.limits.timeout, root.limits.timeout, plan.task.budget.wallSeconds * MICROSECONDS)
    && plan.limits.maxSteps == 1
  }

  predicate IsLeast(least: int, a: int, b: int) {
    (least == a && a <= b) || (least == b && b <= a)
  }

  /** The wall time taken over is what the root had, or the whole seconds that are left. */
  lemma WallIsWhatIsLeft(had: int, left: int)
    requires Min(had, WholeSeconds(left)) > 0
    ensures var wall := Min(had, WholeSeconds(left));
            && wall * MICROSECONDS <= left
            && (wall == had || (wall < had && left < (wall + 1) * MICROSECONDS))
  {
  }

  /** What a prepared session holds: the root's records, a round that takes over what is left with one tool call,
      and one option for each template. */
  lemma PreparedSessionHolds(rootPlan: RunPlan, rootOutcome: RunOutcome, firstHandoff: HandoffOutcome,
                             templates: seq<(string, string, string)>, now: Time, key: string, runKey: string,
                             taskId: nat, callId: nat, accepts: BrokerCall -> bool, assembled: bool)
    requires rootPlan.limits.Valid()
    ensures var prepared := PrepareSession(rootPlan, rootOutcome, firstHandoff, templates, now, key, runKey, taskId, callId,
                                           accepts, assembled);
            prepared.Some? ==>
              var plan := prepared.value;
              && plan.rootPlan == rootPlan && plan.rootOutcome == rootOutcome && plan.firstHandoff == firstHandoff
              && Some(plan.firstObservationId) == firstHandoff.observation
              && plan.key == key && plan.createdAt == now && plan.deadline == plan.roundPlan.deadline
              && TakesOver(rootPlan, plan.roundPlan, now, runKey, taskId,
                           if rootPlan.deadline <= rootPlan.task.deadline then rootPlan.deadline else rootPlan.task.deadline)
              && plan.roundPlan.task.budget.modelTokens + rootOutcome.inputTokens + rootOutcome.outputTokens
                 == rootPlan.task.budget.modelTokens
              && plan.roundPlan.task.budget.toolCalls == 1
              && (forall tool :: tool in plan.roundPlan.task.allowedTools <==> exists t :: t in templates && t.0 == tool)
              && plan.roundPlan.callSet == Some(plan.options) && |plan.options| == |templates|
              && forall i :: 0 <= i < |templates| ==>
                   plan.options[i].call
                   == BrokerCall(plan.roundPlan.task, templates[i].0, templates[i].1, callId + i, templates[i].2)
  {
    hide RepeatsIntent, BrokerCall.Intent, SessionBudget.Valid;
    var prepared := PrepareSession(rootPlan, rootOutcome, firstHandoff, templates, now, key, runKey, taskId, callId,
                                   accepts, assembled);
    if prepared.Some? {
      var plan := prepared.value;
      var tools := plan.roundPlan.task.allowedTools;
      assert tools == set t | t in templates :: t.0;
      forall tool ensures tool in tools <==> exists t :: t in templates && t.0 == tool {
        if t :| t in templates && t.0 == tool {
          assert t.0 in tools;
        }
      }
      WallIsWhatIsLeft(rootPlan.task.budget.wallSeconds, Min(rootPlan.deadline, rootPlan.task.deadline) - now);
      hide WholeSeconds;
      assert plan.roundPlan.limits
          == RunLimits(1, Min(rootPlan.limits.maxOutputTokensPerStep, plan.roundPlan.task.budget.modelTokens),
                       Min(rootPlan.limits.timeout, plan.roundPlan.task.budget.wallSeconds * MICROSECONDS));
      assert TakesOver(rootPlan, plan.roundPlan, now, runKey, taskId,
                       if rootPlan.deadline <= rootPlan.task.deadline then rootPlan.deadline else rootPlan.task.deadline);
      assert plan.options == OptionsOf(plan.roundPlan.task, templates, callId);
      forall i | 0 <= i < |templates|
        ensures plan.options[i].call
             == BrokerCall(plan.roundPlan.task, templates[i].0, templates[i].1, callId + i, templates[i].2)
      {
        assert plan.options[i].call == CallOf(plan.roundPlan.task, templates[i], callId + i);
      }
    }
  }

  /** The options' commitments are distinct exactly if no two templates ask for the same. */
  predicate DistinctRequests(templates: seq<(string, string, string)>) {
    forall i, j :: 0 <= i < j < |templates| ==> (templates[i].0, templates[i].1) != (templates[j].0, templates[j].1)
  }

  /** The check against repeating the first tool commitment cannot fire on authoritative inputs: a
      commitment covers the task, and the round's task is never the root's. */
  lemma RepeatCheckNeverFires(rootOutcome: RunOutcome, first: BrokerCall, options: seq<CallOption>)
    requires rootOutcome.intent == Some(first.Intent())
    requires forall i :: 0 <= i < |options| ==> options[i].call.task.taskId != first.task.taskId
    ensures !RepeatsIntent(options, rootOutcome.intent)
  {
    forall i | 0 <= i < |options| ensures Some(options[i].call.Intent()) != rootOutcome.intent {
      assert options[i].call.Intent().arguments[0] != first.Intent().arguments[0];
    }
  }

  /** When preparing a session succeeds. No condition keeps a template from asking for what the first call
      already did. */
  lemma PreparesExactlyWhen(rootPlan: RunPlan, rootOutcome: RunOutcome, firstHandoff: HandoffOutcome,
                            templates: seq<(string, string, string)>, now: Time, key: string, runKey: string,
                            taskId: nat, callId: nat, accepts: BrokerCall -> bool, assembled: bool)
    requires RunResultOk(rootPlan, rootOutcome) && rootOutcome.status.ToolProposed?
    requires HandoffResultOk(firstHandoff.handoffId, firstHandoff) && firstHandoff.status.Completed?
    requires rootPlan.limits.Valid() && 1 <= rootPlan.task.budget.wallSeconds <= 86_400
    requires firstHandoff.callDigest.task == rootPlan.task && rootOutcome.intent == Some(firstHandoff.callDigest.Intent())
    ensures PrepareSession(rootPlan, rootOutcome, firstHandoff, templates, now, key, runKey, taskId, callId, accepts,
                           assembled).Some? <==>
      && 1 <= |templates| <= 8 && DistinctRequests(templates)
      && WholeSeconds(Min(rootPlan.deadline, rootPlan.task.deadline) - now) >= 1
      && rootOutcome.Tokens() < rootPlan.task.budget.modelTokens
      && rootPlan.task.budget.toolCalls == 2 && firstHandoff.result.toolCallsUsed == 1
      && taskId != rootPlan.task.taskId && assembled
      && var task := Task(taskId, rootPlan.task.authority, set t | t in templates :: t.0,
                          Budget(Min(rootPlan.task.budget.wallSeconds,
                                     WholeSeconds(Min(rootPlan.deadline, rootPlan.task.deadline) - now)),
                                 rootPlan.task.budget.modelTokens - rootOutcome.Tokens(), 1), rootPlan.task.deadline);
         forall i :: 0 <= i < |templates| ==> accepts(CallOf(task, templates[i], callId + i))
  {
    hide RepeatsIntent, BrokerCall.Intent;
    var wall := Min(rootPlan.task.budget.wallSeconds,
                    WholeSeconds(Min(rootPlan.deadline, rootPlan.task.deadline) - now));
    var remaining := rootPlan.task.budget.modelTokens - rootOutcome.Tokens();
    if wall >= 1 && remaining >= 1 && taskId != rootPlan.task.taskId {
      var task := Task(taskId, rootPlan.task.authority, set t | t in templates :: t.0,
                       Budget(wall, remaining, 1), rootPlan.task.deadline);
      var options := OptionsOf(task, templates, callId);
      RepeatCheckNeverFires(rootOutcome, firstHandoff.callDigest, options);
      assert forall i :: 0 <= i < |templates| ==> options[i].call == CallOf(task, templates[i], callId + i);
      assert DistinctCommitments(options) <==> DistinctRequests(templates) by {
        assert forall i :: 0 <= i < |templates| ==>
            options[i].commitment == Commitment(task, templates[i].0, templates[i].1);
      }
    }
  }

  /** When preparing a continuation of an honest completed handoff succeeds, and that it takes over what is left. */
  lemma ContinuationPreparesExactlyWhen(rootPlan: RunPlan, rootOutcome: RunOutcome, handoff: HandoffOutcome, now: Time,
                                        key: string, runKey: string, taskId: nat, assembled: bool)
    requires RunResultOk(rootPlan, rootOutcome) && rootOutcome.status.ToolProposed?
    requires HandoffResultOk(handoff.handoffId, handoff) && handoff.status.Completed?
    requires handoff.handoffId.WellShaped() && handoff.agentPlanId == rootPlan && handoff.agentOutcomeDigest == rootOutcome
    requires rootPlan.limits.Valid() && 1 <= rootPlan.task.budget.wallSeconds <= 86_400
    ensures var c := PrepareContinuation(rootPlan, rootOutcome, handoff, now, key, runKey, taskId, assembled);
      && (c.Some? <==>
            && WholeSeconds(Min(rootPlan.deadline, rootPlan.task.deadline) - now) >= 1
            && rootOutcome.Tokens() < rootPlan.task.budget.modelTokens && taskId != rootPlan.task.taskId && assembled)
      && (c.Some? ==>
            var plan := c.value.plan;
            && plan.limits.Valid() && plan.limits.maxSteps == 1
            && plan.task.budget.toolCalls == 0 && plan.task.allowedTools == {}
            && plan.task.budget.modelTokens + rootOutcome.Tokens() == rootPlan.task.budget.modelTokens
            && 1 <= plan.task.budget.wallSeconds <= rootPlan.task.budget.wallSeconds
            && c.value.observationId == handoff.observation.value)
      && (c.Some? ==>
            && c.value.rootPlan == rootPlan && c.value.rootOutcome == rootOutcome && c.value.handoff == handoff
            && c.value.key == key && c.value.createdAt == now && c.value.deadline == rootPlan.deadline
            && var plan := c.value.plan;
               && TakesOver(rootPlan, plan, now, runKey, taskId, rootPlan.deadline) && plan.callSet == None)
  {
    var left := Min(rootPlan.deadline, rootPlan.task.deadline) - now;
    if Min(rootPlan.task.budget.wallSeconds, WholeSeconds(left)) > 0 {
      WallIsWhatIsLeft(rootPlan.task.budget.wallSeconds, left);
    }
  }

  /******* What the validators guarantee *******/

  /** A valid handoff is for a tool its run may use, within the run's task, and names a first attempt exactly if it is
      a second one. */
  lemma HandoffPlansAreBound(h: HandoffPlan)
    requires h.WellShaped()
    ensures h.call.task == h.agentPlan.task && h.call.toolId in h.agentPlan.task.allowedTools
    ensures h.attempt in {1, 2} && (h.previous != None <==> h.attempt == 2)
    ensures h.createdAt < h.deadline && h.deadline <= h.agentPlan.task.deadline
  {
  }

  /** A valid continuation continues one completed handoff of its root's proposal under a new task without tools,
      with exactly the tokens the root left, and no more wall time, steps or lifetime than the root had. */
  lemma ContinuationPlansAreBound(c: ContinuationPlan)
    requires c.WellShaped()
    ensures c.rootOutcome.planId == c.rootPlan && c.rootOutcome.taskId == c.rootPlan.task.taskId
    ensures c.rootOutcome.status == ToolProposed && c.rootOutcome.intent != None
    ensures c.handoff.status == Completed && c.handoff.observation == Some(c.observationId)
    ensures c.handoff.agentPlanId == c.rootPlan && c.handoff.agentOutcomeDigest == c.rootOutcome
    ensures c.plan.task.authority == c.rootPlan.task.authority && c.plan.task.deadline == c.rootPlan.task.deadline
    ensures c.plan.task.taskId != c.rootPlan.task.taskId
    ensures c.plan.task.allowedTools == {} && c.plan.task.budget.toolCalls == 0
    ensures c.plan.task.budget.modelTokens + c.rootOutcome.inputTokens + c.rootOutcome.outputTokens
         == c.rootPlan.task.budget.modelTokens == c.budget.originalModelTokens
    ensures c.budget.consumedAgentSteps == c.rootOutcome.steps <= 8
    ensures c.budget.consumedToolCalls == c.handoff.result.toolCallsUsed <= c.rootPlan.task.budget.toolCalls
    ensures c.plan.task.budget.wallSeconds == c.budget.remainingWallSeconds <= c.rootPlan.task.budget.wallSeconds
    ensures c.createdAt + c.plan.task.budget.wallSeconds * MICROSECONDS <= Min(c.rootPlan.deadline, c.rootPlan.task.deadline)
    ensures c.plan.limits.maxSteps == 1 && c.plan.limits.timeout <= c.plan.task.budget.wallSeconds * MICROSECONDS
    ensures c.plan.deadline == c.deadline == c.rootPlan.deadline && c.plan.createdAt == c.createdAt < c.deadline
  {
  }

  /** A valid session plan has one completed first handoff of its root's proposal, a round under a new task with one
      tool call and exactly the tokens the root left, and one to eight options of that round with different commitments. */
  lemma SessionPlansAreBound(plan: SessionPlan)
    requires plan.Valid()
    ensures plan.rootOutcome.status == ToolProposed && plan.rootOutcome.planId == plan.rootPlan && plan.rootOutcome.intent != None
    ensures plan.firstHandoff.status == Completed && plan.firstHandoff.observation == Some(plan.firstObservationId)
    ensures plan.firstHandoff.agentPlanId == plan.rootPlan && plan.firstHandoff.agentOutcomeDigest == plan.rootOutcome
    ensures plan.roundPlan.task.authority == plan.rootPlan.task.authority
    ensures plan.roundPlan.task.deadline == plan.rootPlan.task.deadline && plan.roundPlan.task.taskId != plan.rootPlan.task.taskId
    ensures plan.roundPlan.task.budget.toolCalls == 1 && plan.roundPlan.limits.maxSteps == 1
    ensures plan.roundPlan.callSet == Some(plan.options) && 1 <= |plan.options| <= 8
    ensures forall option :: option in plan.options ==>
              && option.call.task == plan.roundPlan.task && option.call.toolId in plan.roundPlan.task.allowedTools
              && option.commitment == Commitment(option.call.task, option.call.toolId, option.call.request)
              && plan.rootOutcome.intent != Some(option.call.Intent())
    ensures forall i, j :: 0 <= i < j < |plan.options| ==> plan.options[i].commitment != plan.options[j].commitment
    ensures plan.roundPlan.task.budget.modelTokens + plan.rootOutcome.inputTokens + plan.rootOutcome.outputTokens
         == plan.rootPlan.task.budget.modelTokens == plan.budget.originalModelTokens
    ensures plan.rootPlan.task.budget.toolCalls == plan.budget.originalToolCalls == 2 && plan.firstHandoff.result.toolCallsUsed == 1
    ensures plan.budget.consumedAgentSteps == plan.rootOutcome.steps && plan.budget.providerAttempts == 1
    ensures plan.budget.brokerAttempts == 1 && plan.budget.remainingWallSeconds == plan.roundPlan.task.budget.wallSeconds
    ensures plan.roundPlan.deadline == plan.deadline == Min(plan.rootPlan.deadline, plan.rootPlan.task.deadline)
    ensures plan.roundPlan.createdAt == plan.createdAt < plan.deadline
  {
    forall option | option in plan.options
      ensures && option.call.task == plan.roundPlan.task && option.call.toolId in plan.roundPlan.task.allowedTools
              && option.commitment == Commitment(option.call.task, option.call.toolId, option.call.request)
              && plan.rootOutcome.intent != Some(option.call.Intent())
    {
      var i :| 0 <= i < |plan.options| && plan.options[i] == option;
      assert plan.OptionOk(plan.options[i]);
    }
  }
}
