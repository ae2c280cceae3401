/** Runs that do happen: sessions with two tool calls, sessions the audit has no recommendation for, sessions that
    cannot be sealed, handoff claims that race, and plans that repeat their first request. */
module SessionWitnesses {
  import opened Options
  import opened AgentRecords
  import opened SessionOutcomes
  import opened SessionProtocol
  import opened SessionGuarantees
  import opened SessionProgress

  /** The round proposes this authorized call. */
  function Proposal(plan: SessionPlan, option: CallOption, now: Time): RunOutcome {
    RunOutcome(plan.roundPlan, plan.roundPlan.task.taskId, ToolProposed, 1, 0, 0, Some(option.call.Intent()), None, [], now)
  }

  function Reply(h: HandoffPlan, r: BrokerResult, now: Time): HandoffOutcome {
    HandoffOutcome(h, h.agentPlan, h.agentOutcomeDigest, h.call, h.attempt, r.status, r,
                   if r.status.Completed? then Some(Observation(h, r, now)) else None, now)
  }

  lemma ProposalSelects(plan: SessionPlan, option: CallOption, now: Time)
    requires plan.Valid() && option in plan.options
    ensures RunResultOk(plan.roundPlan, Proposal(plan, option, now))
    ensures SelectedOption(plan, Proposal(plan, option, now)) == Some(option)
  {
    SelectionIsUnambiguous(plan, Proposal(plan, option, now), option);
    var k :| 0 <= k < |plan.options| && plan.options[k] == option;
    assert plan.OptionOk(plan.options[k]);
  }

  ghost predicate Runnable(plan: SessionPlan, now: Time) {
    && Startable(plan) && plan.createdAt <= now < plan.deadline && WholeSeconds(plan.deadline - now) <= 86_400
    && plan.firstHandoff.handoffId.key != plan.key + ":round-2-handoff"
  }

  lemma BudgetCoversRoot(plan: SessionPlan)
    requires plan.Valid()
    ensures plan.rootOutcome.Tokens() <= plan.rootPlan.task.budget.modelTokens
  {
  }

  /** Whatever call is authorized, some run has it need Approval twice: the session is then completed, the auditor
      accepts it, and there is no recommendation for it. */
  lemma UnrecommendedSessionsHappen(plan: SessionPlan, option: CallOption, now: Time) returns (steps: seq<Step>)
    requires Runnable(plan, now) && option in plan.options
    ensures var l := Reached(steps).l;
            && plan in l.sessions && l.sessions[plan].Sealed? && VerifyChain(l, plan)
            && RecommendationForStatus(l.sessions[plan].outcome.status).None?
  {
    hide SessionPlan.Valid, RunResultOk, SelectedOption, VerifyChain, HandoffPlan.WellShaped, Reached;
    var round := Proposal(plan, option, now);
    ProposalSelects(plan, option, now);
    BudgetCoversRoot(plan);
    RoundHasOneTool(plan);
    var h := FirstHandoffPlan(plan, round, option.call, now);
    var asked := Reply(h, BrokerResult(h.call, ApprovalRequired, 0, {}), now);
    var key := plan.firstHandoff.handoffId.key + plan.key + ":round-2-handoff" + "-retry";
    assert |key| > |plan.firstHandoff.handoffId.key| && |key| > |plan.key + ":round-2-handoff"|;
    var retry := RetryHandoffPlan(plan, round, option.call, Some(asked.handoffId), now, option.call.callId + 1, key);
    var again := Reply(retry, BrokerResult(retry.call, ApprovalRequired, 0, {}), now);
    var o: SessionOutcome;
    steps, o := SessionsPauseAndResume(plan, round, asked, now, now, {"approval"}, option.call.callId + 1, key, again, None);
  }

  lemma RoundHasOneTool(plan: SessionPlan)
    requires plan.Valid()
    ensures plan.roundPlan.task.budget.toolCalls == 1
  {
  }

  lemma SomeEnding(plan: SessionPlan, round: RunOutcome, second: HandoffOutcome, now: Time) returns (e: Ending)
    requires RunResultOk(plan.roundPlan, round) && round.status.ToolProposed? && round.Tokens() < plan.roundPlan.task.budget.modelTokens
    requires second.handoffId.WellShaped() && HandoffResultOk(second.handoffId, second) && second.status.Completed?
    requires second.agentPlanId == plan.roundPlan && second.agentOutcomeDigest == round
    requires plan.roundPlan.limits.Valid() && 1 <= plan.roundPlan.task.budget.wallSeconds <= 86_400
    requires WholeSeconds(Min(plan.roundPlan.deadline, plan.roundPlan.task.deadline) - now) >= 1
    ensures AnswersContinuation(plan, round, second, now, e) && e.answer.status.RunCompleted? && e.answer.Tokens() == 0
  {
    hide PrepareContinuation, HandoffPlan.WellShaped, BrokerResultOk;
    var runKey := plan.rootPlan.key + plan.roundPlan.key + "-terminal";
    assert |runKey| > |plan.rootPlan.key| && |runKey| > |plan.roundPlan.key|;
    var taskId := plan.roundPlan.task.taskId + 1;
    ContinuationPreparesExactlyWhen(plan.roundPlan, round, second, now, "terminal", runKey, taskId, true);
    var c := PrepareContinuation(plan.roundPlan, round, second, now, "terminal", runKey, taskId, true).value;
    e := Ending(taskId, "terminal", runKey,
                RunOutcome(c.plan, c.plan.task.taskId, RunCompleted, 1, 0, 0, None, Some("summary"), [], now));
  }

  lemma RoundWindow(plan: SessionPlan)
    requires plan.Valid()
    ensures Min(plan.roundPlan.deadline, plan.roundPlan.task.deadline) == plan.deadline
  {
  }

  /** Whatever call is authorized, some run completes it and the continuation that follows. */
  lemma TwoToolSessionsHappen(plan: SessionPlan, option: CallOption, now: Time) returns (steps: seq<Step>)
    requires Runnable(plan, now) && option in plan.options && WholeSeconds(plan.deadline - now) >= 1
    requires plan.roundPlan.limits.Valid() && plan.roundPlan.task.budget.modelTokens >= 1
    requires 1 <= plan.roundPlan.task.budget.wallSeconds <= 86_400
    ensures var l := Reached(steps).l;
            && plan in l.sessions && l.sessions[plan].Sealed? && VerifyChain(l, plan)
            && var o := l.sessions[plan].outcome;
               && o.status.SessionCompleted? && o.terminal.Some?
               && o.secondHandoff.Some? && o.secondHandoff.value.result.toolCallsUsed == 1
  {
    hide RunResultOk, SelectedOption, VerifyChain, HandoffPlan.WellShaped, Reached, Startable, AnswersContinuation,
      SessionPlan.Valid, BrokerCall.Intent;
    RunnableIsValid(plan, now);
    var round := Proposal(plan, option, now);
    ProposalSelects(plan, option, now);
    BudgetCoversRoot(plan);
    RoundHasOneTool(plan);
    RoundWindow(plan);
    OwnHandoffsAreWellShaped(plan, round, plan.firstHandoff.handoffId, now, 0, plan.key);
    var h := FirstHandoffPlan(plan, round, option.call, now);
    var second := Reply(h, BrokerResult(h.call, Completed, 1, {"evidence"}), now);
    var ending := SomeEnding(plan, round, second, now);
    var o: SessionOutcome;
    steps, o := SessionsComplete(plan, round, now, Some(second), Some(ending));
  }

  lemma RunnableIsValid(plan: SessionPlan, now: Time)
    requires Runnable(plan, now)
    ensures plan.Valid() && plan.firstHandoff.handoffId.key != plan.key + ":round-2-handoff"
  {
  }

  /** Startable plans, with any deadline at least a second off, whose one authorized call makes this request. */
  lemma SampleSession(deadline: Time, request: string) returns (plan: SessionPlan)
    requires deadline >= MICROSECONDS
    ensures Startable(plan) && plan.createdAt == 0 && plan.deadline == deadline
    ensures |plan.options| == 1 && plan.options[0].call.request == request
    ensures plan.options[0].call.toolId == plan.firstHandoff.callDigest.toolId && plan.firstHandoff.callDigest.request == "first"
    ensures plan.firstHandoff.handoffId.key != plan.key + ":round-2-handoff"
    ensures plan.roundPlan.limits.Valid() && plan.roundPlan.task.budget.modelTokens >= 1
    ensures 1 <= plan.roundPlan.task.budget.wallSeconds <= 86_400
  {
    var task := Task(1, "authority", {"get"}, Budget(600, 1000, 2), deadline);
    var root := RunPlan(task, RunLimits(1, 100, 60 * MICROSECONDS), None, 0, deadline, "a");
    var call := BrokerCall(task, "get", "first", 1, "b");
    var proposal := RunOutcome(root, 1, ToolProposed, 1, 10, 10, Some(call.Intent()), None, [], 0);
    var h := HandoffPlan(root, proposal, call, 1, None, HANDOFF_TIMEOUT, 0, deadline, "c");
    var result := BrokerResult(call, BrokerStatus.Completed, 1, {"evidence"});
    var first := HandoffOutcome(h, root, proposal, call, 1, BrokerStatus.Completed, result, Some(Observation(h, result, 0)), 0);
    var templates := [("get", request, "d")];
    var prepared := PrepareSession(root, proposal, first, templates, 0, "e", "round", 2, 2, _ => true, true);
    var again := BrokerCall(Task(2, "authority", set t | t in templates :: t.0,
                                 Budget(Min(600, WholeSeconds(deadline)), 980, 1), deadline), "get", request, 2, "d");
    assert again.Intent() != call.Intent();
    assert prepared.Some?;
    PreparedSessionIsValid(root, proposal, first, templates, 0, "e", "round", 2, 2, _ => true, true);
    plan := prepared.value;
    assert |root.key| != |plan.roundPlan.key| && |h.key| != |plan.key + ":round-2-handoff"|;
  }

  /** Startable plans exist for every deadline at least a second off, however distant. */
  lemma SomeSessionStarts(deadline: Time)
    requires deadline >= MICROSECONDS
    ensures exists plan: SessionPlan :: Startable(plan) && plan.createdAt == 0 && plan.deadline == deadline
  {
    var plan := SampleSession(deadline, "second");
  }

  /** A prepared session may authorize the very tool and request of its first call. */
  lemma RepeatedRequestsArePrepared()
    ensures exists plan: SessionPlan ::
              && Startable(plan) && |plan.options| == 1
              && plan.options[0].call.toolId == plan.firstHandoff.callDigest.toolId
              && plan.options[0].call.request == plan.firstHandoff.callDigest.request
  {
    var plan := SampleSession(MICROSECONDS, "first");
  }

  /** There is a completed session the audit has no recommendation for, and one with two tool calls and a
      continuation. */
  lemma BothKindsOfSessionsHappen() returns (unrecommended: seq<Step>, twoTools: seq<Step>, plan: SessionPlan)
    ensures var rows := Reached(unrecommended).l.sessions;
            plan in rows && rows[plan].Sealed? && RecommendationForStatus(rows[plan].outcome.status).None?
    ensures var rows := Reached(twoTools).l.sessions;
            && plan in rows && rows[plan].Sealed? && rows[plan].outcome.status.SessionCompleted?
            && rows[plan].outcome.terminal.Some? && rows[plan].outcome.secondHandoff.Some?
  {
    hide Startable, Reached, VerifyChain;
    plan := SampleSession(MICROSECONDS, "second");
    var option := plan.options[0];
    unrecommended := UnrecommendedSessionsHappen(plan, option, 0);
    twoTools := TwoToolSessionsHappen(plan, option, 0);
  }

  /******* Commits that are refused *******/

  /** Every startable plan with more than a day left has a run whose owner holds all its outcome needs, within
      budget, and whose commit leaves the row started. */
  lemma DistantCommitsAreRefused(plan: SessionPlan, now: Time) returns (steps: seq<Step>)
    requires Startable(plan) && plan.createdAt <= now < plan.deadline && WholeSeconds(plan.deadline - now) > 86_400
    ensures var w := Reached(steps);
            && 0 in w.processes && w.processes[0].plan == plan && Ready(w.processes[0])
            && plan in w.l.sessions && w.l.sessions[plan].Started?
            && Reached(steps + [Commit(0)]).l.sessions == w.l.sessions
    ensures plan.rootOutcome.Tokens() + Reached(steps).processes[0].phase.round.value.Tokens() <= plan.rootPlan.task.budget.modelTokens
  {
    hide SessionPlan.Valid, Recorded, RunResultOk, Run, Next, Built, SelectedOption;
    var round := RunOutcome(plan.roundPlan, plan.roundPlan.task.taskId, RunCompleted, 1, 0, 0, None, Some("summary"), [], now);
    RoundMayConclude(plan, round);
    BudgetCoversRoot(plan);
    steps := RoundIsHeld(plan, round, now);
    CommitSucceedsExactlyWhen(steps, 0);
    Reaches(steps, Commit(0));
  }

  lemma RoundMayConclude(plan: SessionPlan, round: RunOutcome)
    requires Startable(plan) && round.planId == plan.roundPlan && round.taskId == plan.roundPlan.task.taskId && round.steps == 1
    requires round.status.RunCompleted? && round.WellShaped() && round.Tokens() == 0
    ensures RunResultOk(plan.roundPlan, round)
  {
  }

  lemma RefusedCommitsHappen(deadline: Time) returns (plan: SessionPlan, steps: seq<Step>)
    requires WholeSeconds(deadline) > 86_400
    ensures var w := Reached(steps);
            && plan.deadline == deadline && 0 in w.processes && w.processes[0].plan == plan && Ready(w.processes[0])
            && Reached(steps + [Commit(0)]).l.sessions == w.l.sessions && plan in w.l.sessions && w.l.sessions[plan].Started?
  {
    hide Startable, Reached, Ready;
    plan := SampleSession(deadline, "second");
    steps := DistantCommitsAreRefused(plan, 0);
  }

  /******* Handoff claims that race *******/

  /** Whenever a session can start, two claims for its first Agent outcome, each with its SELECTs before the other's
      INSERT, can both go in as first attempts, and both complete: the Broker acts twice on one intent. */
  lemma RacingClaimsBothComplete(plan: SessionPlan) returns (steps: seq<Step>, one: HandoffPlan, other: HandoffPlan)
    requires Startable(plan)
    ensures one != other && one.attempt == other.attempt == 1 && one.call == other.call
    ensures one.agentOutcomeDigest == other.agentOutcomeDigest == plan.rootOutcome
    ensures var rows := Reached(steps).l.handoffs; HL.EndedAs(rows, one, Completed) && HL.EndedAs(rows, other, Completed)
    ensures !InTime(EMPTY, steps)
  {
    hide SessionPlan.Valid, RunResultOk, BrokerResultOk, HandoffPlan.WellShaped, BrokerCall.Intent, Run, Next;
    one := plan.firstHandoff.handoffId;
    other := one.(key := one.key + "-again");
    assert |other.key| != |one.key|;
    FirstIsCompleted(plan);
    StartableInputs(plan);
    OtherIsWellShaped(one, other);
    var first := plan.firstHandoff;
    var second := first.(handoffId := other, observation := Some(Observation(other, first.result, first.completedAt)));
    NothingReached();
    var done := CP.Done(plan.rootOutcome);
    steps := RunIsRecorded([], EMPTY, plan.rootPlan, plan.rootOutcome);
    var w := EMPTY.(l := EMPTY.l.(runs := map[plan.rootPlan := done]));
    assert HL.Prior(map[], plan.rootOutcome) == {};
    steps := HandoffIsSelected(steps, w, one);
    steps := HandoffIsSelected(steps, w.(selected := {one}), other);
    w := w.(selected := {one} + {other});
    steps := HandoffIsInserted(steps, w, one);
    w := w.(l := w.l.(handoffs := map[one := CP.Started]), selected := w.selected - {one});
    steps := HandoffIsInserted(steps, w, other);
    w := w.(l := w.l.(handoffs := w.l.handoffs[other := CP.Started]), selected := w.selected - {other});
    Served(steps, w, CompleteHandoff(first));
    steps := steps + [CompleteHandoff(first)];
    w := w.(l := w.l.(handoffs := w.l.handoffs[one := CP.Done(first)]));
    Served(steps, w, CompleteHandoff(second));
    steps := steps + [CompleteHandoff(second)];
    HandoffLedgerIsSoundExactlyWhen(steps);
  }

  lemma OtherIsWellShaped(one: HandoffPlan, other: HandoffPlan)
    requires one.WellShaped() && other == one.(key := other.key)
    ensures other.WellShaped()
  {
  }

  lemma FirstIsCompleted(plan: SessionPlan)
    requires Startable(plan)
    ensures plan.firstHandoff.status.Completed?
  {
  }
}
