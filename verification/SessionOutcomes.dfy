/** How a session's outcome is put together, when that succeeds, and how an auditor recomputes it. */
module SessionOutcomes {
  import opened Options
  import opened AgentRecords

  datatype SessionStatus =
    | SessionCompleted | SessionBlocked | SessionDenied | SessionApprovalRequired | SessionFailed | SessionTimedOut

  datatype SessionOutcome = SessionOutcome(
    sessionId: SessionPlan, rootPlanId: RunPlan, firstObservationId: Observation, roundPlanId: RunPlan,
    callSetId: seq<CallOption>, status: SessionStatus, roundOutcome: RunOutcome,
    selectedCommitment: Option<Commitment>, selectedCall: Option<BrokerCall>,
    approvalHandoff: Option<HandoffOutcome>, approvalDigests: set<string>,
    secondHandoff: Option<HandoffOutcome>, terminal: Option<ContinuationOutcome>,
    budget: SessionBudget, completedAt: Time)
  {
    /** The validator of a session outcome. */
    predicate WellShaped() {
      && roundOutcome.planId == roundPlanId
      && (selectedCommitment.None? <==> selectedCall.None?)
      && (if secondHandoff.None? then
            && terminal.None?
            && status == (if roundOutcome.status.ToolProposed? then SessionFailed else OfRun(roundOutcome.status))
          else
            var handoff := secondHandoff.value;
            var committed := if approvalHandoff.Some? then approvalHandoff.value else handoff;
            && roundOutcome.status.ToolProposed?
            && selectedCommitment.Some?
            && selectedCall == Some(committed.callDigest)
            && handoff.agentPlanId == roundPlanId
            && (if handoff.status.Completed? then
                  && handoff.observation.Some? && handoff.observation.value != firstObservationId
                  && terminal.Some? && status == OfRun(terminal.value.status)
                else terminal.None? && status == OfBroker(handoff.status)))
      && (if approvalHandoff.Some? then
            && approvalHandoff.value.status.ApprovalRequired? && approvalHandoff.value.attempt == 1
            && secondHandoff.Some? && secondHandoff.value.attempt == 2
            && approvalHandoff.value.agentOutcomeDigest == secondHandoff.value.agentOutcomeDigest
            && approvalDigests != {}
          else approvalDigests == {})
      && budget.providerAttempts == 2 + Count(terminal)
      && budget.brokerAttempts == 1 + Count(secondHandoff) + Count(approvalHandoff)
      && roundOutcome.Tokens() + (if terminal.Some? then terminal.value.agentOutcome.Tokens() else 0)
         <= budget.consumedModelTokens
    }
  }

  function Count<T>(o: Option<T>): nat {
    if o.Some? then 1 else 0
  }

  function AsSeq<T>(o: Option<T>): seq<T> {
    if o.Some? then [o.value] else []
  }

  /** A run's terminal status as a session status; a proposal is not terminal and maps to a failure. */
  function OfRun(status: RunStatus): SessionStatus {
    match status
    case RunCompleted => SessionCompleted
    case RunBlocked => SessionBlocked
    case RunTimedOut => SessionTimedOut
    case _ => SessionFailed
  }

  function OfBroker(status: BrokerStatus): SessionStatus {
    match status
    case Completed => SessionCompleted
    case Denied => SessionDenied
    case ApprovalRequired => SessionApprovalRequired
    case TimedOut => SessionTimedOut
    case Failed_ => SessionFailed
  }

  /******* Choosing the call *******/

  function Matches(options: seq<CallOption>, intent: ToolIntent): seq<CallOption> {
    if options == [] then []
    else (if options[0].call.Intent() == intent then [options[0]] else []) + Matches(options[1..], intent)
  }

  /** The authorized call the Agent proposed, if exactly one matches its intent. */
  function SelectedOption(plan: SessionPlan, o: RunOutcome): Option<CallOption> {
    if !o.status.ToolProposed? || o.intent.None? then None
    else
      var matches := Matches(plan.options, o.intent.value);
      if |matches| == 1 then Some(matches[0]) else None
  }

  lemma {:induction false} MatchesAreTheMatching(options: seq<CallOption>, intent: ToolIntent)
    requires forall i :: 0 <= i < |options| ==> options[i].commitment == options[i].call.Commit()
    requires DistinctCommitments(options)
    ensures |Matches(options, intent)| <= 1
    ensures forall o :: o in Matches(options, intent) <==> o in options && o.call.Intent() == intent
  {
    if options != [] {
      var rest := options[1..];
      MatchesAreTheMatching(rest, intent);
      assert forall o :: o in options <==> o == options[0] || o in rest;
      if options[0].call.Intent() == intent && Matches(rest, intent) != [] {
        var other := Matches(rest, intent)[0];
        assert other in Matches(rest, intent);
      }
    }
  }

  /** In a valid plan the choice is never ambiguous: an intent selects a call exactly when it is
      the intent of an authorized call, and then it selects that call. */
  lemma SelectionIsUnambiguous(plan: SessionPlan, o: RunOutcome, option: CallOption)
    requires plan.Valid() && o.status.ToolProposed? && o.intent.Some?
    ensures SelectedOption(plan, o) == Some(option) <==> option in plan.options && Some(option.call.Intent()) == o.intent
  {
    assert forall i :: 0 <= i < |plan.options| ==> plan.OptionOk(plan.options[i]);
    MatchesAreTheMatching(plan.options, o.intent.value);
    var matches := Matches(plan.options, o.intent.value);
    if |matches| == 1 {
      assert matches[0] in matches;
    }
  }

  /******* Handing it over *******/

  const HANDOFF_TIMEOUT: int := 60 * MICROSECONDS

  /** The handoff of the selected call. */
  function FirstHandoffPlan(plan: SessionPlan, round: RunOutcome, call: BrokerCall, now: Time): HandoffPlan {
    HandoffPlan(plan.roundPlan, round, call, 1, None, HANDOFF_TIMEOUT, now, plan.deadline, plan.key + ":round-2-handoff")
  }

  /** The same request under a new identity, after the handoff that waited for Approval. */
  function RetryHandoffPlan(plan: SessionPlan, round: RunOutcome, call: BrokerCall, previous: Option<HandoffPlan>,
                            now: Time, callId: nat, key: string): HandoffPlan
  {
    HandoffPlan(plan.roundPlan, round, call.(callId := callId, key := key + ":broker"), 2, previous,
                HANDOFF_TIMEOUT, now, plan.deadline, key)
  }

  /** Both handoffs a session can ask for are valid plans for the intent the round proposed. */
  lemma OwnHandoffsAreWellShaped(plan: SessionPlan, round: RunOutcome, previous: HandoffPlan, now: Time, callId: nat, key: string)
    requires plan.Valid() && now < plan.deadline && SelectedOption(plan, round).Some?
    ensures var call := SelectedOption(plan, round).value.call;
            var first := FirstHandoffPlan(plan, round, call, now);
            var retry := RetryHandoffPlan(plan, round, call, Some(previous), now, callId, key);
            && first.WellShaped() && retry.WellShaped()
            && round.intent == Some(first.call.Intent()) && round.intent == Some(retry.call.Intent())
            && retry.call.Commit() == call.Commit()
  {
    var selected := SelectedOption(plan, round).value;
    SelectionIsUnambiguous(plan, round, selected);
    var k :| 0 <= k < |plan.options| && plan.options[k] == selected;
    assert plan.OptionOk(plan.options[k]);
  }

  /** Both are for the round and its outcome, now, for a minute and no longer than the session: the first under the
      session's own key, the retry as a new call in the name of the first. */
  lemma OwnHandoffsAreForTheRound(plan: SessionPlan, round: RunOutcome, call: BrokerCall, previous: Option<HandoffPlan>, now: Time,
                                  callId: nat, key: string)
    ensures var h := FirstHandoffPlan(plan, round, call, now);
            && h.agentPlan == plan.roundPlan && h.agentOutcomeDigest == round && h.call == call && h.attempt == 1
            && h.previous == None && h.createdAt == now && h.deadline == plan.deadline && h.timeout == 60_000_000
            && h.key == plan.key + ":round-2-handoff"
    ensures var h := RetryHandoffPlan(plan, round, call, previous, now, callId, key);
            && h.agentPlan == plan.roundPlan && h.agentOutcomeDigest == round && h.attempt == 2
            && h.previous == previous && h.createdAt == now && h.deadline == plan.deadline && h.timeout == 60_000_000
            && h.key == key && h.call == BrokerCall(call.task, call.toolId, call.request, callId, key + ":broker")
  {
  }

  /******* Building the outcome *******/

  function SumTokens(outcomes: seq<RunOutcome>): int {
    if outcomes == [] then 0 else outcomes[0].Tokens() + SumTokens(outcomes[1..])
  }

  function SumSteps(outcomes: seq<RunOutcome>): int {
    if outcomes == [] then 0 else outcomes[0].steps + SumSteps(outcomes[1..])
  }

  function SumTools(handoffs: seq<HandoffOutcome>): int {
    if handoffs == [] then 0 else handoffs[0].result.toolCallsUsed + SumTools(handoffs[1..])
  }

  function Status(round: RunOutcome, selected: Option<CallOption>, second: Option<HandoffOutcome>,
                  terminal: Option<ContinuationOutcome>): SessionStatus
  {
    if !round.status.ToolProposed? then OfRun(round.status)
    else if selected.None? || second.None? then SessionFailed
    else if !second.value.status.Completed? then OfBroker(second.value.status)
    else if terminal.None? then SessionFailed
    else OfRun(terminal.value.status)
  }

  function TerminalRun(terminal: Option<ContinuationOutcome>): seq<RunOutcome> {
    if terminal.Some? then [terminal.value.agentOutcome] else []
  }

  function FinalBudget(plan: SessionPlan, round: RunOutcome, approval: Option<HandoffOutcome>,
                       second: Option<HandoffOutcome>, terminal: Option<ContinuationOutcome>, now: Time): SessionBudget
  {
    var outcomes := [plan.rootOutcome, round] + TerminalRun(terminal);
    var consumed := SumTokens(outcomes);
    var afterFirst: int := plan.firstHandoff.result.toolCallsUsed;
    var afterApproval := if approval.Some? then afterFirst + approval.value.result.toolCallsUsed else afterFirst;
    var tools := if second.Some? then afterApproval + second.value.result.toolCallsUsed else afterApproval;
    SessionBudget(plan.budget.originalModelTokens, plan.budget.originalToolCalls,
                  consumed, plan.budget.originalModelTokens - consumed, SumSteps(outcomes),
                  tools, plan.budget.originalToolCalls - tools,
                  |outcomes|, 1 + Count(approval) + Count(second), Max(0, WholeSeconds(plan.deadline - now)))
  }

  /** The sealed outcome, or None where its validators refuse it. */
  function BuildOutcome(plan: SessionPlan, round: RunOutcome, approval: Option<HandoffOutcome>, approvals: set<string>,
                        second: Option<HandoffOutcome>, terminal: Option<ContinuationOutcome>, now: Time)
    : Option<SessionOutcome>
  {
    var selected := SelectedOption(plan, round);
    var budget := FinalBudget(plan, round, approval, second, terminal, now);
    var outcome := SessionOutcome(
      plan, plan.rootPlan, plan.firstObservationId, plan.roundPlan, plan.options,
      Status(round, selected, second, terminal), round,
      if selected.Some? then Some(selected.value.commitment) else None,
      if selected.Some? then Some(selected.value.call) else None,
      approval, approvals, second, terminal, budget, now);
    if budget.Valid() && outcome.WellShaped() then Some(outcome) else None
  }

  /******* What an honest chain of ledger results looks like *******/

  /** The first Broker attempt of the round, made for the selected call. */
  ghost predicate FirstAttempt(plan: SessionPlan, round: RunOutcome, o: HandoffOutcome) {
    && HandoffResultOk(o.handoffId, o)
    && o.handoffId.agentPlan == plan.roundPlan && o.handoffId.agentOutcomeDigest == round
    && o.handoffId.attempt == 1
    && SelectedOption(plan, round).Some? && o.handoffId.call == SelectedOption(plan, round).value.call
  }

  /** The attempt made after Approval: the same commitment under a new call identity. */
  ghost predicate RetryAttempt(plan: SessionPlan, round: RunOutcome, approval: HandoffOutcome, o: HandoffOutcome) {
    && HandoffResultOk(o.handoffId, o)
    && o.handoffId.agentPlan == plan.roundPlan && o.handoffId.agentOutcomeDigest == round
    && o.handoffId.attempt == 2 && o.handoffId.previous == Some(approval.handoffId)
    && o.handoffId.call.Commit() == approval.handoffId.call.Commit()
  }

  ghost predicate TerminalOf(plan: SessionPlan, round: RunOutcome, second: HandoffOutcome, o: ContinuationOutcome) {
    && ContinuationResultOk(o.continuationId, o) && o.continuationId.WellShaped()
    && o.continuationId.rootPlan == plan.roundPlan && o.continuationId.rootOutcome == round
    && o.continuationId.handoff == second
  }

  ghost predicate HonestChain(plan: SessionPlan, round: RunOutcome, approval: Option<HandoffOutcome>,
                              second: Option<HandoffOutcome>, terminal: Option<ContinuationOutcome>)
  {
    && plan.Valid()
    && RunResultOk(plan.rootPlan, plan.rootOutcome) && plan.rootPlan.limits.maxSteps <= 8
    && HandoffResultOk(plan.firstHandoff.handoffId, plan.firstHandoff)
    && RunResultOk(plan.roundPlan, round)
    && (second.Some? <==> round.status.ToolProposed? && SelectedOption(plan, round).Some?)
    && (approval.Some? ==>
          && second.Some? && FirstAttempt(plan, round, approval.value)
          && approval.value.status.ApprovalRequired?
          && RetryAttempt(plan, round, approval.value, second.value))
    && (second.Some? && approval.None? ==> FirstAttempt(plan, round, second.value))
    && (terminal.Some? <==> second.Some? && second.value.status.Completed?)
    && (terminal.Some? ==> TerminalOf(plan, round, second.value, terminal.value))
  }

  function TotalTokens(plan: SessionPlan, round: RunOutcome, terminal: Option<ContinuationOutcome>): int {
    plan.rootOutcome.Tokens() + round.Tokens() + (if terminal.Some? then terminal.value.agentOutcome.Tokens() else 0)
  }

  lemma SumsUnfold(plan: SessionPlan, round: RunOutcome, terminal: Option<ContinuationOutcome>)
    ensures var outcomes := [plan.rootOutcome, round] + TerminalRun(terminal);
            && SumTokens(outcomes) == TotalTokens(plan, round, terminal)
            && SumSteps(outcomes) == plan.rootOutcome.steps + round.steps
                 + (if terminal.Some? then terminal.value.agentOutcome.steps else 0)
            && |outcomes| == 2 + Count(terminal)
  {
    var outcomes := [plan.rootOutcome, round] + TerminalRun(terminal);
    var afterRoot := [round] + TerminalRun(terminal);
    assert outcomes[1..] == afterRoot && afterRoot[1..] == TerminalRun(terminal);
    assert terminal.Some? ==> TerminalRun(terminal)[1..] == [];
    assert SumTokens(afterRoot) == round.Tokens() + SumTokens(TerminalRun(terminal));
    assert SumSteps(afterRoot) == round.steps + SumSteps(TerminalRun(terminal));
  }

  /** The final ledger of an honest session is valid exactly when its tokens fit and at most a day is left. */
  lemma FinalBudgetFitsExactlyWhen(plan: SessionPlan, round: RunOutcome, approval: Option<HandoffOutcome>,
                                   second: Option<HandoffOutcome>, terminal: Option<ContinuationOutcome>, now: Time)
    requires HonestChain(plan, round, approval, second, terminal)
    ensures FinalBudget(plan, round, approval, second, terminal, now).Valid()
      <==> && TotalTokens(plan, round, terminal) <= plan.rootPlan.task.budget.modelTokens
           && WholeSeconds(plan.deadline - now) <= 86_400
  {
    hide SelectedOption, BrokerCall.Intent;
    SumsUnfold(plan, round, terminal);
  }

  /** Sealing an honest session succeeds exactly when the tokens fit, the time left is at most a
      day, and a resumed session was given an Approval. The day matters because the final ledger,
      unlike the plan's, does not cap the time left by the run's wall budget. */
  lemma SealingSucceedsExactlyWhen(plan: SessionPlan, round: RunOutcome, approval: Option<HandoffOutcome>,
                                   approvals: set<string>, second: Option<HandoffOutcome>,
                                   terminal: Option<ContinuationOutcome>, now: Time)
    requires HonestChain(plan, round, approval, second, terminal)
    ensures BuildOutcome(plan, round, approval, approvals, second, terminal, now).Some?
      <==> && TotalTokens(plan, round, terminal) <= plan.rootPlan.task.budget.modelTokens
           && WholeSeconds(plan.deadline - now) <= 86_400
           && (approval.Some? <==> approvals != {})
  {
    hide SelectedOption, SessionBudget.Valid, ContinuationPlan.WellShaped, BrokerResultOk, BrokerCall.Intent;
    FinalBudgetFitsExactlyWhen(plan, round, approval, second, terminal, now);
    SumsUnfold(plan, round, terminal);
    if second.Some? {
      assert plan.firstObservationId.handoffId.agentPlan == plan.rootPlan;
      assert second.value.observation != Some(plan.firstObservationId);
    }
  }

  /** The tokens can only fail to fit when the last run ended in failure or timeout. */
  lemma TokensOverrunOnlyAfterFailure(plan: SessionPlan, round: RunOutcome, approval: Option<HandoffOutcome>,
                                      second: Option<HandoffOutcome>, terminal: Option<ContinuationOutcome>)
    requires HonestChain(plan, round, approval, second, terminal)
    requires TotalTokens(plan, round, terminal) > plan.rootPlan.task.budget.modelTokens
    ensures Failed(if terminal.Some? then terminal.value.agentOutcome.status else round.status)
  {
  }

  /** A session whose deadline is two days off cannot be sealed, however little it used. */
  lemma DistantDeadlineCannotBeSealed(plan: SessionPlan, round: RunOutcome, now: Time)
    requires HonestChain(plan, round, None, None, None)
    requires plan.deadline == now + 2 * 86_400 * MICROSECONDS
    ensures BuildOutcome(plan, round, None, {}, None, None, now).None?
  {
  }

  /** Conservation: whatever an honest session seals, nothing of its budgets is lost or invented, and
      the wall budget only shrinks from the root to the round to the continuation. */
  lemma BudgetsAreConserved(plan: SessionPlan, round: RunOutcome, approval: Option<HandoffOutcome>,
                            approvals: set<string>, second: Option<HandoffOutcome>,
                            terminal: Option<ContinuationOutcome>, now: Time)
    requires HonestChain(plan, round, approval, second, terminal)
    requires BuildOutcome(plan, round, approval, approvals, second, terminal, now).Some?
    ensures var b := BuildOutcome(plan, round, approval, approvals, second, terminal, now).value.budget;
            && b.consumedModelTokens == TotalTokens(plan, round, terminal)
            && b.consumedModelTokens + b.remainingModelTokens == plan.rootPlan.task.budget.modelTokens
            && b.remainingModelTokens >= 0
            && b.consumedToolCalls + b.remainingToolCalls == 2
            && b.consumedToolCalls == (if second.Some? then 1 + second.value.result.toolCallsUsed else 1)
            && 2 <= b.providerAttempts <= 3 && 1 <= b.brokerAttempts <= 3
            && plan.budget.remainingModelTokens - round.Tokens()
               - (if terminal.Some? then terminal.value.agentOutcome.Tokens() else 0) == b.remainingModelTokens
            && (terminal.Some? ==>
                  terminal.value.continuationId.plan.task.budget.wallSeconds <= plan.roundPlan.task.budget.wallSeconds)
  {
    SumsUnfold(plan, round, terminal);
  }

  /******* The auditor *******/

  /** Options whose commitment and call both match what the outcome says was selected. */
  function Authorized(options: seq<CallOption>, outcome: SessionOutcome): seq<CallOption> {
    if options == [] then []
    else
      (if Some(options[0].commitment) == outcome.selectedCommitment && Some(options[0].call) == outcome.selectedCall
       then [options[0]] else [])
      + Authorized(options[1..], outcome)
  }

  predicate VerifySelectedCall(plan: SessionPlan, outcome: SessionOutcome) {
    if outcome.selectedCommitment.None? then outcome.secondHandoff.None?
    else |Authorized(plan.options, outcome)| == 1
  }

  predicate VerifyBudget(plan: SessionPlan, outcome: SessionOutcome) {
    var agentOutcomes := [plan.rootOutcome, outcome.roundOutcome] + TerminalRun(outcome.terminal);
    var handoffs := [plan.firstHandoff] + AsSeq(outcome.approvalHandoff) + AsSeq(outcome.secondHandoff);
    var tokens := SumTokens(agentOutcomes);
    var tools := SumTools(handoffs);
    var expected := SessionBudget(
      plan.budget.originalModelTokens, plan.budget.originalToolCalls, tokens, plan.budget.originalModelTokens - tokens,
      SumSteps(agentOutcomes), tools, plan.budget.originalToolCalls - tools, |agentOutcomes|, |handoffs|,
      Max(0, WholeSeconds(plan.deadline - outcome.completedAt)));
    expected.Valid() && expected == outcome.budget
  }

  lemma {:induction false} AuthorizedIsUnique(options: seq<CallOption>, outcome: SessionOutcome, option: CallOption)
    requires DistinctCommitments(options)
    requires outcome.selectedCommitment == Some(option.commitment) && outcome.selectedCall == Some(option.call)
    ensures Authorized(options, outcome) == if option in options then [option] else []
  {
    if options != [] {
      AuthorizedIsUnique(options[1..], outcome, option);
      assert forall i :: 0 < i < |options| ==> options[i] == options[1..][i - 1];
    }
  }

  lemma ToolSumsUnfold(first: HandoffOutcome, approval: Option<HandoffOutcome>, second: Option<HandoffOutcome>)
    ensures var handoffs := [first] + AsSeq(approval) + AsSeq(second);
            && |handoffs| == 1 + Count(approval) + Count(second)
            && SumTools(handoffs) == first.result.toolCallsUsed
                 + (if approval.Some? then approval.value.result.toolCallsUsed else 0)
                 + (if second.Some? then second.value.result.toolCallsUsed else 0)
  {
    var handoffs := [first] + AsSeq(approval) + AsSeq(second);
    var later := AsSeq(approval) + AsSeq(second);
    assert handoffs[1..] == later;
    assert second.Some? ==> AsSeq(second)[1..] == [];
    assert SumTools(AsSeq(second)) == if second.Some? then second.value.result.toolCallsUsed else 0;
    assert if approval.Some? then later[1..] == AsSeq(second) else later == AsSeq(second);
    assert SumTools(handoffs) == first.result.toolCallsUsed + SumTools(later);
  }

  lemma SealedSelectionPasses(plan: SessionPlan, round: RunOutcome, approval: Option<HandoffOutcome>,
                              approvals: set<string>, second: Option<HandoffOutcome>,
                              terminal: Option<ContinuationOutcome>, now: Time)
    requires plan.Valid() && RunResultOk(plan.roundPlan, round)
    requires BuildOutcome(plan, round, approval, approvals, second, terminal, now).Some?
    ensures VerifySelectedCall(plan, BuildOutcome(plan, round, approval, approvals, second, terminal, now).value)
  {
    hide FinalBudget, Status, SessionBudget.Valid;
    var selected := SelectedOption(plan, round);
    if selected.Some? {
      SelectionIsUnambiguous(plan, round, selected.value);
      AuthorizedIsUnique(plan.options, BuildOutcome(plan, round, approval, approvals, second, terminal, now).value,
                         selected.value);
    }
  }

  lemma SealedBudgetPasses(plan: SessionPlan, round: RunOutcome, approval: Option<HandoffOutcome>,
                           approvals: set<string>, second: Option<HandoffOutcome>,
                           terminal: Option<ContinuationOutcome>, now: Time)
    requires BuildOutcome(plan, round, approval, approvals, second, terminal, now).Some?
    ensures VerifyBudget(plan, BuildOutcome(plan, round, approval, approvals, second, terminal, now).value)
  {
    hide SelectedOption, Status, SessionOutcome.WellShaped;
    ToolSumsUnfold(plan.firstHandoff, approval, second);
  }

  /** What an honest session seals passes both of the auditor's own recomputations. */
  lemma SealedOutcomePassesAudit(plan: SessionPlan, round: RunOutcome, approval: Option<HandoffOutcome>,
                                 approvals: set<string>, second: Option<HandoffOutcome>,
                                 terminal: Option<ContinuationOutcome>, now: Time)
    requires plan.Valid() && RunResultOk(plan.roundPlan, round)
    requires BuildOutcome(plan, round, approval, approvals, second, terminal, now).Some?
    ensures var outcome := BuildOutcome(plan, round, approval, approvals, second, terminal, now).value;
            VerifySelectedCall(plan, outcome) && VerifyBudget(plan, outcome)
  {
    hide BuildOutcome, VerifySelectedCall, VerifyBudget;
    SealedSelectionPasses(plan, round, approval, approvals, second, terminal, now);
    SealedBudgetPasses(plan, round, approval, approvals, second, terminal, now);
  }

  /** The whole seconds of what is left, none if nothing is. */
  predicate SecondsLeft(left: int, seconds: int) {
    if left <= 0 then seconds == 0 else seconds * MICROSECONDS <= left < (seconds + 1) * MICROSECONDS
  }

  /** The ledger's entries are the sums over the chain's runs and handoffs, and what the plan had less those. */
  predicate LedgerAdds(plan: SessionPlan, round: RunOutcome, approval: Option<HandoffOutcome>, second: Option<HandoffOutcome>,
                       terminal: Option<ContinuationOutcome>, completedAt: Time, b: SessionBudget)
  {
    && b.originalModelTokens == plan.budget.originalModelTokens && b.originalToolCalls == plan.budget.originalToolCalls
    && b.consumedModelTokens
       == plan.rootOutcome.inputTokens + plan.rootOutcome.outputTokens + round.inputTokens + round.outputTokens
          + (if terminal == None then 0 else terminal.value.agentOutcome.inputTokens + terminal.value.agentOutcome.outputTokens)
    && b.remainingModelTokens == plan.budget.originalModelTokens - b.consumedModelTokens
    && b.consumedAgentSteps
       == plan.rootOutcome.steps + round.steps + (if terminal == None then 0 else terminal.value.agentOutcome.steps)
    && b.consumedToolCalls
       == plan.firstHandoff.result.toolCallsUsed + (if approval == None then 0 else approval.value.result.toolCallsUsed)
          + (if second == None then 0 else second.value.result.toolCallsUsed)
    && b.remainingToolCalls == plan.budget.originalToolCalls - b.consumedToolCalls
    && b.providerAttempts == (if terminal == None then 2 else 3)
    && b.brokerAttempts == 1 + (if approval == None then 0 else 1) + (if second == None then 0 else 1)
    && SecondsLeft(plan.deadline - completedAt, b.remainingWallSeconds)
  }

  lemma SecondsAreWhole(left: int, seconds: int)
    ensures SecondsLeft(left, seconds) <==> seconds == Max(0, WholeSeconds(left))
  {
  }

  /** The auditor's second check passes exactly a valid ledger that adds up. */
  lemma BudgetPassesExactlyWhen(plan: SessionPlan, o: SessionOutcome)
    ensures VerifyBudget(plan, o) <==>
      o.budget.Valid() && LedgerAdds(plan, o.roundOutcome, o.approvalHandoff, o.secondHandoff, o.terminal, o.completedAt, o.budget)
  {
    hide SessionBudget.Valid, SecondsLeft, WholeSeconds;
    SumsUnfold(plan, o.roundOutcome, o.terminal);
    ToolSumsUnfold(plan.firstHandoff, o.approvalHandoff, o.secondHandoff);
    SecondsAreWhole(plan.deadline - o.completedAt, o.budget.remainingWallSeconds);
  }

  /** The outcome selects nothing and hands nothing over, or it names one authorized option by commitment and call. */
  predicate NamesAuthorizedCall(plan: SessionPlan, o: SessionOutcome) {
    if o.selectedCommitment == None then o.secondHandoff == None
    else exists option :: option in plan.options && o.selectedCommitment == Some(option.commitment)
                          && o.selectedCall == Some(option.call)
  }

  lemma {:induction false} AuthorizedAreNamed(options: seq<CallOption>, o: SessionOutcome)
    ensures forall option :: option in Authorized(options, o) <==>
              option in options && o.selectedCommitment == Some(option.commitment) && o.selectedCall == Some(option.call)
  {
    if options != [] {
      AuthorizedAreNamed(options[1..], o);
      assert forall option :: option in options <==> option == options[0] || option in options[1..];
    }
  }

  /** The auditor's first check passes exactly that. */
  lemma SelectionPassesExactlyWhen(plan: SessionPlan, o: SessionOutcome)
    requires DistinctCommitments(plan.options)
    ensures VerifySelectedCall(plan, o) <==> NamesAuthorizedCall(plan, o)
  {
    AuthorizedAreNamed(plan.options, o);
    if o.selectedCommitment.Some? {
      if option :| option in plan.options && o.selectedCommitment == Some(option.commitment) && o.selectedCall == Some(option.call) {
        AuthorizedIsUnique(plan.options, o, option);
      }
      if |Authorized(plan.options, o)| == 1 {
        assert Authorized(plan.options, o)[0] in Authorized(plan.options, o);
      }
    }
  }

  /******* What an outcome says *******/

  /** The last run of the session ended so. */
  predicate LastRunEnded(round: RunOutcome, second: Option<HandoffOutcome>, terminal: Option<ContinuationOutcome>, status: RunStatus) {
    (second == None && round.status == status) || (terminal != None && terminal.value.agentOutcome.status == status)
  }

  predicate HandoffEnded(second: Option<HandoffOutcome>, status: BrokerStatus) {
    second != None && second.value.result.status == status
  }

  predicate StatusSays(round: RunOutcome, second: Option<HandoffOutcome>, terminal: Option<ContinuationOutcome>,
                       status: SessionStatus)
  {
    match status
    case SessionCompleted => LastRunEnded(round, second, terminal, RunCompleted)
    case SessionBlocked => LastRunEnded(round, second, terminal, RunBlocked)
    case SessionDenied => HandoffEnded(second, Denied)
    case SessionApprovalRequired => HandoffEnded(second, ApprovalRequired)
    case SessionTimedOut => LastRunEnded(round, second, terminal, RunTimedOut) || HandoffEnded(second, TimedOut)
    case SessionFailed =>
      || LastRunEnded(round, second, terminal, RunFailed) || HandoffEnded(second, Failed_)
      || LastRunEnded(round, second, terminal, ToolProposed)
  }

  /** Everything an outcome says about the chain it seals. */
  ghost predicate Describes(plan: SessionPlan, round: RunOutcome, approval: Option<HandoffOutcome>, approvals: set<string>,
                            second: Option<HandoffOutcome>, terminal: Option<ContinuationOutcome>, now: Time, o: SessionOutcome)
  {
    && o.sessionId == plan && o.rootPlanId == plan.rootPlan && o.firstObservationId == plan.firstObservationId
    && o.roundPlanId == plan.roundPlan && o.callSetId == plan.options && o.roundOutcome == round
    && o.approvalHandoff == approval && o.approvalDigests == approvals && o.secondHandoff == second
    && o.terminal == terminal && o.completedAt == now
    && StatusSays(round, second, terminal, o.status)
    && (if exists option :: Selects(plan, round, option) then
          exists option :: && Selects(plan, round, option) && o.selectedCommitment == Some(option.commitment)
                           && o.selectedCall == Some(option.call)
        else o.selectedCommitment == None && o.selectedCall == None)
    && LedgerAdds(plan, round, approval, second, terminal, now, o.budget)
  }

  /** The round proposes the intent of this authorized call. */
  predicate Selects(plan: SessionPlan, round: RunOutcome, option: CallOption) {
    round.status == ToolProposed && option in plan.options && round.intent == Some(option.call.Intent())
  }

  /** What the services guarantee of the statuses in a chain. */
  lemma ChainStatuses(plan: SessionPlan, round: RunOutcome, approval: Option<HandoffOutcome>, second: Option<HandoffOutcome>,
                      terminal: Option<ContinuationOutcome>)
    requires HonestChain(plan, round, approval, second, terminal)
    ensures second != None ==> second.value.status == second.value.result.status && round.status == ToolProposed
    ensures terminal != None ==> terminal.value.status == terminal.value.agentOutcome.status != ToolProposed
    ensures terminal != None <==> second != None && second.value.status == Completed
    ensures second != None <==> round.status == ToolProposed && SelectedOption(plan, round) != None
  {
    hide SelectedOption, SessionPlan.Valid, BrokerResultOk, BrokerCall.Intent;
  }

  lemma StatusIsExact(plan: SessionPlan, round: RunOutcome, approval: Option<HandoffOutcome>, second: Option<HandoffOutcome>,
                      terminal: Option<ContinuationOutcome>, status: SessionStatus)
    requires HonestChain(plan, round, approval, second, terminal)
    ensures Status(round, SelectedOption(plan, round), second, terminal) == status <==> StatusSays(round, second, terminal, status)
  {
    hide SelectedOption, HonestChain;
    ChainStatuses(plan, round, approval, second, terminal);
  }

  lemma LedgerIsExact(plan: SessionPlan, round: RunOutcome, approval: Option<HandoffOutcome>, second: Option<HandoffOutcome>,
                      terminal: Option<ContinuationOutcome>, now: Time, b: SessionBudget)
    ensures b == FinalBudget(plan, round, approval, second, terminal, now) <==>
              LedgerAdds(plan, round, approval, second, terminal, now, b)
  {
    hide SecondsLeft, WholeSeconds;
    SumsUnfold(plan, round, terminal);
    SecondsAreWhole(plan.deadline - now, b.remainingWallSeconds);
  }

  /** What is sealed of an honest chain is exactly what describes it, if it fits. */
  lemma SealedExactlyWhen(plan: SessionPlan, round: RunOutcome, approval: Option<HandoffOutcome>, approvals: set<string>,
                          second: Option<HandoffOutcome>, terminal: Option<ContinuationOutcome>, now: Time, o: SessionOutcome)
    requires HonestChain(plan, round, approval, second, terminal)
    ensures BuildOutcome(plan, round, approval, approvals, second, terminal, now) == Some(o) <==>
      && Describes(plan, round, approval, approvals, second, terminal, now, o)
      && TotalTokens(plan, round, terminal) <= plan.rootPlan.task.budget.modelTokens
      && WholeSeconds(plan.deadline - now) <= 86_400
      && (approval == None <==> approvals == {})
  {
    hide SelectedOption, LedgerAdds, FinalBudget, Status, StatusSays, HonestChain, SessionOutcome.WellShaped, SessionBudget.Valid,
      BrokerCall.Intent;
    SealingSucceedsExactlyWhen(plan, round, approval, approvals, second, terminal, now);
    StatusIsExact(plan, round, approval, second, terminal, o.status);
    LedgerIsExact(plan, round, approval, second, terminal, now, o.budget);
    SelectionIsExact(plan, round, approval, second, terminal);
  }

  lemma SelectionIsExact(plan: SessionPlan, round: RunOutcome, approval: Option<HandoffOutcome>, second: Option<HandoffOutcome>,
                         terminal: Option<ContinuationOutcome>)
    requires HonestChain(plan, round, approval, second, terminal)
    ensures forall option :: Selects(plan, round, option) <==> SelectedOption(plan, round) == Some(option)
  {
    forall option ensures Selects(plan, round, option) <==> SelectedOption(plan, round) == Some(option) {
      if round.status.ToolProposed? && round.intent.Some? {
        SelectionIsUnambiguous(plan, round, option);
      }
    }
  }

  /** A valid outcome: what was handed over was selected, made for the round, and what came of it decides the status; an
      attempt that waited stands before a second one with Approvals; and the ledger counts the attempts. */
  lemma SessionOutcomesAreBound(o: SessionOutcome)
    requires o.WellShaped()
    ensures o.roundOutcome.planId == o.roundPlanId && (o.selectedCommitment == None <==> o.selectedCall == None)
    ensures o.secondHandoff == None ==>
              && o.terminal == None && o.approvalHandoff == None
              && o.status == if o.roundOutcome.status == ToolProposed then SessionFailed else OfRun(o.roundOutcome.status)
    ensures o.secondHandoff != None ==>
              && o.roundOutcome.status == ToolProposed && o.selectedCommitment != None
              && o.secondHandoff.value.agentPlanId == o.roundPlanId
              && o.selectedCall == Some(if o.approvalHandoff != None then o.approvalHandoff.value.callDigest
                                        else o.secondHandoff.value.callDigest)
    ensures o.secondHandoff != None && o.secondHandoff.value.status == Completed ==>
              && o.secondHandoff.value.observation != None && o.secondHandoff.value.observation != Some(o.firstObservationId)
              && o.terminal != None && o.status == OfRun(o.terminal.value.status)
    ensures o.secondHandoff != None && o.secondHandoff.value.status != Completed ==>
              o.terminal == None && o.status == OfBroker(o.secondHandoff.value.status)
    ensures o.approvalHandoff != None ==>
              && o.approvalHandoff.value.status == ApprovalRequired && o.approvalHandoff.value.attempt == 1
              && o.secondHandoff != None && o.secondHandoff.value.attempt == 2 && o.approvalDigests != {}
              && o.approvalHandoff.value.agentOutcomeDigest == o.secondHandoff.value.agentOutcomeDigest
    ensures o.approvalHandoff == None ==> o.approvalDigests == {}
    ensures o.budget.providerAttempts == if o.terminal == None then 2 else 3
    ensures o.budget.brokerAttempts == 1 + (if o.secondHandoff == None then 0 else 1) + (if o.approvalHandoff == None then 0 else 1)
    ensures o.roundOutcome.Tokens() + (if o.terminal == None then 0 else o.terminal.value.agentOutcome.Tokens())
         <= o.budget.consumedModelTokens
  {
  }
}
