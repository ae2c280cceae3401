/** The bounded model loop: one claim, at most `maxSteps` model calls, exactly one outcome. */
module AgentRuntime {
  import opened Options
  import opened AgentRecords
  import opened ClaimProtocol

  datatype Decision =
    | ProposeTool(toolId: string, arguments: Option<seq<Argument>>, workingDirectory: string)
    | Conclude(complete: bool, summary: string)

  /** A model reply. `outputBytes` is the size of its structured output, None where it has no JSON
      form; `decision` is None where the output does not validate. */
  datatype Reply = Reply(inputTokens: nat, outputTokens: nat, latency: nat, knownModel: bool,
                         outputBytes: Option<nat>, decision: Option<Decision>)

  datatype Attempt =
    | RenderingTimedOut | RenderingRejected
    | TransportTimedOut | TransportRejected | AdapterFailed
    | Replied(reply: Reply)

  /** What renderer and model do at each step, counted from 1. */
  type Script = nat -> Attempt

  datatype Totals = Totals(input: nat, output: nat, elapsed: nat)
  {
    function Tokens(): nat { input + output }

    function Plus(attempt: Attempt): Totals {
      if attempt.Replied? then
        Totals(input + attempt.reply.inputTokens, output + attempt.reply.outputTokens, elapsed + attempt.reply.latency)
      else this
    }
  }

  /** The sums over the replies of the first `n` steps. */
  function After(script: Script, n: nat): Totals {
    if n == 0 then Totals(0, 0, 0) else After(script, n - 1).Plus(script(n))
  }

  function AvailableWall(plan: RunPlan, now: Time): int {
    Min(Min(plan.limits.timeout, plan.task.budget.wallSeconds * MICROSECONDS),
        Min(plan.deadline - now, plan.task.deadline - now))
  }

  function OutputLimit(maxOutputTokens: int): int {
    Min(1_048_576, Max(4096, maxOutputTokens * 16))
  }

  datatype Verdict =
    | Retry
    | Raise
    | Stop(status: RunStatus, intent: Option<ToolIntent>, summary: Option<string>, errors: seq<string>)

  function Failure(status: RunStatus, error: string): Verdict {
    Stop(status, None, None, [error])
  }

  function MaxOutput(plan: RunPlan, before: Totals): int {
    Min(plan.limits.maxOutputTokensPerStep, plan.task.budget.modelTokens - before.Tokens())
  }

  function JudgeDecision(plan: RunPlan, decision: Decision): Verdict {
    match decision
    case Conclude(complete, summary) => Stop(if complete then RunCompleted else RunBlocked, None, Some(summary), [])
    case ProposeTool(toolId, arguments, workingDirectory) =>
      if plan.task.budget.toolCalls < 1 || toolId !in plan.task.allowedTools then
        Failure(RunFailed, "tool_proposal_not_allowed")
      else if arguments.None? then Failure(RunFailed, "tool_proposal_invalid")
      else Stop(ToolProposed, Some(ToolIntent(toolId, arguments.value, workingDirectory)), None, [])
  }

  /** The checks on a reply, in the order they are made. */
  function JudgeReply(plan: RunPlan, now: Time, step: nat, before: Totals, reply: Reply): Verdict {
    var after := before.Plus(Replied(reply));
    if reply.outputBytes.None? || reply.outputBytes.value > OutputLimit(MaxOutput(plan, before)) then
      Failure(RunFailed, "structured_output_size_exceeded")
    else if after.elapsed > AvailableWall(plan, now) then Failure(RunTimedOut, "agent_wall_time_budget_exceeded")
    else if !reply.knownModel then Failure(RunFailed, "model_identity_mismatch")
    else if reply.outputTokens > MaxOutput(plan, before) || after.Tokens() > plan.task.budget.modelTokens then
      Failure(RunFailed, "model_token_budget_exceeded")
    else if reply.decision.None? then
      if step < plan.limits.maxSteps then Retry else Failure(RunFailed, "structured_output_invalid")
    else JudgeDecision(plan, reply.decision.value)
  }

  predicate Exhausted(plan: RunPlan, before: Totals) {
    plan.task.budget.modelTokens <= before.Tokens()
  }

  /** How a step ends that starts with `before` spent. */
  function JudgeAttempt(plan: RunPlan, now: Time, step: nat, before: Totals, attempt: Attempt): Verdict {
    if Exhausted(plan, before) then Failure(RunFailed, "model_token_budget_exhausted")
    else
      match attempt
      case RenderingTimedOut => Failure(RunTimedOut, "message_rendering_wall_time_exceeded")
      case RenderingRejected => Failure(RunFailed, "message_rendering_rejected")
      case TransportTimedOut => Failure(RunTimedOut, "provider_transport_timeout")
      case TransportRejected => Failure(RunFailed, "provider_transport_rejected")
      case AdapterFailed => Verdict.Raise
      case Replied(reply) => JudgeReply(plan, now, step, before, reply)
  }

  function Judge(plan: RunPlan, now: Time, script: Script, step: nat): Verdict
    requires step >= 1
  {
    JudgeAttempt(plan, now, step, After(script, step - 1), script(step))
  }

  /** The first step that does not ask for another one. */
  ghost predicate Decisive(plan: RunPlan, now: Time, script: Script, n: nat) {
    && 1 <= n <= plan.limits.maxSteps
    && !Judge(plan, now, script, n).Retry?
    && forall k :: 1 <= k < n ==> Judge(plan, now, script, k).Retry?
  }

  /** The totals in the outcome: a step that found no tokens left made no call. */
  function Charged(plan: RunPlan, script: Script, n: nat): Totals
    requires n >= 1
  {
    if Exhausted(plan, After(script, n - 1)) then After(script, n - 1) else After(script, n)
  }

  function OutcomeAt(plan: RunPlan, now: Time, script: Script, n: nat): RunOutcome
    requires n >= 1 && Judge(plan, now, script, n).Stop?
  {
    var v := Judge(plan, now, script, n);
    var charged := Charged(plan, script, n);
    RunOutcome(plan, plan.task.taskId, v.status, n, charged.input, charged.output, v.intent, v.summary, v.errors, now)
  }

  /** A run always reaches a decisive step: the last one never asks for another. */
  lemma {:induction false} SomeStepDecides(plan: RunPlan, now: Time, script: Script, from: nat)
    requires 1 <= from <= plan.limits.maxSteps
    requires forall k :: 1 <= k < from ==> Judge(plan, now, script, k).Retry?
    ensures exists n :: Decisive(plan, now, script, n)
    decreases plan.limits.maxSteps - from
  {
    hide JudgeAttempt, After;
    JudgeExactlyWhen(plan, now, from, After(script, from - 1), script(from));
    if Judge(plan, now, script, from).Retry? {
      SomeStepDecides(plan, now, script, from + 1);
    } else {
      assert Decisive(plan, now, script, from);
    }
  }

  predicate Acceptable(plan: RunPlan, now: Time, before: Totals, reply: Reply) {
    var after := before.Plus(Replied(reply));
    && reply.outputBytes.Some? && reply.outputBytes.value <= OutputLimit(MaxOutput(plan, before))
    && after.elapsed <= AvailableWall(plan, now)
    && reply.knownModel
    && reply.outputTokens <= MaxOutput(plan, before) && after.Tokens() <= plan.task.budget.modelTokens
  }

  /** A reply whose decision is an allowed tool call with a call left and that has well-formed arguments. */
  predicate ProposesAllowedTool(plan: RunPlan, reply: Reply) {
    && plan.task.budget.toolCalls >= 1
    && reply.decision.Some? && reply.decision.value.ProposeTool?
    && reply.decision.value.toolId in plan.task.allowedTools
    && reply.decision.value.arguments.Some?
  }

  function ProposedIntent(d: Decision): ToolIntent
    requires d.ProposeTool? && d.arguments.Some?
  {
    ToolIntent(d.toolId, d.arguments.value, d.workingDirectory)
  }

  predicate Proposed(v: Verdict) {
    v.Stop? && v.status.ToolProposed?
  }

  predicate Concluded(v: Verdict) {
    v.Stop? && (v.status.RunCompleted? || v.status.RunBlocked?)
  }

  /** Which attempts end a step how. A step asks for another exactly when its reply is acceptable and
      merely fails to validate; it proposes a tool exactly when an acceptable reply proposes one the
      task allows; it concludes exactly when an acceptable reply does; it breaks the run exactly when the
      adapter breaks; and in every other case the run fails or times out. */
  lemma JudgeExactlyWhen(plan: RunPlan, now: Time, step: nat, before: Totals, attempt: Attempt)
    ensures var v := JudgeAttempt(plan, now, step, before, attempt);
            var accepted := !Exhausted(plan, before) && attempt.Replied? && Acceptable(plan, now, before, attempt.reply);
            && (v.Retry? <==> accepted && attempt.reply.decision.None? && step < plan.limits.maxSteps)
            && (Proposed(v) <==> accepted && ProposesAllowedTool(plan, attempt.reply))
            && (Concluded(v) <==> accepted && attempt.reply.decision.Some? && attempt.reply.decision.value.Conclude?)
            && (v.Raise? <==> !Exhausted(plan, before) && attempt.AdapterFailed?)
            && (v.Stop? ==> Proposed(v) || Concluded(v) || Failed(v.status))
  {
  }

  /** A run proposes an intent exactly when its deciding reply is acceptable, proposes an allowed tool, and the
      intent is that tool with the reply's arguments and directory; every reply before it was acceptable
      and merely failed to validate. */
  lemma ProposesExactlyWhen(plan: RunPlan, now: Time, script: Script, n: nat, intent: ToolIntent)
    requires Decisive(plan, now, script, n)
    ensures Proposed(Judge(plan, now, script, n)) && OutcomeAt(plan, now, script, n).intent == Some(intent) <==>
      && !Exhausted(plan, After(script, n - 1)) && script(n).Replied?
      && Acceptable(plan, now, After(script, n - 1), script(n).reply)
      && ProposesAllowedTool(plan, script(n).reply) && intent == ProposedIntent(script(n).reply.decision.value)
    ensures forall k | 1 <= k < n ::
      script(k).Replied? && script(k).reply.decision.None? && Acceptable(plan, now, After(script, k - 1), script(k).reply)
  {
    hide JudgeAttempt, Acceptable, Exhausted, ProposesAllowedTool, After;
    JudgeExactlyWhen(plan, now, n, After(script, n - 1), script(n));
    if Proposed(Judge(plan, now, script, n)) {
      ProposalIsTheReplys(plan, now, n, After(script, n - 1), script(n));
    }
    forall k | 1 <= k < n
      ensures script(k).Replied? && script(k).reply.decision.None?
              && Acceptable(plan, now, After(script, k - 1), script(k).reply)
    {
      JudgeExactlyWhen(plan, now, k, After(script, k - 1), script(k));
    }
  }

  lemma ProposalIsTheReplys(plan: RunPlan, now: Time, step: nat, before: Totals, attempt: Attempt)
    requires Proposed(JudgeAttempt(plan, now, step, before, attempt))
    ensures attempt.Replied? && ProposesAllowedTool(plan, attempt.reply)
    ensures JudgeAttempt(plan, now, step, before, attempt).intent == Some(ProposedIntent(attempt.reply.decision.value))
  {
  }

  /** Every outcome is what the ledger expects, and one that is not a failure is within both budgets. */
  lemma OutcomesAreWithinBudget(plan: RunPlan, now: Time, script: Script, n: nat)
    requires Decisive(plan, now, script, n) && Judge(plan, now, script, n).Stop?
    ensures var o := OutcomeAt(plan, now, script, n);
            RunResultOk(plan, o)
            && (!Failed(o.status) ==> && o.Tokens() == After(script, n).Tokens()
                                      && After(script, n).elapsed <= AvailableWall(plan, now))
  {
    var before := After(script, n - 1);
    JudgeExactlyWhen(plan, now, n, before, script(n));
    StopsAreWellShaped(plan, now, n, before, script(n));
  }

  lemma StopsAreWellShaped(plan: RunPlan, now: Time, step: nat, before: Totals, attempt: Attempt)
    requires JudgeAttempt(plan, now, step, before, attempt).Stop?
    ensures var v := JudgeAttempt(plan, now, step, before, attempt);
            && (Proposed(v) ==> && v.summary.None? && v.errors == [] && v.intent.Some?
                                && v.intent.value.toolId == attempt.reply.decision.value.toolId)
            && (Concluded(v) ==> v.intent.None? && v.summary.Some? && v.errors == [])
            && (Failed(v.status) ==> v.intent.None? && v.summary.None? && v.errors != [])
  {
    JudgeExactlyWhen(plan, now, step, before, attempt);
  }

  /******* How a run ends, check by check *******/

  function SumOf(script: Script, n: nat, amount: Reply -> nat): nat {
    if n == 0 then 0 else SumOf(script, n - 1, amount) + if script(n).Replied? then amount(script(n).reply) else 0
  }

  function InputOf(script: Script, n: nat): nat {
    SumOf(script, n, (r: Reply) => r.inputTokens)
  }

  function OutputOf(script: Script, n: nat): nat {
    SumOf(script, n, (r: Reply) => r.outputTokens)
  }

  function ElapsedOf(script: Script, n: nat): nat {
    SumOf(script, n, (r: Reply) => r.latency)
  }

  lemma {:induction false} TotalsAreSums(script: Script, n: nat)
    ensures After(script, n) == Totals(InputOf(script, n), OutputOf(script, n), ElapsedOf(script, n))
  {
    if n > 0 {
      TotalsAreSums(script, n - 1);
    }
  }

  /** The tokens left before a step. */
  function Left(plan: RunPlan, script: Script, n: nat): int
    requires n >= 1
  {
    plan.task.budget.modelTokens - InputOf(script, n - 1) - OutputOf(script, n - 1)
  }

  /** The step got a reply, since there were tokens left to ask for one. */
  predicate Answered(plan: RunPlan, script: Script, n: nat) {
    n >= 1 && Left(plan, script, n) > 0 && script(n).Replied?
  }

  /** The model is asked at this step: there are tokens left, and the message can be rendered. */
  predicate Asked(plan: RunPlan, script: Script, n: nat) {
    n >= 1 && Left(plan, script, n) > 0 && !script(n).RenderingTimedOut? && !script(n).RenderingRejected?
  }

  /** At most a mebibyte, and at most 16 bytes for each token it may have, or 4096 in any case. */
  predicate SizeFits(plan: RunPlan, script: Script, n: nat) {
    && Answered(plan, script, n) && script(n).reply.outputBytes.Some?
    && var bytes := script(n).reply.outputBytes.value;
       && bytes <= 1_048_576
       && (bytes <= 4096 || (bytes <= 16 * plan.limits.maxOutputTokensPerStep && bytes <= 16 * Left(plan, script, n)))
  }

  predicate TimeFits(plan: RunPlan, now: Time, script: Script, n: nat) {
    var elapsed := ElapsedOf(script, n);
    && elapsed <= plan.limits.timeout && elapsed <= plan.task.budget.wallSeconds * MICROSECONDS
    && now + elapsed <= plan.deadline && now + elapsed <= plan.task.deadline
  }

  predicate TokensFit(plan: RunPlan, script: Script, n: nat) {
    && Answered(plan, script, n)
    && script(n).reply.outputTokens <= plan.limits.maxOutputTokensPerStep
    && script(n).reply.outputTokens <= Left(plan, script, n)
    && InputOf(script, n) + OutputOf(script, n) <= plan.task.budget.modelTokens
  }

  predicate Accepted(plan: RunPlan, now: Time, script: Script, n: nat) {
    && SizeFits(plan, script, n) && TimeFits(plan, now, script, n) && script(n).reply.knownModel
    && TokensFit(plan, script, n)
  }

  predicate Unreadable(plan: RunPlan, now: Time, script: Script, n: nat) {
    Accepted(plan, now, script, n) && script(n).reply.decision.None?
  }

  predicate Decides(plan: RunPlan, now: Time, script: Script, n: nat, decision: Decision) {
    Accepted(plan, now, script, n) && script(n).reply.decision == Some(decision)
  }

  predicate Allowed(plan: RunPlan, toolId: string) {
    plan.task.budget.toolCalls > 0 && toolId in plan.task.allowedTools
  }

  /** An outcome that proposes or concludes is what its reply decided. */
  ghost predicate EndsWell(plan: RunPlan, now: Time, script: Script, n: nat, o: RunOutcome) {
    && o.errors == []
    && match o.status
       case RunCompleted => o.intent.None? && o.summary.Some? && Decides(plan, now, script, n, Conclude(true, o.summary.value))
       case RunBlocked => o.intent.None? && o.summary.Some? && Decides(plan, now, script, n, Conclude(false, o.summary.value))
       case ToolProposed =>
         && o.summary.None? && o.intent.Some? && Allowed(plan, o.intent.value.toolId)
         && Decides(plan, now, script, n,
                    ProposeTool(o.intent.value.toolId, Some(o.intent.value.arguments), o.intent.value.workingDirectory))
       case _ => false
  }

  /** A failure or timeout carries the one error of the first check that failed. */
  ghost predicate EndsWith(plan: RunPlan, now: Time, script: Script, n: nat, status: RunStatus, error: string) {
    var asked := n >= 1 && Left(plan, script, n) > 0;
    match error
    case "model_token_budget_exhausted" => status == RunFailed && !asked
    case "message_rendering_wall_time_exceeded" => status == RunTimedOut && asked && script(n) == RenderingTimedOut
    case "message_rendering_rejected" => status == RunFailed && asked && script(n) == RenderingRejected
    case "provider_transport_timeout" => status == RunTimedOut && asked && script(n) == TransportTimedOut
    case "provider_transport_rejected" => status == RunFailed && asked && script(n) == TransportRejected
    case "structured_output_size_exceeded" => status == RunFailed && Answered(plan, script, n) && !SizeFits(plan, script, n)
    case "agent_wall_time_budget_exceeded" =>
      status == RunTimedOut && SizeFits(plan, script, n) && !TimeFits(plan, now, script, n)
    case "model_identity_mismatch" =>
      && status == RunFailed && SizeFits(plan, script, n) && TimeFits(plan, now, script, n)
      && !script(n).reply.knownModel
    case "model_token_budget_exceeded" =>
      && status == RunFailed && SizeFits(plan, script, n) && TimeFits(plan, now, script, n)
      && script(n).reply.knownModel && !TokensFit(plan, script, n)
    case "structured_output_invalid" => status == RunFailed && Unreadable(plan, now, script, n)
    case "tool_proposal_not_allowed" =>
      status == RunFailed && exists t, a, d :: Decides(plan, now, script, n, ProposeTool(t, a, d)) && !Allowed(plan, t)
    case "tool_proposal_invalid" =>
      status == RunFailed && exists t, d :: Decides(plan, now, script, n, ProposeTool(t, None, d)) && Allowed(plan, t)
    case _ => false
  }

  ghost predicate EndsAs(plan: RunPlan, now: Time, script: Script, n: nat, o: RunOutcome) {
    var charged := if n >= 1 && Left(plan, script, n) <= 0 then n - 1 else n;
    && o.planId == plan && o.taskId == plan.task.taskId && o.steps == n && o.completedAt == now
    && o.inputTokens == InputOf(script, charged) && o.outputTokens == OutputOf(script, charged)
    && if Failed(o.status) then
         o.intent.None? && o.summary.None? && |o.errors| == 1 && EndsWith(plan, now, script, n, o.status, o.errors[0])
       else EndsWell(plan, now, script, n, o)
  }

  /** A run's last step is the first whose reply is not merely unreadable, or the last one allowed. */
  ghost predicate LastStep(plan: RunPlan, now: Time, script: Script, n: nat) {
    && 1 <= n <= plan.limits.maxSteps
    && (forall k :: 1 <= k < n ==> Unreadable(plan, now, script, k))
    && (n < plan.limits.maxSteps ==> !Unreadable(plan, now, script, n))
  }

  lemma ChecksAreExact(plan: RunPlan, now: Time, script: Script, n: nat)
    requires n >= 1
    ensures var before := After(script, n - 1);
      && (Exhausted(plan, before) <==> Left(plan, script, n) <= 0)
      && (Answered(plan, script, n) ==>
            var reply := script(n).reply;
            && (SizeFits(plan, script, n) <==>
                  reply.outputBytes.Some? && reply.outputBytes.value <= OutputLimit(MaxOutput(plan, before)))
            && (TimeFits(plan, now, script, n) <==> After(script, n).elapsed <= AvailableWall(plan, now))
            && (TokensFit(plan, script, n) <==>
                  reply.outputTokens <= MaxOutput(plan, before) && After(script, n).Tokens() <= plan.task.budget.modelTokens)
            && (Accepted(plan, now, script, n) <==> Acceptable(plan, now, before, reply)))
  {
    hide After, InputOf, OutputOf, ElapsedOf;
    TotalsAreSums(script, n - 1);
    TotalsAreSums(script, n);
    assert Answered(plan, script, n) ==> After(script, n) == After(script, n - 1).Plus(script(n)) by { OneMoreStep(script, n); }
  }

  lemma OneMoreStep(script: Script, n: nat)
    requires n >= 1
    ensures After(script, n) == After(script, n - 1).Plus(script(n))
  {
  }

  /** A step asks for another exactly if its reply is merely unreadable and there is another. */
  lemma RetriesExactlyWhen(plan: RunPlan, now: Time, script: Script, n: nat)
    requires n >= 1
    ensures Judge(plan, now, script, n).Retry? <==> Unreadable(plan, now, script, n) && n < plan.limits.maxSteps
    ensures Judge(plan, now, script, n).Raise? <==> Left(plan, script, n) > 0 && script(n) == AdapterFailed
  {
    hide After, Acceptable, Left, Exhausted, SizeFits, TimeFits, TokensFit;
    assert SizeFits(plan, script, n) ==> Answered(plan, script, n) by { FittingIsAnswered(plan, script, n); }
    JudgeExactlyWhen(plan, now, n, After(script, n - 1), script(n));
    ChecksAreExact(plan, now, script, n);
  }

  lemma DecidesAtTheLastStep(plan: RunPlan, now: Time, script: Script, n: nat)
    ensures Decisive(plan, now, script, n) <==> LastStep(plan, now, script, n)
  {
    hide Judge, Unreadable;
    forall k | 1 <= k <= n
      ensures Judge(plan, now, script, k).Retry? <==> Unreadable(plan, now, script, k) && k < plan.limits.maxSteps
    {
      RetriesExactlyWhen(plan, now, script, k);
    }
  }

  lemma FittingIsAnswered(plan: RunPlan, script: Script, n: nat)
    ensures SizeFits(plan, script, n) || TokensFit(plan, script, n) ==> Answered(plan, script, n)
  {
  }

  lemma UnansweredFailsExactlyWhen(plan: RunPlan, now: Time, script: Script, n: nat, status: RunStatus, error: string)
    requires n >= 1 && !Answered(plan, script, n)
    ensures Judge(plan, now, script, n) == Failure(status, error) <==> EndsWith(plan, now, script, n, status, error)
  {
    hide After, Left, SizeFits, TimeFits, TokensFit, Exhausted, JudgeReply;
    FittingIsAnswered(plan, script, n);
    ChecksAreExact(plan, now, script, n);
  }

  lemma RefusedFailsExactlyWhen(plan: RunPlan, now: Time, script: Script, n: nat, status: RunStatus, error: string)
    requires Answered(plan, script, n) && !Accepted(plan, now, script, n)
    ensures Judge(plan, now, script, n) == Failure(status, error) <==> EndsWith(plan, now, script, n, status, error)
  {
    hide After, OutputLimit, MaxOutput, AvailableWall, Left, SizeFits, TimeFits, TokensFit, Exhausted, JudgeDecision, Allowed;
    FittingIsAnswered(plan, script, n);
    ChecksAreExact(plan, now, script, n);
    OneMoreStep(script, n);
  }

  lemma AcceptedFailsExactlyWhen(plan: RunPlan, now: Time, script: Script, n: nat, status: RunStatus, error: string)
    requires Accepted(plan, now, script, n) && (n < plan.limits.maxSteps ==> !Unreadable(plan, now, script, n))
    ensures Judge(plan, now, script, n) == Failure(status, error) <==> EndsWith(plan, now, script, n, status, error)
  {
    hide After, OutputLimit, MaxOutput, AvailableWall, Left, SizeFits, TimeFits, TokensFit, Exhausted, JudgeReply, JudgeDecision;
    FittingIsAnswered(plan, script, n);
    AcceptedIsJudgedByDecision(plan, now, script, n);
    var decision := script(n).reply.decision;
    if decision.Some? {
      DecisionFailsExactlyWhen(plan, decision.value, status, error);
      assert forall d :: Decides(plan, now, script, n, d) <==> d == decision.value;
    }
  }

  lemma AcceptedIsJudgedByDecision(plan: RunPlan, now: Time, script: Script, n: nat)
    requires Accepted(plan, now, script, n)
    ensures n >= 1
    ensures var decision := script(n).reply.decision;
            Judge(plan, now, script, n) ==
              if decision.Some? then JudgeDecision(plan, decision.value)
              else if n < plan.limits.maxSteps then Retry else Failure(RunFailed, "structured_output_invalid")
  {
    hide After, OutputLimit, MaxOutput, AvailableWall, Left, SizeFits, TimeFits, TokensFit, Exhausted, JudgeDecision;
    FittingIsAnswered(plan, script, n);
    ChecksAreExact(plan, now, script, n);
    OneMoreStep(script, n);
  }

  lemma DecisionFailsExactlyWhen(plan: RunPlan, decision: Decision, status: RunStatus, error: string)
    ensures JudgeDecision(plan, decision) == Failure(status, error) <==>
      && status == RunFailed && decision.ProposeTool?
      && if Allowed(plan, decision.toolId) then decision.arguments.None? && error == "tool_proposal_invalid"
         else error == "tool_proposal_not_allowed"
  {
  }

  /** Each error has its own cause. */
  lemma FailsExactlyWhen(plan: RunPlan, now: Time, script: Script, n: nat, status: RunStatus, error: string)
    requires LastStep(plan, now, script, n)
    ensures Judge(plan, now, script, n) == Failure(status, error) <==> EndsWith(plan, now, script, n, status, error)
  {
    hide Judge, EndsWith, Answered, Accepted, Unreadable;
    if !Answered(plan, script, n) {
      UnansweredFailsExactlyWhen(plan, now, script, n, status, error);
    } else if !Accepted(plan, now, script, n) {
      RefusedFailsExactlyWhen(plan, now, script, n, status, error);
    } else {
      AcceptedFailsExactlyWhen(plan, now, script, n, status, error);
    }
  }

  lemma EndsWellExactlyWhen(plan: RunPlan, now: Time, script: Script, n: nat, o: RunOutcome)
    requires n >= 1
    ensures Judge(plan, now, script, n) == Stop(o.status, o.intent, o.summary, o.errors) && !Failed(o.status)
      <==> EndsWell(plan, now, script, n, o)
  {
    hide After, OutputLimit, MaxOutput, AvailableWall, Left, SizeFits, TimeFits, TokensFit, Exhausted;
    FittingIsAnswered(plan, script, n);
    ChecksAreExact(plan, now, script, n);
    OneMoreStep(script, n);
  }

  /** The outcome of a run's last step is the one whose status, content and error its reply and the sums over all
      replies call for. */
  lemma OutcomeExactlyWhen(plan: RunPlan, now: Time, script: Script, n: nat, o: RunOutcome)
    requires LastStep(plan, now, script, n)
    ensures Judge(plan, now, script, n).Stop? && o == OutcomeAt(plan, now, script, n) <==> EndsAs(plan, now, script, n, o)
  {
    hide After, InputOf, OutputOf, ElapsedOf, EndsWith, EndsWell, JudgeAttempt, LastStep;
    assert n >= 1 by { DecidesAtTheLastStep(plan, now, script, n); }
    ChecksAreExact(plan, now, script, n);
    TotalsAreSums(script, n - 1);
    TotalsAreSums(script, n);
    EndsWellExactlyWhen(plan, now, script, n, o);
    FailuresHaveOneError(plan, now, script, n);
    if |o.errors| == 1 {
      FailsExactlyWhen(plan, now, script, n, o.status, o.errors[0]);
      assert o.errors == [o.errors[0]];
    }
  }

  /** A failure has one error and nothing else. */
  lemma FailuresHaveOneError(plan: RunPlan, now: Time, script: Script, n: nat)
    requires n >= 1
    ensures var v := Judge(plan, now, script, n);
            v.Stop? && Failed(v.status) ==> v.intent.None? && v.summary.None? && |v.errors| == 1
  {
    hide After, AvailableWall, OutputLimit, MaxOutput, Exhausted;
  }

  /** The run ends with this outcome. */
  ghost predicate RunEnds(plan: RunPlan, now: Time, script: Script, o: RunOutcome) {
    exists n :: LastStep(plan, now, script, n) && EndsAs(plan, now, script, n, o)
  }

  lemma RunEndsAtItsDecision(plan: RunPlan, now: Time, script: Script, step: nat, o: RunOutcome)
    requires Decisive(plan, now, script, step)
    ensures RunEnds(plan, now, script, o) <==> Judge(plan, now, script, step).Stop? && o == OutcomeAt(plan, now, script, step)
  {
    hide EndsAs, Unreadable, Judge, OutcomeAt, Decisive;
    DecidesAtTheLastStep(plan, now, script, step);
    OutcomeExactlyWhen(plan, now, script, step, o);
    if n :| LastStep(plan, now, script, n) && EndsAs(plan, now, script, n, o) {
      assert n == step;
    }
  }

  /** Asking for the run now gives this outcome: it is stored, or the plan can be claimed and its run ends so. */
  ghost predicate RunGives(rows: map<RunPlan, Checkpoint<RunOutcome>>, columns: RunPlan -> set<string>, plan: RunPlan,
                           now: Time, script: Script, o: RunOutcome)
  {
    && plan.createdAt <= now < plan.deadline && now < plan.task.deadline
    && script(1) != RenderingTimedOut && script(1) != RenderingRejected
    && if plan in rows then rows[plan] == Done(o)
       else !Conflicts(columns, rows, plan) && RunEnds(plan, now, script, o)
  }

  datatype ExecuteReply =
    | Finished(outcome: RunOutcome)
    | Replayed(outcome: RunOutcome)
    | AdapterFailure
    | NotActive
    | RenderingRefused
    | Recovery
    | Conflict

  class OfflineAgentRuntime {
    const store: CheckpointStore<RunPlan, RunOutcome, string>

    constructor (store: CheckpointStore<RunPlan, RunOutcome, string>)
      ensures this.store == store
    {
      this.store := store;
    }

    predicate Active(plan: RunPlan, now: Time) {
      plan.createdAt <= now < plan.deadline && now < plan.task.deadline
    }

    /** One pass of the loop: ask the model unless the tokens are gone, and judge what comes back. */
    method Step(plan: RunPlan, now: Time, script: Script, step: nat, before: Totals)
      returns (verdict: Verdict, after: Totals, called: bool)
      requires 1 <= step && before == After(script, step - 1)
      ensures verdict == Judge(plan, now, script, step)
      ensures after == Charged(plan, script, step)
      ensures called <==> Asked(plan, script, step)
      ensures verdict.Retry? ==> called
    {
      ChecksAreExact(plan, now, script, step);
      after, called := before, false;
      if Exhausted(plan, before) {
        return Failure(RunFailed, "model_token_budget_exhausted"), before, false;
      }
      match script(step) {
        case RenderingTimedOut => verdict := Failure(RunTimedOut, "message_rendering_wall_time_exceeded");
        case RenderingRejected => verdict := Failure(RunFailed, "message_rendering_rejected");
        case TransportTimedOut => verdict, called := Failure(RunTimedOut, "provider_transport_timeout"), true;
        case TransportRejected => verdict, called := Failure(RunFailed, "provider_transport_rejected"), true;
        case AdapterFailed => verdict, called := Verdict.Raise, true;
        case Replied(reply) =>
          after, called := before.Plus(script(step)), true;
          verdict := JudgeReply(plan, now, step, before, reply);
      }
    }

    /** The loop: passes until one decides, which one of the allowed steps always does. */
    method Decide(plan: RunPlan, now: Time, script: Script)
      returns (verdict: Verdict, step: nat, totals: Totals, calls: nat)
      requires plan.limits.Valid()
      ensures Decisive(plan, now, script, step) && step <= plan.limits.maxSteps
      ensures calls == if Asked(plan, script, step) then step else step - 1
      ensures verdict == Judge(plan, now, script, step) && totals == Charged(plan, script, step)
    {
      step, calls, totals := 0, 0, Totals(0, 0, 0);
      for next := 1 to plan.limits.maxSteps + 1
        invariant step == next - 1 == calls && step < plan.limits.maxSteps
        invariant totals == After(script, step)
        invariant forall k :: 1 <= k <= step ==> Judge(plan, now, script, k).Retry?
      {
        step := next;
        var after: Totals;
        var called: bool;
        verdict, after, called := Step(plan, now, script, step, totals);
        totals, calls := after, if called then calls + 1 else calls;
        if !verdict.Retry? {
          return;
        }
        JudgeExactlyWhen(plan, now, step, After(script, step - 1), script(step));
      }
      assert false;
    }

    /** The first request is prepared before the claim, so a plan whose first message cannot be rendered
        leaves no trace. After the claim one outcome is written, unless the adapter breaks, which
        leaves the row started. `step` is the deciding step of a fresh run. */
    method Execute(plan: RunPlan, now: Time, script: Script) returns (reply: ExecuteReply, step: nat, calls: nat)
      requires store.Valid() && forall o: RunOutcome :: store.planOf(o) == o.planId
      requires plan.limits.Valid() && plan.task.budget.modelTokens > 0
      modifies store
      ensures store.Valid()
      ensures step <= plan.limits.maxSteps
      ensures calls == if (reply.Finished? || reply.AdapterFailure?) && !Asked(plan, script, step) then step - 1 else step
      ensures reply.NotActive? <==> !Active(plan, now)
      ensures reply.RenderingRefused? <==> Active(plan, now) && (script(1).RenderingTimedOut? || script(1).RenderingRejected?)
      ensures reply.Replayed? ==> plan in old(store.rows) && old(store.rows)[plan] == Done(reply.outcome)
      ensures reply.Recovery? ==> plan in old(store.rows) && old(store.rows)[plan].Started?
      ensures reply.Conflict? ==> plan !in old(store.rows)
      ensures reply.Finished? || reply.AdapterFailure? ==>
                plan !in old(store.rows) && Decisive(plan, now, script, step)
      ensures reply.Finished? ==>
                && Judge(plan, now, script, step).Stop?
                && reply.outcome == OutcomeAt(plan, now, script, step)
                && store.rows == old(store.rows)[plan := Done(reply.outcome)]
      ensures reply.AdapterFailure? ==>
                Judge(plan, now, script, step).Raise? && store.rows == old(store.rows)[plan := Started]
      ensures !reply.Finished? && !reply.AdapterFailure? ==> store.rows == old(store.rows) && calls == 0
      ensures forall o :: (reply.Finished? || reply.Replayed?) && reply.outcome == o <==>
                          RunGives(old(store.rows), store.columns, plan, now, script, o)
    {
      step, calls := 0, 0;
      if !Active(plan, now) {
        return NotActive, 0, 0;
      }
      if script(1).RenderingTimedOut? || script(1).RenderingRejected? {
        return RenderingRefused, 0, 0;
      }
      var claim := store.Claim(plan);
      match claim {
        case Replay(outcome) => return Replayed(outcome), 0, 0;
        case RecoveryRequired => return Recovery, 0, 0;
        case KeyConflict => return Conflict, 0, 0;
        case ContentConflict => return Conflict, 0, 0;
        case Created =>
      }
      hide Judge, Charged, RunEnds, Conflicts;
      var verdict, decided, totals, called := Decide(plan, now, script);
      step, calls := decided, called;
      forall o ensures RunEnds(plan, now, script, o) <==> verdict.Stop? && o == OutcomeAt(plan, now, script, step) {
        RunEndsAtItsDecision(plan, now, script, step, o);
      }
      if verdict.Raise? {
        return AdapterFailure, step, calls;
      }
      var outcome := RunOutcome(plan, plan.task.taskId, verdict.status, step, totals.input, totals.output,
                                verdict.intent, verdict.summary, verdict.errors, now);
      var written := store.Complete(outcome);
      return Finished(outcome), step, calls;
    }
  }
}
