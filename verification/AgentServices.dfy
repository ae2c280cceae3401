/** The handoff and continuation services: preflight on the ledgers, one claim, one effect, one outcome. */
module AgentServices {
  import opened Options
  import opened AgentRecords
  import opened ClaimProtocol
  import opened AgentRuntime
  import opened BrokerLoop
  import opened HandoffLedger

  /******* Handoffs *******/

  datatype HandoffReply =
    | HandoffFinished(outcome: HandoffOutcome)
    | HandoffReplayed(outcome: HandoffOutcome)
    | HandoffTimedOut
    | HandoffRejected
    /** The Broker refused a call it had validated; the row stays started. */
    | BrokerRejected
    | HandoffRecovery
    | HandoffConflict

  /** What the Broker does with a call: refuse it before or after the claim, or work on it. */
  datatype BrokerScript = BrokerScript(validates: bool, rejects: bool, limits: HttpLimits, turns: Turns)

  /** The run ledger holds the very proposal the handoff is for, and the handoff's lifetime has begun and not ended. */
  predicate HandoffIsDue(runs: map<RunPlan, Checkpoint<RunOutcome>>, plan: HandoffPlan, now: Time) {
    && plan.createdAt <= now && now < plan.deadline && now < plan.agentPlan.task.deadline && now < plan.createdAt + plan.timeout
    && plan.agentPlan in runs && runs[plan.agentPlan] == Done(plan.agentOutcomeDigest)
    && plan.agentOutcomeDigest.status == RunStatus.ToolProposed
    && plan.agentOutcomeDigest.intent == Some(plan.call.Intent())
  }

  /** Asking for the handoff now gives this outcome: it is stored, or it is admitted and what the Broker made. */
  ghost predicate HandoffGives(runs: map<RunPlan, Checkpoint<RunOutcome>>, rows: Rows, plan: HandoffPlan, now: Time,
                               broker: BrokerScript, o: HandoffOutcome)
  {
    && HandoffIsDue(runs, plan, now) && broker.validates
    && if plan in rows then rows[plan] == Done(o)
       else
         && Admits(rows, plan) && !broker.rejects
         && CallGives(plan.call, broker.limits, broker.turns, plan.agentPlan.task.deadline - now, o.result)
         && o == HandoffOutcome(plan, plan.agentPlan, plan.agentOutcomeDigest, plan.call, plan.attempt, o.result.status,
                                o.result, if o.result.status == Completed then Some(Observation(plan, o.result, now)) else None,
                                now)
  }

  class AgentToolHandoffService {
    const runs: CheckpointStore<RunPlan, RunOutcome, string>
    const handoffs: HandoffStore

    constructor (runs: CheckpointStore<RunPlan, RunOutcome, string>, handoffs: HandoffStore)
      ensures this.runs == runs && this.handoffs == handoffs
    {
      this.runs, this.handoffs := runs, handoffs;
    }

    predicate InWindow(plan: HandoffPlan, now: Time) {
      plan.createdAt <= now < plan.deadline && now < plan.agentPlan.task.deadline && now - plan.createdAt < plan.timeout
    }

    /** The run ledger holds the very outcome the handoff is for, and its intent is the call's. */
    predicate Bound(plan: HandoffPlan)
      reads runs
    {
      && plan.agentPlan in runs.rows && runs.rows[plan.agentPlan] == Done(plan.agentOutcomeDigest)
      && plan.agentOutcomeDigest.status.ToolProposed?
      && plan.agentOutcomeDigest.intent == Some(plan.call.Intent())
    }

    /** The Broker acts only under a claim of its own, made for the intent the ledger holds, and what is
        then recorded is what it did. */
    method Execute(plan: HandoffPlan, now: Time, broker: BrokerScript) returns (reply: HandoffReply)
      requires runs.Valid() && handoffs.Valid() && plan.WellShaped()
      modifies handoffs
      ensures handoffs.Valid()
      ensures reply.HandoffTimedOut? <==> !InWindow(plan, now)
      ensures reply.HandoffRejected? <==> InWindow(plan, now) && !(Bound(plan) && broker.validates)
      ensures reply.HandoffFinished? || reply.BrokerRejected? <==>
                InWindow(plan, now) && Bound(plan) && broker.validates && Admits(old(handoffs.rows), plan)
      ensures reply.HandoffFinished? ==>
                && HandoffResultOk(plan, reply.outcome)
                && handoffs.rows == old(handoffs.rows)[plan := Done(reply.outcome)]
      ensures reply.BrokerRejected? ==> handoffs.rows == old(handoffs.rows)[plan := Started]
      ensures reply.HandoffReplayed? ==> plan in old(handoffs.rows) && old(handoffs.rows)[plan] == Done(reply.outcome)
      ensures !reply.HandoffFinished? && !reply.BrokerRejected? ==> handoffs.rows == old(handoffs.rows)
      ensures forall o :: (reply.HandoffFinished? || reply.HandoffReplayed?) && reply.outcome == o <==>
                          HandoffGives(runs.rows, old(handoffs.rows), plan, now, broker, o)
    {
      hide Sound, Admits, BrokerResultOk, KeyTaken, BrokerCall.Intent, CallGives;
      if !InWindow(plan, now) {
        return HandoffTimedOut;
      }
      var authoritative := runs.RequireCompleted(plan.agentPlan);
      if authoritative != Some(plan.agentOutcomeDigest) || !plan.agentOutcomeDigest.status.ToolProposed?
         || plan.agentOutcomeDigest.intent != Some(plan.call.Intent()) || !broker.validates {
        return HandoffRejected;
      }
      var claim := handoffs.Claim(plan);
      match claim {
        case Replay(outcome) => return HandoffReplayed(outcome);
        case RecoveryRequired => return HandoffRecovery;
        case KeyConflict => return HandoffConflict;
        case ContentConflict => return HandoffConflict;
        case Created =>
      }
      if broker.rejects {
        return BrokerRejected;
      }
      var untilDeadline := plan.agentPlan.task.deadline - now;
      var result, _ := ExecuteHttp(plan.call, broker.limits, broker.turns, untilDeadline);
      forall other | CallGives(plan.call, broker.limits, broker.turns, untilDeadline, other) ensures other == result {
        CallGivesOneResult(plan.call, broker.limits, broker.turns, untilDeadline, result, other);
      }
      var observation := if result.status.Completed? then Some(Observation(plan, result, now)) else None;
      var outcome := HandoffOutcome(plan, plan.agentPlan, plan.agentOutcomeDigest, plan.call, plan.attempt,
                                    result.status, result, observation, now);
      var written := handoffs.Complete(outcome);
      return HandoffFinished(outcome);
    }
  }

  /******* Continuations *******/

  datatype ContinuationReply =
    | ContinuationFinished(outcome: ContinuationOutcome)
    | ContinuationReplayed(outcome: ContinuationOutcome)
    | ContinuationTimedOut
    | ContinuationRejected
    /** The claim was made but the run behind it gave no outcome; the row stays started. */
    | RunUnavailable
    | ContinuationRecovery
    | ContinuationConflict

  /** Both ledgers hold what the continuation continues, and its lifetime has begun and not ended. */
  predicate ContinuationIsDue(runs: map<RunPlan, Checkpoint<RunOutcome>>, handoffs: Rows, plan: ContinuationPlan, now: Time) {
    && plan.createdAt <= now && now < plan.deadline && now < plan.rootPlan.task.deadline && now < plan.plan.task.deadline
    && plan.rootPlan in runs && runs[plan.rootPlan] == Done(plan.rootOutcome)
    && plan.handoff.handoffId in handoffs && handoffs[plan.handoff.handoffId] == Done(plan.handoff)
    && plan.rootOutcome.status == RunStatus.ToolProposed
    && plan.handoff.status == Completed && plan.handoff.observation != None
    && plan.handoff.agentPlanId == plan.rootPlan && plan.handoff.agentOutcomeDigest == plan.rootOutcome
  }

  /** Asking for the continuation now gives this outcome: it is stored, or it can be claimed and its run answers. */
  ghost predicate ContinuationGives(runs: map<RunPlan, Checkpoint<RunOutcome>>, handoffs: Rows,
                                    answers: map<RunPlan, Checkpoint<RunOutcome>>, runColumns: RunPlan -> set<string>,
                                    rows: map<ContinuationPlan, Checkpoint<ContinuationOutcome>>,
                                    columns: ContinuationPlan -> set<string>, plan: ContinuationPlan, now: Time,
                                    script: Script, o: ContinuationOutcome)
  {
    && ContinuationIsDue(runs, handoffs, plan, now)
    && if plan in rows then rows[plan] == Done(o)
       else
         && !Conflicts(columns, rows, plan)
         && RunGives(answers, runColumns, plan.plan, now, script, o.agentOutcome)
         && o == ContinuationOutcome(plan, plan.rootPlan, plan.observationId, plan.plan, o.agentOutcome.status,
                                     o.agentOutcome, now)
  }

  class AgentContinuationService {
    const runs: CheckpointStore<RunPlan, RunOutcome, string>
    const handoffs: HandoffStore
    const continuations: CheckpointStore<ContinuationPlan, ContinuationOutcome, string>
    const runtime: OfflineAgentRuntime

    constructor (runs: CheckpointStore<RunPlan, RunOutcome, string>, handoffs: HandoffStore,
                 continuations: CheckpointStore<ContinuationPlan, ContinuationOutcome, string>,
                 runtime: OfflineAgentRuntime)
      ensures this.runs == runs && this.handoffs == handoffs
      ensures this.continuations == continuations && this.runtime == runtime
    {
      this.runs, this.handoffs, this.continuations, this.runtime := runs, handoffs, continuations, runtime;
    }

    predicate InWindow(plan: ContinuationPlan, now: Time) {
      plan.createdAt <= now < Min(plan.deadline, Min(plan.rootPlan.task.deadline, plan.plan.task.deadline))
    }

    predicate Bound(plan: ContinuationPlan)
      reads runs, handoffs
    {
      && plan.rootPlan in runs.rows && runs.rows[plan.rootPlan] == Done(plan.rootOutcome)
      && plan.handoff.handoffId in handoffs.rows && handoffs.rows[plan.handoff.handoffId] == Done(plan.handoff)
      && plan.rootOutcome.status.ToolProposed?
      && plan.handoff.status.Completed? && plan.handoff.observation.Some?
      && plan.handoff.agentPlanId == plan.rootPlan && plan.handoff.agentOutcomeDigest == plan.rootOutcome
    }

    lemma RunIsAskable(plan: ContinuationPlan)
      requires plan.WellShaped()
      ensures plan.plan.task.budget.modelTokens > 0
    {
    }

    lemma NoToolsNoProposal(plan: ContinuationPlan, answer: RunOutcome)
      requires plan.WellShaped() && RunResultOk(plan.plan, answer)
      ensures !answer.status.ToolProposed?
    {
    }

    method Preflight(plan: ContinuationPlan, now: Time) returns (ok: bool)
      requires runs.Valid() && handoffs.Valid()
      ensures ok <==> Bound(plan)
      ensures ok && InWindow(plan, now) <==> ContinuationIsDue(runs.rows, handoffs.rows, plan, now)
    {
      var root := runs.RequireCompleted(plan.rootPlan);
      var handoff := handoffs.RequireCompleted(plan.handoff.handoffId);
      ok := && root == Some(plan.rootOutcome) && handoff == Some(plan.handoff)
            && plan.rootOutcome.status.ToolProposed?
            && plan.handoff.status.Completed? && plan.handoff.observation.Some?
            && plan.handoff.agentPlanId == plan.rootPlan && plan.handoff.agentOutcomeDigest == plan.rootOutcome;
    }

    /** The model turn of a plan that can be asked for: its fresh or stored outcome, or nothing. */
    method Answer(plan: RunPlan, now: Time, script: Script) returns (answer: Option<RunOutcome>)
      requires runtime.store.Valid() && forall o :: runtime.store.planOf(o) == o.planId
      requires forall p | p in runtime.store.rows && runtime.store.rows[p].Done? ::
                 RunResultOk(p, runtime.store.rows[p].outcome)
      requires plan.limits.Valid() && plan.task.budget.modelTokens > 0
      modifies runtime.store
      ensures runtime.store.Valid()
      ensures forall o :: answer == Some(o) <==> RunGives(old(runtime.store.rows), runtime.store.columns, plan, now, script, o)
      ensures answer.Some? ==> && RunResultOk(plan, answer.value) && plan in runtime.store.rows
                               && runtime.store.rows[plan] == Done(answer.value)
      ensures answer.None? ==> || !runtime.Active(plan, now) || script(1).RenderingTimedOut? || script(1).RenderingRejected?
                               || plan !in runtime.store.rows || runtime.store.rows[plan].Started?
    {
      hide Conflicts, UniqueColumns, Decisive, OutcomeAt, Judge, RunGives;
      var run, step, _ := runtime.Execute(plan, now, script);
      if run.Finished? {
        OutcomesAreWithinBudget(plan, now, script, step);
      }
      return if run.Finished? || run.Replayed? then Some(run.outcome) else None;
    }

    /** The one model turn a continuation gets cannot propose a tool, since its task allows none. */
    method Execute(plan: ContinuationPlan, now: Time, script: Script) returns (reply: ContinuationReply)
      requires runs.Valid() && handoffs.Valid() && continuations.Valid() && runtime.store.Valid()
      requires forall o :: continuations.planOf(o) == o.continuationId
      requires forall o :: runtime.store.planOf(o) == o.planId
      requires forall p | p in runtime.store.rows && runtime.store.rows[p].Done? ::
                 RunResultOk(p, runtime.store.rows[p].outcome)
      requires plan.WellShaped() && plan.plan.limits.Valid()
      modifies continuations, runtime.store
      ensures continuations.Valid() && runtime.store.Valid()
      ensures reply.ContinuationTimedOut? <==> !InWindow(plan, now)
      ensures reply.ContinuationRejected? <==> InWindow(plan, now) && !old(Bound(plan))
      ensures reply.ContinuationFinished? ==>
                && ContinuationResultOk(plan, reply.outcome)
                && continuations.rows == old(continuations.rows)[plan := Done(reply.outcome)]
                && plan.plan in runtime.store.rows && runtime.store.rows[plan.plan] == Done(reply.outcome.agentOutcome)
      ensures reply.ContinuationFinished? || reply.RunUnavailable? <==>
                && InWindow(plan, now) && old(Bound(plan))
                && plan !in old(continuations.rows)
                && !Conflicts(continuations.columns, old(continuations.rows), plan)
      ensures reply.RunUnavailable? ==>
                || !runtime.Active(plan.plan, now) || script(1).RenderingTimedOut? || script(1).RenderingRejected?
                || plan.plan !in runtime.store.rows || runtime.store.rows[plan.plan].Started?
      ensures reply.ContinuationReplayed? ==>
                plan in old(continuations.rows) && old(continuations.rows)[plan] == Done(reply.outcome)
      ensures reply.RunUnavailable? ==> continuations.rows == old(continuations.rows)[plan := Started]
      ensures !reply.ContinuationFinished? && !reply.RunUnavailable? ==>
                continuations.rows == old(continuations.rows) && runtime.store.rows == old(runtime.store.rows)
      ensures forall o :: (reply.ContinuationFinished? || reply.ContinuationReplayed?) && reply.outcome == o <==>
                          ContinuationGives(old(runs.rows), handoffs.rows, old(runtime.store.rows), runtime.store.columns,
                                            old(continuations.rows), continuations.columns, plan, now, script, o)
    {
      hide Sound, Conflicts, UniqueColumns, RunResultOk, RunGives, ContinuationPlan.WellShaped;
      if !InWindow(plan, now) {
        return ContinuationTimedOut;
      }
      var ok := Preflight(plan, now);
      if !ok {
        return ContinuationRejected;
      }
      var claim := continuations.Claim(plan);
      match claim {
        case Replay(outcome) => return ContinuationReplayed(outcome);
        case RecoveryRequired => return ContinuationRecovery;
        case KeyConflict => return ContinuationConflict;
        case ContentConflict => return ContinuationConflict;
        case Created =>
      }
      RunIsAskable(plan);
      var given := Answer(plan.plan, now, script);
      if given.None? {
        return RunUnavailable;
      }
      var answer := given.value;
      // The service raises on a tool proposal here; the check cannot fire.
      assert !answer.status.ToolProposed? by { NoToolsNoProposal(plan, answer); }
      var outcome := ContinuationOutcome(plan, plan.rootPlan, plan.observationId, plan.plan, answer.status, answer, now);
      var written := continuations.Complete(outcome);
      return ContinuationFinished(outcome);
    }
  }
}
