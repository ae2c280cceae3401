/** The session orchestrator: it drives the run, handoff, continuation and session stores in order. */
module AgentSessions {
  import opened Options
  import opened AgentRecords
  import opened SessionOutcomes
  import opened AgentRuntime
  import opened AgentServices
  import CP = ClaimProtocol
  import HL = HandoffLedger
  import SL = SessionLedger

  datatype SessionReply =
    | Finished(outcome: SessionOutcome)
    | Replayed(outcome: SessionOutcome)
    | TimedOut
    | Rejected
    /** Something after the claim raised; the row keeps the state the claim gave it. */
    | Raised
    | Unavailable

  /** What the world does during one call: the model in the round and in the continuation, and the Broker. */
  datatype Oracle = Oracle(round: Script, broker: BrokerScript, terminal: Script,
                           continuationKey: string, continuationRunKey: string, continuationTaskId: nat, assembled: bool)

  /** What the ledgers hold at one moment. */
  datatype Books = Books(
    runs: map<RunPlan, CP.Checkpoint<RunOutcome>>, runColumns: RunPlan -> set<string>, handoffs: HL.Rows,
    continuations: map<ContinuationPlan, CP.Checkpoint<ContinuationOutcome>>,
    continuationColumns: ContinuationPlan -> set<string>)

  /** Asking for the round gives this outcome. */
  ghost predicate RoundGives(b: Books, plan: SessionPlan, now: Time, script: Script, round: RunOutcome) {
    plan.roundPlan.task.budget.modelTokens > 0 && RunGives(b.runs, b.runColumns, plan.roundPlan, now, script, round)
  }

  /** Asking for the handoff, if the round calls for one, and then for the continuation, if the handoff
      completed, gives these outcomes. */
  ghost predicate CallGives(b: Books, plan: SessionPlan, round: RunOutcome, h: Option<HandoffPlan>, now: Time, oracle: Oracle,
                            second: Option<HandoffOutcome>, terminal: Option<ContinuationOutcome>)
  {
    && (second == None <==> h == None)
    && (h != None ==> HandoffGives(b.runs, b.handoffs, h.value, now, oracle.broker, second.value))
    && (terminal != None <==> second != None && second.value.status == Completed)
    && (terminal != None ==>
          TerminalGiven(b.(handoffs := b.handoffs[h.value := CP.Done(second.value)]), plan, round, second.value, now, oracle,
                        terminal.value))
  }

  /** A continuation of the handoff can be prepared, and asking for it gives this outcome. */
  ghost predicate TerminalGiven(b: Books, plan: SessionPlan, round: RunOutcome, second: HandoffOutcome, now: Time,
                                oracle: Oracle, terminal: ContinuationOutcome)
  {
    var c := PrepareContinuation(plan.roundPlan, round, second, now, oracle.continuationKey, oracle.continuationRunKey,
                                 oracle.continuationTaskId, oracle.assembled);
    && c != None
    && ContinuationGives(b.runs, b.handoffs, b.runs, b.runColumns, b.continuations, b.continuationColumns, c.value, now,
                         oracle.terminal, terminal)
  }

  /** The first handoff of a round: for the authorized call it proposes, if it proposes one. */
  function CallFor(plan: SessionPlan, round: RunOutcome, now: Time): Option<HandoffPlan> {
    if round.status == RunStatus.ToolProposed && SelectedOption(plan, round) != None then
      Some(FirstHandoffPlan(plan, round, SelectedOption(plan, round).value.call, now))
    else None
  }

  /** Asking for the round, and then for what it calls for, gives these outcomes. */
  ghost predicate WorkGives(b: Books, plan: SessionPlan, now: Time, oracle: Oracle, round: RunOutcome,
                            second: Option<HandoffOutcome>, terminal: Option<ContinuationOutcome>)
  {
    && RoundGives(b, plan, now, oracle.round, round)
    && CallGives(b.(runs := b.runs[plan.roundPlan := CP.Done(round)]), plan, round, CallFor(plan, round, now), now, oracle,
                 second, terminal)
  }

  ghost predicate SealableWork(b: Books, plan: SessionPlan, now: Time, oracle: Oracle, round: RunOutcome,
                               second: Option<HandoffOutcome>, terminal: Option<ContinuationOutcome>)
  {
    && WorkGives(b, plan, now, oracle, round, second, terminal)
    && TotalTokens(plan, round, terminal) <= plan.rootPlan.task.budget.modelTokens
    && WholeSeconds(plan.deadline - now) <= 86_400
  }

  /** Another session already has the Observation. */
  predicate ObservationTaken(sessions: SL.Rows, plan: SessionPlan, second: Option<HandoffOutcome>) {
    && second != None && second.value.observation != None
    && exists p :: p in sessions.Keys && p != plan && !sessions[p].Started? && sessions[p].outcome.secondHandoff != None
                   && sessions[p].outcome.secondHandoff.value.observation == second.value.observation
  }

  /** A first call of a session goes all the way with these results: everything it asks for is given, the tokens
      fit, at most a day is left, and the Observation is no other session's. */
  ghost predicate Succeeds(b: Books, sessions: SL.Rows, plan: SessionPlan, now: Time, oracle: Oracle, round: RunOutcome,
                           second: Option<HandoffOutcome>, terminal: Option<ContinuationOutcome>)
  {
    && plan.createdAt <= now < plan.deadline
    && plan.rootPlan in b.runs && b.runs[plan.rootPlan] == CP.Done(plan.rootOutcome)
    && plan.firstHandoff.handoffId in b.handoffs && b.handoffs[plan.firstHandoff.handoffId] == CP.Done(plan.firstHandoff)
    && plan !in sessions && !SL.Clashes(sessions, plan)
    && SealableWork(b, plan, now, oracle, round, second, terminal)
    && !ObservationTaken(sessions, plan, second)
  }

  function RetryFor(plan: SessionPlan, round: RunOutcome, waiting: SessionOutcome, now: Time, callId: nat, key: string): HandoffPlan
    requires SelectedOption(plan, round) != None && waiting.secondHandoff != None
  {
    RetryHandoffPlan(plan, round, SelectedOption(plan, round).value.call, Some(waiting.secondHandoff.value.handoffId), now,
                     callId, key)
  }

  /** The round selects a call, its second attempt and continuation are given, and the outcome can be sealed. */
  ghost predicate RetryGives(b: Books, plan: SessionPlan, waiting: SessionOutcome, approvals: set<string>, now: Time,
                             callId: nat, key: string, oracle: Oracle, round: RunOutcome, second: HandoffOutcome,
                             terminal: Option<ContinuationOutcome>)
    requires waiting.secondHandoff != None
  {
    && SelectedOption(plan, round) != None
    && CallGives(b, plan, round, Some(RetryFor(plan, round, waiting, now, callId, key)), now, oracle, Some(second), terminal)
    && BuildOutcome(plan, round, waiting.secondHandoff, approvals, Some(second), terminal, now) != None
  }

  /** A resume goes all the way: the row waits with this outcome, the round is on record and selects a call, its
      second attempt and continuation are given, and what was made of it can be sealed. */
  ghost predicate Resumes(b: Books, sessions: SL.Rows, plan: SessionPlan, waiting: SessionOutcome, approvals: set<string>, now: Time, callId: nat,
                          key: string, oracle: Oracle, round: RunOutcome, second: HandoffOutcome,
                          terminal: Option<ContinuationOutcome>)
  {
    && plan.createdAt <= now < plan.deadline
    && plan.rootPlan in b.runs && b.runs[plan.rootPlan] == CP.Done(plan.rootOutcome)
    && plan.firstHandoff.handoffId in b.handoffs && b.handoffs[plan.firstHandoff.handoffId] == CP.Done(plan.firstHandoff)
    && plan in sessions && sessions[plan] == SL.Waiting(waiting) && SL.AwaitsApproval(plan, waiting)
    && plan.roundPlan in b.runs && b.runs[plan.roundPlan] == CP.Done(round)
    && RetryGives(b, plan, waiting, approvals, now, callId, key, oracle, round, second, terminal)
    && !ObservationTaken(sessions, plan, Some(second))
  }

  class AgentSessionService {
    const runtime: OfflineAgentRuntime
    const handoffs: AgentToolHandoffService
    const continuations: AgentContinuationService
    const sessions: SL.SessionStore

    /** The services share one run ledger and one handoff ledger, and what those hold is authoritative. */
    ghost predicate Valid()
      reads this, runtime.store, handoffs.handoffs, continuations.continuations, sessions
    {
      && handoffs.runs == continuations.runs == continuations.runtime.store == runtime.store
      && continuations.handoffs == handoffs.handoffs
      && runtime.store.Valid() && handoffs.handoffs.Valid() && continuations.continuations.Valid() && sessions.Valid()
      && (forall o :: runtime.store.planOf(o) == o.planId)
      && (forall o :: continuations.continuations.planOf(o) == o.continuationId)
      && RunsOk(runtime.store.rows)
      && HandoffsOk(handoffs.handoffs.rows)
      && ContinuationsOk(continuations.continuations.rows)
    }

    constructor (runtime: OfflineAgentRuntime, handoffs: AgentToolHandoffService,
                 continuations: AgentContinuationService, sessions: SL.SessionStore)
      ensures this.runtime == runtime && this.handoffs == handoffs
      ensures this.continuations == continuations && this.sessions == sessions
    {
      this.runtime, this.handoffs, this.continuations, this.sessions := runtime, handoffs, continuations, sessions;
    }

    predicate Authoritative(plan: SessionPlan)
      reads this, runtime.store, handoffs.handoffs
    {
      && plan.rootPlan in runtime.store.rows && runtime.store.rows[plan.rootPlan] == CP.Done(plan.rootOutcome)
      && plan.firstHandoff.handoffId in handoffs.handoffs.rows
      && handoffs.handoffs.rows[plan.firstHandoff.handoffId] == CP.Done(plan.firstHandoff)
    }

    ghost function Ledgers(): Books
      reads this, runtime.store, handoffs.handoffs, continuations.continuations
    {
      Books(runtime.store.rows, runtime.store.columns, handoffs.handoffs.rows, continuations.continuations.rows,
            continuations.continuations.columns)
    }

    method Preflight(plan: SessionPlan) returns (ok: bool)
      requires Valid()
      ensures ok <==> Authoritative(plan)
    {
      var root := runtime.store.RequireCompleted(plan.rootPlan);
      var first := handoffs.handoffs.RequireCompleted(plan.firstHandoff.handoffId);
      ok := root == Some(plan.rootOutcome) && first == Some(plan.firstHandoff);
    }

    /** The round's one model turn, or the outcome it already had. */
    method RunRound(plan: SessionPlan, now: Time, script: Script) returns (round: Option<RunOutcome>)
      requires Valid() && plan.roundPlan.limits.Valid()
      modifies runtime.store
      ensures Valid()
      ensures round.Some? ==> RunResultOk(plan.roundPlan, round.value)
      ensures round.Some? ==>
                runtime.store.rows == old(runtime.store.rows)[plan.roundPlan := CP.Done(round.value)]
      ensures forall o :: round == Some(o) <==> RoundGives(old(Ledgers()), plan, now, script, o)
    {
      hide HandoffsOk, ContinuationsOk, HL.Sound, SL.Sound, CP.UniqueColumns, RunResultOk, Judge, Decisive, OutcomeAt, RunsOk,
        RunGives;
      ghost var before := runtime.store.rows;
      // A request without tokens left does not validate.
      if plan.roundPlan.task.budget.modelTokens == 0 {
        return None;
      }
      var run, step, _ := runtime.Execute(plan.roundPlan, now, script);
      if run.Finished? {
        OutcomesAreWithinBudget(plan.roundPlan, now, script, step);
      }
      RunsStayOk(before, plan.roundPlan, run);
      if !run.Finished? && !run.Replayed? {
        return None;
      }
      return Some(run.outcome);
    }

    method HandOver(plan: HandoffPlan, now: Time, broker: BrokerScript) returns (outcome: Option<HandoffOutcome>)
      requires Valid() && plan.WellShaped()
      modifies handoffs.handoffs
      ensures Valid()
      ensures outcome.Some? ==> HandoffResultOk(plan, outcome.value)
      ensures outcome.Some? ==>
                handoffs.handoffs.rows == old(handoffs.handoffs.rows)[plan := CP.Done(outcome.value)]
      ensures forall o :: outcome == Some(o) <==>
                          HandoffGives(runtime.store.rows, old(handoffs.handoffs.rows), plan, now, broker, o)
    {
      hide RunsOk, ContinuationsOk, HL.Sound, SL.Sound, CP.UniqueColumns, HandoffResultOk, HL.Admits, HandoffGives;
      var reply := handoffs.Execute(plan, now, broker);
      if !reply.HandoffFinished? && !reply.HandoffReplayed? {
        return None;
      }
      return Some(reply.outcome);
    }

    /** The terminal continuation of a completed handoff. */
    method Continue(plan: SessionPlan, round: RunOutcome, second: HandoffOutcome, now: Time, oracle: Oracle)
      returns (terminal: Option<ContinuationOutcome>)
      requires Valid() && plan.roundPlan.limits.Valid() && second.status.Completed?
      modifies runtime.store, continuations.continuations
      ensures terminal.Some? ==> TerminalOf(plan, round, second, terminal.value)
      ensures forall o :: terminal == Some(o) <==> TerminalGiven(old(Ledgers()), plan, round, second, now, oracle, o)
    {
      hide HL.Sound, SL.Sound, CP.UniqueColumns, RunResultOk, HandoffsOk, ContinuationBudget.Valid, ContinuationGives;
      var c := PrepareContinuation(plan.roundPlan, round, second, now, oracle.continuationKey,
                                   oracle.continuationRunKey, oracle.continuationTaskId, oracle.assembled);
      if c.None? {
        return None;
      }
      var reply := continuations.Execute(c.value, now, oracle.terminal);
      if !reply.ContinuationFinished? && !reply.ContinuationReplayed? {
        return None;
      }
      return Some(reply.outcome);
    }

    /** Everything after a claim: None where a service or the outcome's own validators raise. On resume
        `approval` is the attempt that waited and `retry` its new call. */
    method Conduct(plan: SessionPlan, round: RunOutcome, approval: Option<HandoffOutcome>, approvals: set<string>,
                   handoff: Option<HandoffPlan>, now: Time, oracle: Oracle) returns (outcome: Option<SessionOutcome>)
      requires Valid() && plan.roundPlan.limits.Valid()
      requires handoff.Some? ==> handoff.value.WellShaped()
      modifies runtime.store, handoffs.handoffs, continuations.continuations
      ensures outcome.Some? ==>
                var o := outcome.value;
                && BuildOutcome(plan, round, approval, approvals, o.secondHandoff, o.terminal, now) == Some(o)
                && o.sessionId == plan && o.roundOutcome == round && o.approvalHandoff == approval
                && (o.secondHandoff.Some? <==> handoff.Some?)
                && (handoff.Some? ==> HandoffResultOk(handoff.value, o.secondHandoff.value))
                && (o.terminal.Some? <==> o.secondHandoff.Some? && o.secondHandoff.value.status.Completed?)
                && (o.terminal.Some? ==> TerminalOf(plan, round, o.secondHandoff.value, o.terminal.value))
                && CallGives(old(Ledgers()), plan, round, handoff, now, oracle, o.secondHandoff, o.terminal)
      ensures forall second, terminal | CallGives(old(Ledgers()), plan, round, handoff, now, oracle, second, terminal) ::
                && outcome == BuildOutcome(plan, round, approval, approvals, second, terminal, now)
                && (handoff.Some? ==> HandoffResultOk(handoff.value, second.value))
                && (terminal.Some? ==> TerminalOf(plan, round, second.value, terminal.value))
    {
      hide HL.Sound, SL.Sound, CP.UniqueColumns, RunResultOk, HandoffResultOk, TerminalOf, FinalBudget, Status,
        SelectedOption, SessionOutcome.WellShaped, SessionBudget.Valid, HandoffGives, TerminalGiven;
      var second: Option<HandoffOutcome> := None;
      var terminal: Option<ContinuationOutcome> := None;
      if handoff.Some? {
        second := HandOver(handoff.value, now, oracle.broker);
        if second.None? {
          return None;
        }
        if second.value.status.Completed? {
          terminal := Continue(plan, round, second.value, now, oracle);
          if terminal.None? {
            return None;
          }
        }
      }
      return BuildOutcome(plan, round, approval, approvals, second, terminal, now);
    }

    method FirstHandoff(plan: SessionPlan, round: RunOutcome, now: Time) returns (h: Option<HandoffPlan>)
      requires plan.Valid() && now < plan.deadline
      ensures h == CallFor(plan, round, now)
      ensures h.Some? ==> h.value.WellShaped() && h.value.agentPlan == plan.roundPlan && h.value.attempt == 1
                          && h.value.agentOutcomeDigest == round
                          && h.value.call == SelectedOption(plan, round).value.call
    {
      var selected := SelectedOption(plan, round);
      if selected.None? {
        return None;
      }
      OwnHandoffsAreWellShaped(plan, round, plan.firstHandoff.handoffId, now, 0, plan.key);
      return Some(FirstHandoffPlan(plan, round, selected.value.call, now));
    }

    /** The round, its handoff and its continuation: None where a service or a validator raises. */
    method Perform(ghost b: Books, plan: SessionPlan, now: Time, oracle: Oracle) returns (outcome: Option<SessionOutcome>)
      requires b == Ledgers() && Valid() && Authoritative(plan) && now < plan.deadline
      requires plan.Valid() && plan.rootPlan.limits.Valid() && plan.roundPlan.limits.Valid()
      modifies runtime.store, handoffs.handoffs, continuations.continuations
      ensures outcome.Some? ==>
                var o := outcome.value;
                && HonestChain(plan, o.roundOutcome, None, o.secondHandoff, o.terminal) && o.sessionId == plan
                && BuildOutcome(plan, o.roundOutcome, None, {}, o.secondHandoff, o.terminal, now) == Some(o)
                && SealableWork(b, plan, now, oracle, o.roundOutcome, o.secondHandoff, o.terminal)
      ensures forall round, second, terminal | SealableWork(b, plan, now, oracle, round, second, terminal) ::
                && outcome.Some? && outcome == BuildOutcome(plan, round, None, {}, second, terminal, now)
                && outcome.value.secondHandoff == second
    {
      hide HL.Sound, SL.Sound, CP.UniqueColumns, HandoffPlan.WellShaped, TerminalOf, HonestChain, BuildOutcome,
        SelectedOption, HandoffResultOk, RunResultOk, RunsOk, HandoffsOk, ContinuationsOk;
      InputsAreOk(plan);
      var round := RunRound(plan, now, oracle.round);
      if round.None? {
        return None;
      }
      var handoff := FirstHandoff(plan, round.value, now);
      ghost var afterRound := Ledgers();
      outcome := Conduct(plan, round.value, None, {}, handoff, now, oracle);
      forall second, terminal | CallGives(afterRound, plan, round.value, handoff, now, oracle, second, terminal)
        ensures HonestChain(plan, round.value, None, second, terminal)
        ensures BuildOutcome(plan, round.value, None, {}, second, terminal, now).Some? <==>
                  TotalTokens(plan, round.value, terminal) <= plan.rootPlan.task.budget.modelTokens
                  && WholeSeconds(plan.deadline - now) <= 86_400
        ensures var built := BuildOutcome(plan, round.value, None, {}, second, terminal, now);
                built.Some? ==> built.value.secondHandoff == second
      {
        FirstChainIsHonest(plan, round.value, now, second, terminal);
        SealingSucceedsExactlyWhen(plan, round.value, None, {}, second, terminal, now);
        if BuildOutcome(plan, round.value, None, {}, second, terminal, now).Some? {
          BuiltIsForItsRow(plan, round.value, None, {}, second, terminal, now);
        }
      }
    }

    /** Runs a session once. What it writes is sealed from an honest chain, and a need for Approval pauses
        the session instead of completing it. */
    method Execute(plan: SessionPlan, now: Time, oracle: Oracle) returns (reply: SessionReply)
      requires Valid() && plan.Valid() && plan.rootPlan.limits.Valid() && plan.roundPlan.limits.Valid()
      modifies runtime.store, handoffs.handoffs, continuations.continuations, sessions
      ensures sessions.Valid()
      ensures reply.TimedOut? <==> !(plan.createdAt <= now < plan.deadline)
      ensures reply.Rejected? <==> plan.createdAt <= now < plan.deadline && !old(Authoritative(plan))
      ensures reply.Finished? || reply.Raised? <==>
                && plan.createdAt <= now < plan.deadline && old(Authoritative(plan))
                && plan !in old(sessions.rows) && !SL.Clashes(old(sessions.rows), plan)
      ensures reply.Finished? ==>
                var o := reply.outcome;
                && HonestChain(plan, o.roundOutcome, None, o.secondHandoff, o.terminal)
                && BuildOutcome(plan, o.roundOutcome, None, {}, o.secondHandoff, o.terminal, now) == Some(o)
                && sessions.rows == old(sessions.rows)[plan := if o.status.SessionApprovalRequired? then SL.Waiting(o)
                                                               else SL.Sealed(o)]
      ensures reply.Finished? <==> exists round, second, terminal ::
                                     Succeeds(old(Ledgers()), old(sessions.rows), plan, now, oracle, round, second, terminal)
      ensures reply.Raised? ==> sessions.rows == old(sessions.rows)[plan := SL.Started]
      ensures !reply.Finished? && !reply.Raised? ==> sessions.rows == old(sessions.rows)
      ensures reply.Replayed? ==> plan in old(sessions.rows) && !old(sessions.rows)[plan].Started?
                                  && old(sessions.rows)[plan].outcome == reply.outcome
    {
      hide HL.Sound, SL.Sound, CP.UniqueColumns, HandoffPlan.WellShaped, TerminalOf, HonestChain, BuildOutcome,
        SelectedOption, SL.Clashes, SessionPlan.Valid, SealableWork, ObservationTaken,
        HandoffResultOk, RunResultOk, RunsOk, HandoffsOk, ContinuationsOk;
      if !(plan.createdAt <= now < plan.deadline) {
        return SessionReply.TimedOut;
      }
      var ok := Preflight(plan);
      if !ok {
        return Rejected;
      }
      var claim := sessions.Claim(plan);
      if claim.Replay? {
        return SessionReply.Replayed(claim.outcome);
      }
      if !claim.Created? {
        return Unavailable;
      }
      ghost var b := Ledgers();
      var outcome := Perform(b, plan, now, oracle);
      TakenBesideItself(old(sessions.rows), plan, SL.Started);
      if outcome.None? {
        return Raised;
      }
      var o := outcome.value;
      var written := Settle(plan, o, now);
      assert written <==> Succeeds(b, old(sessions.rows), plan, now, oracle, o.roundOutcome, o.secondHandoff, o.terminal);
      return if written then SessionReply.Finished(o) else Raised;
    }

    /** A need for Approval pauses a first call's session; any other outcome completes it. */
    method Settle(plan: SessionPlan, o: SessionOutcome, now: Time) returns (written: bool)
      requires sessions.Valid() && plan in sessions.rows && sessions.rows[plan].Started?
      requires o.sessionId == plan
      requires BuildOutcome(plan, o.roundOutcome, None, {}, o.secondHandoff, o.terminal, now) == Some(o)
      modifies sessions
      ensures sessions.Valid()
      ensures written <==> !ObservationTaken(old(sessions.rows), plan, o.secondHandoff)
      ensures sessions.rows == if !written then old(sessions.rows)
                               else old(sessions.rows)[plan := if o.status.SessionApprovalRequired? then SL.Waiting(o) else SL.Sealed(o)]
    {
      hide SL.Sound, SL.Updates, SL.Reused, ObservationTaken, BuildOutcome;
      BuiltIsForItsRow(plan, o.roundOutcome, None, {}, o.secondHandoff, o.terminal, now);
      WrittenExactlyWhen(sessions.rows, o, false);
      WrittenExactlyWhen(sessions.rows, o, true);
      var reply: SL.WriteReply;
      if o.status.SessionApprovalRequired? {
        reply := sessions.PauseForApproval(o);
      } else {
        reply := sessions.Complete(o);
      }
      return reply.Written?;
    }

    lemma InputsAreOk(plan: SessionPlan)
      requires Valid() && Authoritative(plan) && plan.Valid()
      ensures RunResultOk(plan.rootPlan, plan.rootOutcome)
      ensures HandoffResultOk(plan.firstHandoff.handoffId, plan.firstHandoff)
    {
    }

    /** The retry of the selected call under a new identity, in the name of the attempt that waited. */
    method RetryHandoff(plan: SessionPlan, round: RunOutcome, waiting: HandoffOutcome, now: Time, callId: nat, key: string)
      returns (h: Option<HandoffPlan>)
      requires plan.Valid() && now < plan.deadline
      ensures h.Some? <==> SelectedOption(plan, round).Some?
      ensures h.Some? ==> h.value == RetryHandoffPlan(plan, round, SelectedOption(plan, round).value.call,
                                                      Some(waiting.handoffId), now, callId, key)
      ensures h.Some? ==> h.value.WellShaped() && h.value.agentPlan == plan.roundPlan && h.value.attempt == 2
                          && h.value.agentOutcomeDigest == round && h.value.previous == Some(waiting.handoffId)
                          && h.value.call.Commit() == SelectedOption(plan, round).value.call.Commit()
    {
      var selected := SelectedOption(plan, round);
      if selected.None? {
        return None;
      }
      OwnHandoffsAreWellShaped(plan, round, waiting.handoffId, now, callId, key);
      return Some(RetryHandoffPlan(plan, round, selected.value.call, Some(waiting.handoffId), now, callId, key));
    }

    /** The second attempt and what follows it: None where a service or a validator raises. */
    method Retry(ghost b: Books, plan: SessionPlan, round: RunOutcome, waiting: SessionOutcome, approvals: set<string>, now: Time, callId: nat,
                 retryKey: string, oracle: Oracle) returns (outcome: Option<SessionOutcome>)
      requires b == Ledgers() && Valid() && plan.Valid() && plan.roundPlan.limits.Valid() && now < plan.deadline
      requires SL.AwaitsApproval(plan, waiting)
      modifies runtime.store, handoffs.handoffs, continuations.continuations
      ensures outcome.Some? ==>
                var o := outcome.value;
                && o.sessionId == plan && o.secondHandoff.Some? && o.secondHandoff.value.attempt == 2
                && o.secondHandoff.value.agentOutcomeDigest == round
                && RetryGives(b, plan, waiting, approvals, now, callId, retryKey, oracle, round,
                              o.secondHandoff.value, o.terminal)
                && BuildOutcome(plan, round, waiting.secondHandoff, approvals, o.secondHandoff, o.terminal, now) == Some(o)
      ensures forall second, terminal |
                RetryGives(b, plan, waiting, approvals, now, callId, retryKey, oracle, round, second, terminal) ::
                outcome.Some? && outcome.value.secondHandoff == Some(second)
    {
      hide HL.Sound, SL.Sound, CP.UniqueColumns, HandoffPlan.WellShaped, TerminalOf, BuildOutcome, SelectedOption, RunResultOk,
        BrokerResultOk, RunsOk, HandoffsOk, ContinuationsOk;
      var approval := waiting.secondHandoff.value;
      var handoff := RetryHandoff(plan, round, approval, now, callId, retryKey);
      if handoff.None? {
        return None;
      }
      outcome := Conduct(plan, round, waiting.secondHandoff, approvals, handoff, now, oracle);
      forall second, terminal | BuildOutcome(plan, round, waiting.secondHandoff, approvals, Some(second), terminal, now).Some?
        ensures BuildOutcome(plan, round, waiting.secondHandoff, approvals, Some(second), terminal, now).value.secondHandoff
             == Some(second)
      {
        BuiltIsForItsRow(plan, round, waiting.secondHandoff, approvals, Some(second), terminal, now);
      }
    }

    /** What a resume made completes its session. */
    method SettleResumed(plan: SessionPlan, round: RunOutcome, waiting: SessionOutcome, approvals: set<string>,
                         o: SessionOutcome, now: Time) returns (written: bool)
      requires sessions.Valid() && plan in sessions.rows && sessions.rows[plan].Resuming?
      requires BuildOutcome(plan, round, waiting.secondHandoff, approvals, o.secondHandoff, o.terminal, now) == Some(o)
      modifies sessions
      ensures sessions.Valid()
      ensures written <==> !ObservationTaken(old(sessions.rows), plan, o.secondHandoff)
      ensures sessions.rows == if written then old(sessions.rows)[plan := SL.Sealed(o)] else old(sessions.rows)
      ensures o.roundOutcome == round && o.approvalHandoff == waiting.secondHandoff && o.approvalDigests == approvals
    {
      hide SL.Sound, SL.Updates, SL.Reused, ObservationTaken, BuildOutcome;
      BuiltIsForItsRow(plan, round, waiting.secondHandoff, approvals, o.secondHandoff, o.terminal, now);
      WrittenExactlyWhen(sessions.rows, o, true);
      var reply := sessions.Complete(o);
      return reply.Written?;
    }

    /** Resumes a waiting session at most once: the row moves to 'resuming' before anything else happens, and
        only the outcome of the retried attempt completes it. */
    method ResumeAfterApproval(plan: SessionPlan, waiting: SessionOutcome, approvals: set<string>, now: Time,
                               callId: nat, retryKey: string, oracle: Oracle) returns (reply: SessionReply)
      requires Valid() && plan.Valid() && plan.rootPlan.limits.Valid() && plan.roundPlan.limits.Valid()
      modifies runtime.store, handoffs.handoffs, continuations.continuations, sessions
      ensures sessions.Valid()
      ensures reply.TimedOut? <==> !(plan.createdAt <= now < plan.deadline)
      ensures reply.Rejected? <==> plan.createdAt <= now < plan.deadline && !old(Authoritative(plan))
      ensures reply.Finished? || reply.Raised? <==>
                && plan.createdAt <= now < plan.deadline && old(Authoritative(plan))
                && plan in old(sessions.rows) && old(sessions.rows)[plan] == SL.Waiting(waiting)
                && SL.AwaitsApproval(plan, waiting)
      ensures reply.Finished? ==>
                var o := reply.outcome;
                && o.approvalHandoff == waiting.secondHandoff && o.approvalDigests == approvals
                && plan.roundPlan in old(runtime.store.rows)
                && old(runtime.store.rows)[plan.roundPlan] == CP.Done(o.roundOutcome)
                && o.secondHandoff.Some? && o.secondHandoff.value.attempt == 2
                && o.secondHandoff.value.agentOutcomeDigest == o.roundOutcome
                && BuildOutcome(plan, o.roundOutcome, o.approvalHandoff, approvals, o.secondHandoff, o.terminal, now) == Some(o)
                && sessions.rows == old(sessions.rows)[plan := SL.Sealed(o)]
      ensures reply.Finished? <==> exists round, second, terminal ::
                Resumes(old(Ledgers()), old(sessions.rows), plan, waiting, approvals, now, callId, retryKey, oracle, round, second,
                        terminal)
      ensures reply.Raised? ==> sessions.rows == old(sessions.rows)[plan := SL.Resuming(waiting)]
      ensures !reply.Finished? && !reply.Raised? ==> sessions.rows == old(sessions.rows)
      ensures reply.Replayed? ==> plan in old(sessions.rows) && old(sessions.rows)[plan] == SL.Sealed(reply.outcome)
    {
      hide HL.Sound, SL.Sound, CP.UniqueColumns, BuildOutcome, RetryGives, ObservationTaken, SL.Reused, SL.Updates, RunsOk,
        HandoffsOk, ContinuationsOk, SessionPlan.Valid;
      if !(plan.createdAt <= now < plan.deadline) {
        return SessionReply.TimedOut;
      }
      var ok := Preflight(plan);
      if !ok {
        return Rejected;
      }
      var claim := sessions.ClaimResume(plan, waiting);
      if claim.Replay? {
        return SessionReply.Replayed(claim.outcome);
      }
      if !claim.Created? {
        return Unavailable;
      }
      var round := runtime.store.RequireCompleted(plan.roundPlan);
      if round.None? {
        return Raised;
      }
      TakenBesideItself(old(sessions.rows), plan, SL.Resuming(waiting));
      ghost var b := Ledgers();
      var outcome := Retry(b, plan, round.value, waiting, approvals, now, callId, retryKey, oracle);
      if outcome.None? {
        return Raised;
      }
      var o := outcome.value;
      var written := SettleResumed(plan, round.value, waiting, approvals, o, now);
      assert written <==> Resumes(b, old(sessions.rows), plan, waiting, approvals, now, callId, retryKey,
                                           oracle, round.value, o.secondHandoff.value, o.terminal);
      return if written then SessionReply.Finished(o) else Raised;
    }
  }

  ghost predicate RunsOk(rows: map<RunPlan, CP.Checkpoint<RunOutcome>>) {
    forall p :: p in rows && rows[p].Done? ==> RunResultOk(p, rows[p].outcome)
  }

  /** Whatever a run leaves in the ledger, the ledger stays in order. */
  lemma RunsStayOk(rows: map<RunPlan, CP.Checkpoint<RunOutcome>>, plan: RunPlan, run: ExecuteReply)
    requires RunsOk(rows) && (run.Finished? ==> RunResultOk(plan, run.outcome))
    requires run.Replayed? ==> plan in rows && rows[plan] == CP.Done(run.outcome)
    ensures RunsOk(rows[plan := CP.Started])
    ensures run.Finished? ==> RunsOk(rows[plan := CP.Done(run.outcome)])
    ensures run.Replayed? ==> RunResultOk(plan, run.outcome)
  {
    hide RunResultOk;
  }

  ghost predicate HandoffsOk(rows: HL.Rows) {
    forall h :: h in rows && rows[h].Done? ==> HandoffResultOk(h, rows[h].outcome)
  }

  ghost predicate ContinuationsOk(rows: map<ContinuationPlan, CP.Checkpoint<ContinuationOutcome>>) {
    forall c :: c in rows && rows[c].Done? ==> ContinuationResultOk(c, rows[c].outcome)
  }

  lemma FirstChainIsHonest(plan: SessionPlan, round: RunOutcome, now: Time, second: Option<HandoffOutcome>,
                           terminal: Option<ContinuationOutcome>)
    requires plan.Valid() && plan.rootPlan.limits.Valid()
    requires RunResultOk(plan.rootPlan, plan.rootOutcome)
    requires HandoffResultOk(plan.firstHandoff.handoffId, plan.firstHandoff)
    requires RunResultOk(plan.roundPlan, round)
    requires second.Some? <==> CallFor(plan, round, now).Some?
    requires second.Some? ==> HandoffResultOk(CallFor(plan, round, now).value, second.value)
    requires terminal.Some? <==> second.Some? && second.value.status.Completed?
    requires terminal.Some? ==> TerminalOf(plan, round, second.value, terminal.value)
    ensures HonestChain(plan, round, None, second, terminal)
  {
    hide SelectedOption, TerminalOf;
  }

  /** The outcome's row takes it exactly if its Observation is new. */
  lemma WrittenExactlyWhen(rows: SL.Rows, o: SessionOutcome, fromResuming: bool)
    requires o.sessionId in rows && o.firstObservationId == o.sessionId.firstObservationId
    requires o.roundPlanId == o.sessionId.roundPlan && o.callSetId == o.sessionId.options
    requires rows[o.sessionId].Started? || (fromResuming && rows[o.sessionId].Resuming?)
    ensures SL.Updates(rows, o, fromResuming)
    ensures SL.Reused(rows, o) <==> ObservationTaken(rows, o.sessionId, o.secondHandoff)
  {
  }

  /** A session's own row never takes its Observation. */
  lemma TakenBesideItself(rows: SL.Rows, plan: SessionPlan, row: SL.Row)
    ensures forall second :: ObservationTaken(rows[plan := row], plan, second) <==> ObservationTaken(rows, plan, second)
  {
    var after := rows[plan := row];
    forall second ensures ObservationTaken(after, plan, second) <==> ObservationTaken(rows, plan, second) {
      if ObservationTaken(rows, plan, second) {
        var p :| p in rows.Keys && p != plan && !rows[p].Started? && rows[p].outcome.secondHandoff != None
          && rows[p].outcome.secondHandoff.value.observation == second.value.observation;
        assert p in after.Keys;
      }
    }
  }

  lemma BuiltIsForItsRow(plan: SessionPlan, round: RunOutcome, approval: Option<HandoffOutcome>, approvals: set<string>,
                         second: Option<HandoffOutcome>, terminal: Option<ContinuationOutcome>, now: Time)
    requires BuildOutcome(plan, round, approval, approvals, second, terminal, now).Some?
    ensures var o := BuildOutcome(plan, round, approval, approvals, second, terminal, now).value;
            && o.sessionId == plan && o.firstObservationId == plan.firstObservationId
            && o.roundPlanId == plan.roundPlan && o.callSetId == plan.options && o.secondHandoff == second
            && o.roundOutcome == round && o.terminal == terminal
            && o.approvalHandoff == approval && o.approvalDigests == approvals
  {
    hide SelectedOption, FinalBudget, Status, SessionOutcome.WellShaped;
  }

  /** A resume of an honest session can be sealed exactly if the tokens fit, at most a day is left and there are
      Approvals, whatever its second attempt and continuation gave. */
  lemma ResumeSealsExactlyWhen(plan: SessionPlan, round: RunOutcome, waiting: SessionOutcome, approvals: set<string>, now: Time,
                               callId: nat, key: string, second: HandoffOutcome, terminal: Option<ContinuationOutcome>)
    requires SL.AwaitsApproval(plan, waiting) && HonestChain(plan, round, None, waiting.secondHandoff, waiting.terminal)
    requires HandoffResultOk(RetryFor(plan, round, waiting, now, callId, key), second)
    requires terminal != None <==> second.status == Completed
    requires terminal != None ==> TerminalOf(plan, round, second, terminal.value)
    ensures BuildOutcome(plan, round, waiting.secondHandoff, approvals, Some(second), terminal, now) != None <==>
      && TotalTokens(plan, round, terminal) <= plan.rootPlan.task.budget.modelTokens
      && WholeSeconds(plan.deadline - now) <= 86_400 && approvals != {}
  {
    hide SelectedOption, TerminalOf, BuildOutcome, BrokerResultOk;
    assert HonestChain(plan, round, waiting.secondHandoff, Some(second), terminal);
    SealingSucceedsExactlyWhen(plan, round, waiting.secondHandoff, approvals, Some(second), terminal, now);
  }
}
