/** What holds of sessions in every reachable state, whatever the interleaving and wherever anyone stops. */
module SessionGuarantees {
  import opened Options
  import opened AgentRecords
  import opened SessionOutcomes
  import CP = ClaimProtocol
  import opened SessionProtocol

  /** Everything a run can reach. */
  ghost function Reached(steps: seq<Step>): System {
    Run(EMPTY, steps)
  }

  lemma ReachedIsOk(steps: seq<Step>)
    ensures Inv(Reached(steps))
  {
    hide ProcessOk, RowOk, Next, RunResultOk, HandoffResultOk, ContinuationResultOk;
    RunKeepsInv(EMPTY, steps);
  }

  /******* History *******/

  lemma StepMovesAlongEdges(w: System, step: Step, plan: SessionPlan)
    requires plan in w.l.sessions
    ensures plan in Next(w, step).l.sessions && SL.Edge(w.l.sessions[plan], Next(w, step).l.sessions[plan])
  {
    hide Preflight, BuildOutcome, Taken;
  }

  lemma StepExtends(w: System, step: Step)
    ensures Extends(w.l, Next(w, step).l)
  {
    hide Preflight, BuildOutcome, Taken, Serve, SelectedOption, SL.Updates, SL.Reused, SL.Clashes, Favourable;
    if IsService(step) {
      ServeExtends(w.l, step);
    }
  }

  lemma {:induction false} RunExtends(w: System, steps: seq<Step>)
    ensures Extends(w.l, Run(w, steps).l)
    decreases steps
  {
    hide Next;
    if steps != [] {
      StepExtends(w, steps[0]);
      RunExtends(Next(w, steps[0]), steps[1..]);
    }
  }

  /** Rows only move forward, so an outcome that waits is the one that is resumed, and a completed row
      and everything recorded in the other ledgers stay as they are. */
  lemma {:induction false} HistoryOnlyGrows(w: System, steps: seq<Step>, plan: SessionPlan)
    ensures Extends(w.l, Run(w, steps).l)
    ensures plan in w.l.sessions ==>
              && plan in Run(w, steps).l.sessions
              && SL.Advances(w.l.sessions[plan], Run(w, steps).l.sessions[plan])
    decreases steps
  {
    hide Next;
    RunExtends(w, steps);
    if steps != [] {
      if plan in w.l.sessions {
        StepMovesAlongEdges(w, steps[0], plan);
      }
      HistoryOnlyGrows(Next(w, steps[0]), steps[1..], plan);
    }
  }

  /** No session is claimed twice, resumed twice, or worked on by two processes at once. */
  lemma OneClaimOneResumeOneOwner(steps: seq<Step>)
    ensures var w := Reached(steps);
            && (forall i, j :: 0 <= i < j < |w.claims| ==> w.claims[i].1 != w.claims[j].1)
            && (forall i, j :: 0 <= i < j < |w.resumes| ==> w.resumes[i].1 != w.resumes[j].1)
            && OneOwner(w.processes)
  {
    hide ProcessOk, RowOk, LedgersOk, Next;
    ReachedIsOk(steps);
  }

  /** No key, first Observation, round plan or second Observation belongs to two sessions. */
  lemma SessionsShareNothing(steps: seq<Step>, p: SessionPlan, q: SessionPlan)
    requires p in Reached(steps).l.sessions && q in Reached(steps).l.sessions && p != q
    ensures p.key != q.key && p.firstObservationId != q.firstObservationId && p.roundPlan != q.roundPlan
    ensures var rows := Reached(steps).l.sessions;
            !rows[p].Started? && !rows[q].Started? && SL.SecondObservation(rows[p].outcome).Some? ==>
              SL.SecondObservation(rows[p].outcome) != SL.SecondObservation(rows[q].outcome)
  {
    hide ProcessOk, RowOk, Control, Next, HL.Shaped, HL.Offered;
    ReachedIsOk(steps);
    var rows := Reached(steps).l.sessions;
    assert !SL.Clash(p, q);
    if !rows[p].Started? && !rows[q].Started? {
      assert rows[p].outcome.sessionId == p;
      assert !SL.Reused(rows, rows[p].outcome);
    }
  }

  /** A handoff INSERT that takes effect is one the two-attempt rule still admits. */
  ghost predicate InTimeStep(w: System, step: Step) {
    step.InsertHandoff? && step.handoff in w.selected && HL.Insertable(w.l.handoffs, step.handoff) ==>
      HL.MayAttempt(w.l.handoffs, step.handoff)
  }

  /** Every handoff claim is still admitted when its INSERT comes. */
  ghost predicate InTime(w: System, steps: seq<Step>)
    decreases steps
  {
    steps == [] || (InTimeStep(w, steps[0]) && InTime(Next(w, steps[0]), steps[1..]))
  }

  lemma StepIsInTime(w: System, step: Step)
    requires Inv(w) && HL.OnePerAttempt(w.l.handoffs)
    ensures HL.OnePerAttempt(Next(w, step).l.handoffs) <==> InTimeStep(w, step)
  {
    hide ProcessOk, RowOk, Control, HL.Shaped, HL.Offered, HL.MayAttempt, HL.Insertable, SL.Sound, Preflight, Taken, BuildOutcome;
    var rows := w.l.handoffs;
    if step.InsertHandoff? && step.handoff in w.selected && HL.Insertable(rows, step.handoff) {
      HL.InsertKeepsSoundExactlyWhen(rows, step.handoff);
      if HL.OnePerAttempt(rows[step.handoff := CP.Started]) {
        HL.InsertKeepsShaped(rows, step.handoff);
      }
    }
  }

  lemma {:induction false} OnePerAttemptExactlyWhen(w: System, steps: seq<Step>)
    requires Inv(w) && HL.OnePerAttempt(w.l.handoffs)
    ensures HL.OnePerAttempt(Run(w, steps).l.handoffs) <==> InTime(w, steps)
    decreases steps
  {
    hide Inv, Next, InTimeStep, HL.OnePerAttempt;
    if steps != [] {
      var next := Next(w, steps[0]);
      StepIsInTime(w, steps[0]);
      StepKeepsInv(w, steps[0]);
      if HL.OnePerAttempt(next.l.handoffs) {
        OnePerAttemptExactlyWhen(next, steps[1..]);
      } else {
        RunExtends(next, steps[1..]);
        if HL.OnePerAttempt(Run(next, steps[1..]).l.handoffs) {
          HL.TakenTwiceStays(next.l.handoffs, Run(next, steps[1..]).l.handoffs);
        }
      }
    }
  }

  /** The handoff ledger keeps the two-attempt rule exactly if no claim was overtaken between its SELECTs and its
      INSERT by another for the same Agent outcome. */
  lemma HandoffLedgerIsSoundExactlyWhen(steps: seq<Step>)
    ensures HL.Sound(Reached(steps).l.handoffs) <==> InTime(EMPTY, steps)
  {
    hide ProcessOk, RowOk, Control, Next, HL.Shaped, HL.Offered, SL.Sound, InTime;
    ReachedIsOk(steps);
    ReachedIsOk([]);
    OnePerAttemptExactlyWhen(EMPTY, steps);
  }

  /** Then no Agent outcome is ever handed to the Broker more than twice, or completed more than once. */
  lemma HandoffsAreBounded(steps: seq<Step>, digest: RunOutcome)
    requires InTime(EMPTY, steps)
    ensures var rows := Reached(steps).l.handoffs;
            && |HL.Prior(rows, digest)| <= 2
            && (forall g, h | g in HL.Prior(rows, digest) && h in HL.Prior(rows, digest) ::
                  HL.EndedAs(rows, g, Completed) && HL.EndedAs(rows, h, Completed) ==> g == h)
  {
    hide Reached, InTime, HL.Sound;
    HandoffLedgerIsSoundExactlyWhen(steps);
    HL.AttemptsAreBounded(Reached(steps).l.handoffs, digest);
  }

  /******* Committing *******/

  lemma ObservationNamesRound(plan: SessionPlan, o: SessionOutcome, l: Ledgers)
    requires Committed(l, plan, o) && SL.SecondObservation(o).Some?
    ensures SL.SecondObservation(o).value.handoffId.agentPlan == plan.roundPlan
  {
    hide BuildOutcome, SelectedOption, RunResultOk, SessionPlan.Valid, BrokerResultOk, TerminalOf;
  }

  lemma BuiltObservationIsNew(w: System, pid: nat)
    requires Inv(w) && pid in w.processes && Ready(w.processes[pid]) && Built(w.processes[pid]).Some?
    ensures !SL.Reused(w.l.sessions, Built(w.processes[pid]).value)
  {
    hide Preflight, HonestChain, BuildOutcome, HL.Shaped, HL.Offered, ClaimLog, ResumeLog, Committed, RunResultOk, Ready, Awaiting, OneOwner;
    var p := w.processes[pid];
    var rows := w.l.sessions;
    BuiltIsCommitted(w.l, p);
    var o := Built(p).value;
    if SL.SecondObservation(o).Some? {
      ObservationNamesRound(p.plan, o, w.l);
      forall q | q in rows.Keys && q != o.sessionId && !rows[q].Started?
        ensures SL.SecondObservation(rows[q].outcome) != SL.SecondObservation(o)
      {
        assert RowOk(w.l, q, rows[q]);
        RowIsCommitted(w.l, q, rows[q]);
        OwnerHasRow(w, pid);
        assert !SL.Clash(p.plan, q);
        if SL.SecondObservation(rows[q].outcome).Some? {
          ObservationNamesRound(q, rows[q].outcome, w.l);
        }
      }
    }
  }

  lemma RowIsCommitted(l: Ledgers, plan: SessionPlan, row: SL.Row)
    requires RowOk(l, plan, row) && !row.Started?
    ensures Committed(l, plan, row.outcome)
  {
    hide Preflight, HonestChain, BuildOutcome;
  }

  lemma OwnerHasRow(w: System, pid: nat)
    requires Inv(w) && pid in w.processes && Ready(w.processes[pid])
    ensures var p := w.processes[pid]; p.plan in w.l.sessions && Owns(p, w.l.sessions[p.plan])
  {
    hide ProcessOk, RowOk, LedgersOk, ClaimLog, ResumeLog, OneOwner;
  }

  /** What an owner needs to seal its outcome: the tokens of the root, the round and the continuation fit the
      budget, at most a day is left, and a resume brought an Approval. */
  predicate CanSeal(p: Process)
    requires Ready(p)
  {
    && TotalTokens(p.plan, p.phase.round.value, p.phase.terminal) <= p.plan.rootPlan.task.budget.modelTokens
    && WholeSeconds(p.plan.deadline - p.now) <= 86_400
    && (p.resume.Some? <==> p.Approvals() != {})
  }

  lemma CommitTakesEffect(w: System, pid: nat)
    requires Inv(w) && pid in w.processes && Ready(w.processes[pid])
    ensures var p := w.processes[pid];
            var before, after := w.l.sessions, Next(w, Commit(pid)).l.sessions;
            if CanSeal(p) then Built(p).Some? && after == before[p.plan := Target(p, Built(p).value)]
            else after == before
  {
    hide Preflight, HonestChain, BuildOutcome, HL.Shaped, HL.Offered, SL.Sound, ClaimLog, ResumeLog, Committed, RunResultOk, Awaiting,
      OneOwner, SL.Reused;
    var p := w.processes[pid];
    ReadyIsHonest(w.l, p);
    SealingSucceedsExactlyWhen(p.plan, p.phase.round.value, p.Approval(), p.Approvals(), p.phase.second, p.phase.terminal, p.now);
    OwnerHasRow(w, pid);
    if p.resume.Some? {
      ApprovalIsHanded(w.l, p);
    }
    if Built(p).Some? {
      BuiltObservationIsNew(w, pid);
      BuiltUpdatesItsRow(w, pid);
    }
  }

  lemma BuiltUpdatesItsRow(w: System, pid: nat)
    requires Inv(w) && pid in w.processes && Ready(w.processes[pid]) && Built(w.processes[pid]).Some?
    ensures var p := w.processes[pid];
            && Built(p).value.sessionId == p.plan
            && SL.Updates(w.l.sessions, Built(p).value, Target(p, Built(p).value).Sealed?)
  {
    hide HonestChain, Inv, SessionOutcome.WellShaped, FinalBudget, Status, SelectedOption;
    OwnerHasRow(w, pid);
    PlanOf(w, pid);
  }

  lemma PlanOf(w: System, pid: nat)
    requires Inv(w) && pid in w.processes
    ensures w.processes[pid].plan.Valid()
  {
    hide RowOk, LedgersOk, Control;
  }

  /** The UNIQUE constraint on second Observations never refuses a commit: an Observation names its
      round plan, and no other session has that one. */
  lemma SecondObservationIsNew(steps: seq<Step>, pid: nat)
    requires var ps := Reached(steps).processes; pid in ps && Ready(ps[pid]) && Built(ps[pid]).Some?
    ensures !SL.Reused(Reached(steps).l.sessions, Built(Reached(steps).processes[pid]).value)
  {
    hide Inv, Next, BuildOutcome, SL.Reused, Ready;
    ReachedIsOk(steps);
    BuiltObservationIsNew(Reached(steps), pid);
  }

  /** In every reachable state an owner that has everything commits its outcome exactly when it can seal it;
      otherwise the row stays as it is. Nothing another process does can refuse the commit. */
  lemma CommitSucceedsExactlyWhen(steps: seq<Step>, pid: nat)
    requires var ps := Reached(steps).processes; pid in ps && Ready(ps[pid])
    ensures var w := Reached(steps);
            var p := w.processes[pid];
            var after := Next(w, Commit(pid)).l.sessions;
            if CanSeal(p) then Built(p).Some? && after == w.l.sessions[p.plan := Target(p, Built(p).value)]
            else after == w.l.sessions
  {
    hide Inv, Next, BuildOutcome, CanSeal, Ready, Target;
    ReachedIsOk(steps);
    CommitTakesEffect(Reached(steps), pid);
  }

  /******* The auditor *******/

  /** What `require_completed` returns. */
  function Authoritative<P, O>(rows: map<P, CP.Checkpoint<O>>, p: P): Option<O> {
    if p in rows && rows[p].Done? then Some(rows[p].outcome) else None
  }

  /** The auditor's check of one session against the ledgers it reads. */
  predicate VerifyChain(l: Ledgers, plan: SessionPlan) {
    && plan in l.sessions && l.sessions[plan].Sealed?
    && var o := l.sessions[plan].outcome;
       && Authoritative(l.runs, plan.rootPlan) == Some(plan.rootOutcome)
       && Authoritative(l.runs, plan.roundPlan) == Some(o.roundOutcome)
       && Authoritative(l.handoffs, plan.firstHandoff.handoffId) == Some(plan.firstHandoff)
       && (o.approvalHandoff.Some? ==> Authoritative(l.handoffs, o.approvalHandoff.value.handoffId) == o.approvalHandoff)
       && (o.secondHandoff.Some? ==> Authoritative(l.handoffs, o.secondHandoff.value.handoffId) == o.secondHandoff)
       && (o.terminal.Some? ==> Authoritative(l.continuations, o.terminal.value.continuationId) == o.terminal)
       && VerifySelectedCall(plan, o) && VerifyBudget(plan, o)
  }

  /** The auditor accepts every session that was ever completed, in whatever state it looks. */
  lemma AuditAcceptsHonestSessions(steps: seq<Step>, plan: SessionPlan)
    requires var rows := Reached(steps).l.sessions; plan in rows && rows[plan].Sealed?
    ensures VerifyChain(Reached(steps).l, plan)
  {
    hide Next, LedgersOk, Control, BuildOutcome, VerifySelectedCall, VerifyBudget, ProcessOk;
    ReachedIsOk(steps);
    var l := Reached(steps).l;
    var o := l.sessions[plan].outcome;
    assert RowOk(l, plan, l.sessions[plan]);
    SealedOutcomePassesAudit(plan, o.roundOutcome, o.approvalHandoff, o.approvalDigests, o.secondHandoff, o.terminal,
                             o.completedAt);
  }

  /** Two sets of ledgers record the same for every link of a session's chain. */
  ghost predicate SameChain(l: Ledgers, l': Ledgers, plan: SessionPlan, o: SessionOutcome) {
    && Authoritative(l.runs, plan.rootPlan) == Authoritative(l'.runs, plan.rootPlan)
    && Authoritative(l.runs, plan.roundPlan) == Authoritative(l'.runs, plan.roundPlan)
    && (forall h | h in {plan.firstHandoff} + (set x | x in AsSeq(o.approvalHandoff) + AsSeq(o.secondHandoff)) ::
          Authoritative(l.handoffs, h.handoffId) == Authoritative(l'.handoffs, h.handoffId))
    && (o.terminal.Some? ==>
          Authoritative(l.continuations, o.terminal.value.continuationId)
          == Authoritative(l'.continuations, o.terminal.value.continuationId))
  }

  /** Against any other ledgers the same session passes exactly if they record the same chain. */
  lemma AuditRejectsExactlyDrift(steps: seq<Step>, plan: SessionPlan, tampered: Ledgers)
    requires var rows := Reached(steps).l.sessions; plan in rows && rows[plan].Sealed?
    requires plan in tampered.sessions && tampered.sessions[plan] == Reached(steps).l.sessions[plan]
    ensures VerifyChain(tampered, plan) <==> SameChain(Reached(steps).l, tampered, plan, tampered.sessions[plan].outcome)
  {
    hide Next, VerifySelectedCall, VerifyBudget, Reached;
    AuditAcceptsHonestSessions(steps, plan);
    var o := tampered.sessions[plan].outcome;
    assert forall h :: h in AsSeq(o.approvalHandoff) <==> o.approvalHandoff == Some(h);
    assert forall h :: h in AsSeq(o.secondHandoff) <==> o.secondHandoff == Some(h);
  }

  /** Every link of the chain is in its ledger as the outcome has it. */
  predicate LinksAreRecorded(l: Ledgers, plan: SessionPlan, o: SessionOutcome) {
    && Has(l.runs, plan.rootPlan, plan.rootOutcome) && Has(l.runs, plan.roundPlan, o.roundOutcome)
    && Has(l.handoffs, plan.firstHandoff.handoffId, plan.firstHandoff)
    && (o.approvalHandoff != None ==> Has(l.handoffs, o.approvalHandoff.value.handoffId, o.approvalHandoff.value))
    && (o.secondHandoff != None ==> Has(l.handoffs, o.secondHandoff.value.handoffId, o.secondHandoff.value))
    && (o.terminal != None ==> Has(l.continuations, o.terminal.value.continuationId, o.terminal.value))
  }

  predicate Has<P(==), O(==)>(rows: map<P, CP.Checkpoint<O>>, p: P, o: O) {
    p in rows && rows[p] == CP.Done(o)
  }

  /** What the auditor accepts, of any row in any ledgers: every link on record, a ledger that adds up, and no call
      but an authorized one. */
  lemma AuditAcceptsExactlyWhen(l: Ledgers, plan: SessionPlan)
    requires plan.Valid()
    ensures VerifyChain(l, plan) <==>
      && plan in l.sessions && l.sessions[plan].Sealed?
      && var o := l.sessions[plan].outcome;
         && LinksAreRecorded(l, plan, o) && NamesAuthorizedCall(plan, o) && o.budget.Valid()
         && LedgerAdds(plan, o.roundOutcome, o.approvalHandoff, o.secondHandoff, o.terminal, o.completedAt, o.budget)
  {
    hide VerifySelectedCall, VerifyBudget, NamesAuthorizedCall, LedgerAdds, SessionBudget.Valid;
    if plan in l.sessions && l.sessions[plan].Sealed? {
      var o := l.sessions[plan].outcome;
      SelectionPassesExactlyWhen(plan, o);
      BudgetPassesExactlyWhen(plan, o);
    }
  }

  /** The outcome has the same links and completion time. */
  predicate SameLinks(o: SessionOutcome, changed: SessionOutcome) {
    && changed.roundOutcome == o.roundOutcome && changed.approvalHandoff == o.approvalHandoff
    && changed.secondHandoff == o.secondHandoff && changed.terminal == o.terminal && changed.completedAt == o.completedAt
  }

  /** A completed session's row that was changed in anything but its links passes exactly if it still has the very
      ledger and names no call but an authorized one. */
  lemma AuditRejectsExactlyChangedRows(steps: seq<Step>, plan: SessionPlan, changed: SessionOutcome)
    requires var rows := Reached(steps).l.sessions; plan in rows && rows[plan].Sealed? && SameLinks(rows[plan].outcome, changed)
    ensures var l := Reached(steps).l;
            VerifyChain(l.(sessions := l.sessions[plan := SL.Sealed(changed)]), plan) <==>
              && changed.budget == l.sessions[plan].outcome.budget && NamesAuthorizedCall(plan, changed)
    ensures LedgerAdds(plan, changed.roundOutcome, changed.approvalHandoff, changed.secondHandoff, changed.terminal,
                       changed.completedAt, Reached(steps).l.sessions[plan].outcome.budget)
  {
    hide Reached, VerifyChain, NamesAuthorizedCall, LedgerAdds, SessionBudget.Valid;
    var l := Reached(steps).l;
    var o := l.sessions[plan].outcome;
    var l' := l.(sessions := l.sessions[plan := SL.Sealed(changed)]);
    AuditAcceptsHonestSessions(steps, plan);
    RowPlanIsValid(steps, plan);
    AuditAcceptsExactlyWhen(l, plan);
    AuditAcceptsExactlyWhen(l', plan);
    if LedgerAdds(plan, o.roundOutcome, o.approvalHandoff, o.secondHandoff, o.terminal, o.completedAt, changed.budget) {
      OneLedgerAdds(plan, o, changed.budget);
    }
  }

  lemma OneLedgerAdds(plan: SessionPlan, o: SessionOutcome, b: SessionBudget)
    requires LedgerAdds(plan, o.roundOutcome, o.approvalHandoff, o.secondHandoff, o.terminal, o.completedAt, o.budget)
    requires LedgerAdds(plan, o.roundOutcome, o.approvalHandoff, o.secondHandoff, o.terminal, o.completedAt, b)
    ensures b == o.budget
  {
    hide SecondsLeft;
    SecondsAreWhole(plan.deadline - o.completedAt, b.remainingWallSeconds);
    SecondsAreWhole(plan.deadline - o.completedAt, o.budget.remainingWallSeconds);
  }

  lemma RowPlanIsValid(steps: seq<Step>, plan: SessionPlan)
    requires plan in Reached(steps).l.sessions
    ensures plan.Valid()
  {
    hide Reached, ProcessOk, Control, LedgersOk, Awaiting, Committed, SessionPlan.Valid;
    ReachedIsOk(steps);
    assert RowOk(Reached(steps).l, plan, Reached(steps).l.sessions[plan]);
  }

  datatype Disposition = CompletedDisposition | BlockedDisposition | FailedDisposition | TimedOutDisposition

  /** What the audit recommends; None where the source's table has no entry. */
  function RecommendationForStatus(status: SessionStatus): Option<Disposition> {
    match status
    case SessionCompleted => Some(CompletedDisposition)
    case SessionBlocked => Some(BlockedDisposition)
    case SessionDenied => Some(BlockedDisposition)
    case SessionFailed => Some(FailedDisposition)
    case SessionTimedOut => Some(TimedOutDisposition)
    case SessionApprovalRequired => None
  }

  /** What the audit recommends of a completed session is how its chain ended. */
  lemma RecommendationFollowsTheChain(steps: seq<Step>, plan: SessionPlan)
    requires var rows := Reached(steps).l.sessions; plan in rows && rows[plan].Sealed?
    ensures var o := Reached(steps).l.sessions[plan].outcome;
            var recommended := RecommendationForStatus(o.status);
            && (recommended == Some(CompletedDisposition) <==>
                  LastRunEnded(o.roundOutcome, o.secondHandoff, o.terminal, RunCompleted))
            && (recommended == Some(BlockedDisposition) <==>
                  LastRunEnded(o.roundOutcome, o.secondHandoff, o.terminal, RunBlocked) || HandoffEnded(o.secondHandoff, Denied))
            && (recommended == Some(TimedOutDisposition) <==>
                  LastRunEnded(o.roundOutcome, o.secondHandoff, o.terminal, RunTimedOut) || HandoffEnded(o.secondHandoff, TimedOut))
            && (recommended == None <==> HandoffEnded(o.secondHandoff, ApprovalRequired))
  {
    hide Reached, ProcessOk, Control, LedgersOk, HonestChain, BuildOutcome, StatusSays, Describes, RecommendationForStatus;
    ReachedIsOk(steps);
    var l := Reached(steps).l;
    var o := l.sessions[plan].outcome;
    assert RowOk(l, plan, l.sessions[plan]);
    SealedExactlyWhen(plan, o.roundOutcome, o.approvalHandoff, o.approvalDigests, o.secondHandoff, o.terminal, o.completedAt, o);
    StatusesAreDisjoint(plan, o);
    RecommendationSays(o);
  }

  lemma RecommendationSays(o: SessionOutcome)
    requires forall status :: StatusSays(o.roundOutcome, o.secondHandoff, o.terminal, status) <==> status == o.status
    ensures var recommended := RecommendationForStatus(o.status);
            && (recommended == Some(CompletedDisposition) <==>
                  LastRunEnded(o.roundOutcome, o.secondHandoff, o.terminal, RunCompleted))
            && (recommended == Some(BlockedDisposition) <==>
                  LastRunEnded(o.roundOutcome, o.secondHandoff, o.terminal, RunBlocked) || HandoffEnded(o.secondHandoff, Denied))
            && (recommended == Some(TimedOutDisposition) <==>
                  LastRunEnded(o.roundOutcome, o.secondHandoff, o.terminal, RunTimedOut) || HandoffEnded(o.secondHandoff, TimedOut))
            && (recommended == None <==> HandoffEnded(o.secondHandoff, ApprovalRequired))
  {
    hide LastRunEnded, HandoffEnded;
    assert StatusSays(o.roundOutcome, o.secondHandoff, o.terminal, SessionCompleted) <==> o.status == SessionCompleted;
    assert StatusSays(o.roundOutcome, o.secondHandoff, o.terminal, SessionBlocked) <==> o.status == SessionBlocked;
    assert StatusSays(o.roundOutcome, o.secondHandoff, o.terminal, SessionDenied) <==> o.status == SessionDenied;
    assert StatusSays(o.roundOutcome, o.secondHandoff, o.terminal, SessionTimedOut) <==> o.status == SessionTimedOut;
    assert StatusSays(o.roundOutcome, o.secondHandoff, o.terminal, SessionApprovalRequired) <==> o.status == SessionApprovalRequired;
  }

  lemma StatusesAreDisjoint(plan: SessionPlan, o: SessionOutcome)
    requires HonestChain(plan, o.roundOutcome, o.approvalHandoff, o.secondHandoff, o.terminal)
    requires Describes(plan, o.roundOutcome, o.approvalHandoff, o.approvalDigests, o.secondHandoff, o.terminal, o.completedAt, o)
    ensures forall status :: StatusSays(o.roundOutcome, o.secondHandoff, o.terminal, status) <==> status == o.status
  {
    hide HonestChain, StatusSays, LedgerAdds;
    forall status {
      StatusIsExact(plan, o.roundOutcome, o.approvalHandoff, o.secondHandoff, o.terminal, status);
    }
  }

  /** The audit has a recommendation for every completed session but one that was resumed and whose
      second Broker attempt needed Approval again. */
  lemma RecommendationIsMissingExactlyWhen(steps: seq<Step>, plan: SessionPlan)
    requires var rows := Reached(steps).l.sessions; plan in rows && rows[plan].Sealed?
    ensures var w := Reached(steps);
            var o := w.l.sessions[plan].outcome;
            RecommendationForStatus(o.status).None? <==>
              && Logged(w.resumes, plan)
              && o.secondHandoff.Some? && o.secondHandoff.value.attempt == 2
              && o.secondHandoff.value.status.ApprovalRequired?
  {
    hide Next, HL.Shaped, HL.Offered, SL.Sound, ClaimLog, ProcessOk, SelectedOption, FinalBudget, HonestChain, Preflight;
    ReachedIsOk(steps);
    var w := Reached(steps);
    assert RowOk(w.l, plan, w.l.sessions[plan]);
  }

  /** Every completed session's ledger balances: consumed and remaining add up to the root's budget, the
      consumption is what its runs report, and no more than three provider turns and three Broker
      attempts were made. */
  lemma EveryLedgerBalances(steps: seq<Step>, plan: SessionPlan)
    requires var rows := Reached(steps).l.sessions; plan in rows && rows[plan].Sealed?
    ensures var o := Reached(steps).l.sessions[plan].outcome;
            && o.budget.consumedModelTokens + o.budget.remainingModelTokens == plan.rootPlan.task.budget.modelTokens
            && o.budget.consumedModelTokens == TotalTokens(plan, o.roundOutcome, o.terminal)
            && o.budget.remainingModelTokens >= 0
            && 1 <= o.budget.providerAttempts <= 3 && 1 <= o.budget.brokerAttempts <= 3
            && o.budget.consumedToolCalls + o.budget.remainingToolCalls == 2
  {
    hide Next, HL.Shaped, HL.Offered, SL.Sound, Control, ProcessOk, BuildOutcome, HonestChain;
    ReachedIsOk(steps);
    var o := Reached(steps).l.sessions[plan].outcome;
    assert RowOk(Reached(steps).l, plan, Reached(steps).l.sessions[plan]);
    BudgetsAreConserved(plan, o.roundOutcome, o.approvalHandoff, o.approvalDigests, o.secondHandoff, o.terminal,
                        o.completedAt);
  }

  /** In every reachable state the run behind a claimed continuation has not proposed a tool, whatever the model
      answered: its plan allows none. The service's check for a proposal never fires, and no completed
      continuation row holds one. */
  lemma ContinuationsCannotPropose(steps: seq<Step>, c: ContinuationPlan)
    requires c in Reached(steps).l.continuations
    ensures var l := Reached(steps).l;
            && (c.plan in l.runs && l.runs[c.plan].Done? ==> !l.runs[c.plan].outcome.status.ToolProposed?)
            && (l.continuations[c].Done? ==> !l.continuations[c].outcome.status.ToolProposed?)
  {
    hide Next, HL.Shaped, HL.Offered, SL.Sound, Control, ProcessOk, RowOk, HandoffResultOk;
    ReachedIsOk(steps);
  }

  /******* What is left behind *******/

  /** The row is somebody's work in progress, and whoever that was is gone. */
  ghost predicate Abandoned(w: System, plan: SessionPlan) {
    && plan in w.l.sessions && (w.l.sessions[plan].Started? || w.l.sessions[plan].Resuming?)
    && forall pid :: pid in w.processes && w.processes[pid].phase.Owning? ==> w.processes[pid].plan != plan
  }

  lemma StepLeavesAbandoned(w: System, step: Step, plan: SessionPlan)
    requires Abandoned(w, plan)
    ensures Abandoned(Next(w, step), plan) && Next(w, step).l.sessions[plan] == w.l.sessions[plan]
  {
    hide Preflight, BuildOutcome, Taken, Serve, SelectedOption, SL.Updates, SL.Reused, SL.Clashes, Favourable, Selecting;
    if IsService(step) {
      ServeExtends(w.l, step);
    } else if step.Commit? && step.pid in w.processes && Ready(w.processes[step.pid]) && Built(w.processes[step.pid]).Some? {
      BuiltIsForItsPlan(w.processes[step.pid]);
    } else if step.pid in w.processes && w.processes[step.pid].phase.Owning? && !step.Arrive? && !step.Crash? {
      TakenKeepsOwning(w.l, w.processes[step.pid], step);
    }
  }

  lemma BuiltIsForItsPlan(p: Process)
    requires Ready(p) && Built(p).Some?
    ensures Built(p).value.sessionId == p.plan
  {
    hide SelectedOption, FinalBudget, Status, SessionOutcome.WellShaped;
  }

  lemma TakenKeepsOwning(l: Ledgers, p: Process, step: Step)
    requires p.phase.Owning?
    ensures Taken(l, p, step).Owning?
  {
    hide SelectedOption, PrepareContinuation;
  }

  /** A session whose owner stopped before its commit stays where it was for good: nobody takes the work over. */
  lemma {:induction false} AbandonedSessionsStay(w: System, steps: seq<Step>, plan: SessionPlan)
    requires Abandoned(w, plan)
    ensures plan in Run(w, steps).l.sessions && Run(w, steps).l.sessions[plan] == w.l.sessions[plan]
    decreases steps
  {
    hide Next, Abandoned;
    if steps == [] {
      assert plan in w.l.sessions by { AbandonedIsThere(w, plan); }
    } else {
      StepLeavesAbandoned(w, steps[0], plan);
      AbandonedSessionsStay(Next(w, steps[0]), steps[1..], plan);
    }
  }

  lemma AbandonedIsThere(w: System, plan: SessionPlan)
    requires Abandoned(w, plan)
    ensures plan in w.l.sessions
  {
  }

  /** A process that has crashed is stopped, has changed nothing else, and does nothing more. */
  lemma CrashedIsGone(w: System, pid: nat, step: Step)
    requires pid in w.processes
    ensures var after := Next(w, Crash(pid));
            && after == w.(processes := w.processes[pid := w.processes[pid].(phase := Stopped)])
            && (!IsService(step) && step.pid == pid ==> Next(after, step) == after)
  {
  }
}
