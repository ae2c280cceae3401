/** Sessions, their four ledgers and everyone who works on them, interleaved one statement at a time.
    SELECT and write are separate steps wherever the write does not decide alone, and anyone may stop anywhere. */
module SessionProtocol {
  import opened Options
  import opened AgentRecords
  import opened SessionOutcomes
  import opened ClaimProtocol
  import HL = HandoffLedger
  import SL = SessionLedger

  datatype Ledgers = Ledgers(
    runs: map<RunPlan, Checkpoint<RunOutcome>>, handoffs: HL.Rows,
    continuations: map<ContinuationPlan, Checkpoint<ContinuationOutcome>>, sessions: SL.Rows)

  predicate Ran(l: Ledgers, o: RunOutcome) {
    o.planId in l.runs && l.runs[o.planId] == Done(o)
  }

  predicate Handed(l: Ledgers, o: HandoffOutcome) {
    o.handoffId in l.handoffs && l.handoffs[o.handoffId] == Done(o)
  }

  predicate Continued(l: Ledgers, o: ContinuationOutcome) {
    o.continuationId in l.continuations && l.continuations[o.continuationId] == Done(o)
  }

  /** The columns a run and a continuation may not share with another. */
  datatype Column = KeyColumn(key: string) | ObservationColumn(observation: Observation) | PlanColumn(plan: RunPlan)

  function RunColumns(p: RunPlan): set<Column> {
    {KeyColumn(p.key)}
  }

  function ContinuationColumns(c: ContinuationPlan): set<Column> {
    {KeyColumn(c.key), ObservationColumn(c.observationId), PlanColumn(c.plan)}
  }

  /******* Processes *******/

  /** What a caller brings to `resume_after_approval`. */
  datatype Resume = Resume(waiting: SessionOutcome, approvals: set<string>, callId: nat, key: string)

  datatype Phase =
    /** Preflight passed; the SELECT comes next. */
    | Arrived
    /** The SELECT raised no objection; the INSERT or UPDATE comes next. */
    | Writing
    /** The session row is its own. */
    | Owning(round: Option<RunOutcome>, second: Option<HandoffOutcome>, terminal: Option<ContinuationOutcome>)
    | Stopped

  /** One call of `execute`, or of `resume_after_approval` where there is a `resume`. */
  datatype Process = Process(plan: SessionPlan, now: Time, resume: Option<Resume>, phase: Phase)
  {
    function Approval(): Option<HandoffOutcome> {
      if resume.Some? then resume.value.waiting.secondHandoff else None
    }

    function Approvals(): set<string> {
      if resume.Some? then resume.value.approvals else {}
    }
  }

  /** The handoff a process asks for. */
  function HandoffFor(p: Process, round: RunOutcome, call: BrokerCall): HandoffPlan {
    if p.resume.None? then FirstHandoffPlan(p.plan, round, call, p.now)
    else
      RetryHandoffPlan(p.plan, round, call, if p.Approval().Some? then Some(p.Approval().value.handoffId) else None,
                       p.now, p.resume.value.callId, p.resume.value.key)
  }

  /** `selected` holds the handoffs whose SELECTs raised no objection and whose INSERT is still to come; `claims`
      and `resumes` record whose INSERT and whose UPDATE to 'resuming' took effect. */
  datatype System = System(
    l: Ledgers, selected: set<HandoffPlan>, processes: map<nat, Process>,
    claims: seq<(nat, SessionPlan)>, resumes: seq<(nat, SessionPlan)>)

  datatype Step =
    | ClaimRun(run: RunPlan)
    | CompleteRun(ran: RunOutcome)
    | SelectHandoff(handoff: HandoffPlan)
    | InsertHandoff(handoff: HandoffPlan)
    | CompleteHandoff(handed: HandoffOutcome)
    | ClaimContinuation(continuation: ContinuationPlan)
    | CompleteContinuation(continued: ContinuationOutcome)
    | Arrive(pid: nat, plan: SessionPlan, now: Time, resume: Option<Resume>)
    | Look(pid: nat)
    | Write(pid: nat)
    | TakeRound(pid: nat)
    | TakeHandoff(pid: nat)
    | TakeTerminal(pid: nat, taskId: nat, key: string, runKey: string)
    | Commit(pid: nat)
    | Crash(pid: nat)

  /******* Steps of the run, handoff and continuation services *******/

  ghost function Serve(l: Ledgers, step: Step): Ledgers {
    match step
    case ClaimRun(p) =>
      if p in l.runs || Conflicts(RunColumns, l.runs, p) then l else l.(runs := l.runs[p := Started])
    case CompleteRun(o) =>
      if o.planId in l.runs && l.runs[o.planId].Started? && RunResultOk(o.planId, o) then
        l.(runs := l.runs[o.planId := Done(o)])
      else l
    case InsertHandoff(h) =>
      if HL.Insertable(l.handoffs, h) then l.(handoffs := l.handoffs[h := Started]) else l
    case CompleteHandoff(o) =>
      if o.handoffId in l.handoffs && l.handoffs[o.handoffId].Started? && HandoffResultOk(o.handoffId, o) then
        l.(handoffs := l.handoffs[o.handoffId := Done(o)])
      else l
    case ClaimContinuation(c) =>
      if !c.WellShaped() || !Ran(l, c.rootOutcome) || !Handed(l, c.handoff) then l
      else if c in l.continuations || Conflicts(ContinuationColumns, l.continuations, c) then l
      else l.(continuations := l.continuations[c := Started])
    case CompleteContinuation(o) =>
      if o.continuationId in l.continuations && l.continuations[o.continuationId].Started?
         && ContinuationResultOk(o.continuationId, o) && Ran(l, o.agentOutcome) then
        l.(continuations := l.continuations[o.continuationId := Done(o)])
      else l
    case _ => l
  }

  /** The handoff passes its preflight and the SELECTs of its claim. */
  ghost predicate Selectable(l: Ledgers, h: HandoffPlan) {
    && h.WellShaped() && h.agentOutcomeDigest.planId == h.agentPlan && Ran(l, h.agentOutcomeDigest)
    && h.agentOutcomeDigest.intent == Some(h.call.Intent()) && HL.Admits(l.handoffs, h)
  }

  ghost function Selecting(w: System, step: Step): set<HandoffPlan> {
    if step.SelectHandoff? && Selectable(w.l, step.handoff) then w.selected + {step.handoff}
    else if step.InsertHandoff? then w.selected - {step.handoff}
    else w.selected
  }

  /******* Steps of a session process *******/

  /** `_preflight`, on the authoritative ledgers. */
  ghost predicate Preflight(l: Ledgers, plan: SessionPlan) {
    && plan.Valid() && plan.rootPlan.limits.Valid()
    && Ran(l, plan.rootOutcome) && Handed(l, plan.firstHandoff)
  }

  ghost function Moved(w: System, pid: nat, phase: Phase): System
    requires pid in w.processes
  {
    w.(processes := w.processes[pid := w.processes[pid].(phase := phase)])
  }

  function Favourable(sessions: SL.Rows, p: Process): bool {
    if p.resume.None? then p.plan !in sessions && !SL.Seen(sessions, p.plan)
    else
      var waiting := p.resume.value.waiting;
      p.plan in sessions && sessions[p.plan] == SL.Waiting(waiting) && SL.AwaitsApproval(p.plan, waiting)
  }

  ghost function WriteClaim(w: System, pid: nat, p: Process): System
    requires pid in w.processes && p == w.processes[pid]
  {
    var sessions := w.l.sessions;
    if p.resume.None? then
      if p.plan in sessions || SL.Clashes(sessions, p.plan) then Moved(w, pid, Stopped)
      else Moved(w, pid, Owning(None, None, None)).(
           l := w.l.(sessions := sessions[p.plan := SL.Started]), claims := w.claims + [(pid, p.plan)])
    else
      if p.plan in sessions && sessions[p.plan].Waiting? then
        Moved(w, pid, Owning(None, None, None)).(
          l := w.l.(sessions := sessions[p.plan := SL.Resuming(sessions[p.plan].outcome)]),
          resumes := w.resumes + [(pid, p.plan)])
      else Moved(w, pid, Stopped)
  }

  /** The process has everything its outcome is made of. */
  predicate Ready(p: Process) {
    && p.phase.Owning? && p.phase.round.Some?
    && (p.phase.second.Some? <==> p.phase.round.value.status.ToolProposed? && SelectedOption(p.plan, p.phase.round.value).Some?)
    && (p.phase.terminal.Some? <==> p.phase.second.Some? && p.phase.second.value.status.Completed?)
  }

  function Built(p: Process): Option<SessionOutcome>
    requires Ready(p)
  {
    BuildOutcome(p.plan, p.phase.round.value, p.Approval(), p.Approvals(), p.phase.second, p.phase.terminal, p.now)
  }

  /** The row a process's commit leaves behind: it pauses at the first need for Approval only. */
  function Target(p: Process, o: SessionOutcome): SL.Row {
    if p.resume.None? && o.status.SessionApprovalRequired? then SL.Waiting(o) else SL.Sealed(o)
  }

  ghost function WriteOutcome(w: System, pid: nat, p: Process): System
    requires pid in w.processes && p == w.processes[pid]
  {
    if !Ready(p) then w
    else if Built(p).None? then Moved(w, pid, Stopped)
    else
      var o := Built(p).value;
      if SL.Updates(w.l.sessions, o, Target(p, o).Sealed?) && !SL.Reused(w.l.sessions, o) then
        Moved(w, pid, Stopped).(l := w.l.(sessions := w.l.sessions[o.sessionId := Target(p, o)]))
      else Moved(w, pid, Stopped)
  }

  /** What an owner has after reading the run, handoff or continuation it waits for, if that is completed. */
  function Taken(l: Ledgers, p: Process, step: Step): Phase
    requires p.phase.Owning?
  {
    var phase := p.phase;
    if step.TakeRound? && phase.round.None? then
      if p.plan.roundPlan in l.runs && l.runs[p.plan.roundPlan].Done? then
        Owning(Some(l.runs[p.plan.roundPlan].outcome), None, None)
      else phase
    else if step.TakeHandoff? && phase.round.Some? && phase.second.None? then
      var option := SelectedOption(p.plan, phase.round.value);
      if option.None? then phase
      else
        var h := HandoffFor(p, phase.round.value, option.value.call);
        if h in l.handoffs && l.handoffs[h].Done? then Owning(phase.round, Some(l.handoffs[h].outcome), None)
        else phase
    else if step.TakeTerminal? && phase.round.Some? && phase.second.Some? && phase.second.value.status.Completed? then
      var c := PrepareContinuation(p.plan.roundPlan, phase.round.value, phase.second.value, p.now,
                                   step.key, step.runKey, step.taskId, true);
      if c.Some? && c.value in l.continuations && l.continuations[c.value].Done? then
        Owning(phase.round, phase.second, Some(l.continuations[c.value].outcome))
      else phase
    else phase
  }

  predicate IsService(step: Step) {
    step.ClaimRun? || step.CompleteRun? || step.SelectHandoff? || step.InsertHandoff? || step.CompleteHandoff?
    || step.ClaimContinuation? || step.CompleteContinuation?
  }

  /** One atomic step; a step that does not apply changes nothing. */
  ghost function Next(w: System, step: Step): System {
    if IsService(step) then
      if step.InsertHandoff? && step.handoff !in w.selected then w
      else w.(l := Serve(w.l, step), selected := Selecting(w, step))
    else if step.Arrive? then
      if step.pid in w.processes || !(step.plan.createdAt <= step.now < step.plan.deadline) || !Preflight(w.l, step.plan) then w
      else w.(processes := w.processes[step.pid := Process(step.plan, step.now, step.resume, Arrived)])
    else if step.pid !in w.processes then w
    else
      var p := w.processes[step.pid];
      if step.Crash? then Moved(w, step.pid, Stopped)
      else if step.Look? && p.phase.Arrived? then
        Moved(w, step.pid, if Favourable(w.l.sessions, p) then Writing else Stopped)
      else if step.Write? && p.phase.Writing? then WriteClaim(w, step.pid, p)
      else if step.Commit? then WriteOutcome(w, step.pid, p)
      else if p.phase.Owning? then Moved(w, step.pid, Taken(w.l, p, step))
      else w
  }

  ghost function Run(w: System, steps: seq<Step>): System
    decreases steps
  {
    if steps == [] then w else Run(Next(w, steps[0]), steps[1..])
  }

  const EMPTY := System(Ledgers(map[], map[], map[], map[]), {}, map[], [], [])

  /******* The invariant *******/

  ghost predicate LedgersOk(l: Ledgers) {
    && (forall p :: p in l.runs && l.runs[p].Done? ==> RunResultOk(p, l.runs[p].outcome))
    && HL.Shaped(l.handoffs)
    && (forall h :: h in l.handoffs && l.handoffs[h].Done? ==> HandoffResultOk(h, l.handoffs[h].outcome))
    && (forall c :: c in l.continuations ==> c.WellShaped())
    && (forall c :: c in l.continuations && l.continuations[c].Done? ==> ContinuationResultOk(c, l.continuations[c].outcome))
    && SL.Sound(l.sessions)
  }

  /** What is recorded stays recorded. */
  ghost predicate Extends(l: Ledgers, l': Ledgers) {
    && RowsPersist(l.runs, l'.runs) && RowsPersist(l.handoffs, l'.handoffs)
    && RowsPersist(l.continuations, l'.continuations)
  }

  ghost predicate Made(p: Process, round: RunOutcome, o: HandoffOutcome) {
    if p.resume.None? then FirstAttempt(p.plan, round, o)
    else
      && p.Approval().Some? && p.Approval().value.status.ApprovalRequired?
      && FirstAttempt(p.plan, round, p.Approval().value)
      && RetryAttempt(p.plan, round, p.Approval().value, o)
  }

  /** Everything a process holds is in the ledgers, and is what it should be. */
  ghost predicate ProcessOk(l: Ledgers, p: Process) {
    && Preflight(l, p.plan)
    && (p.resume.Some? && (p.phase.Writing? || p.phase.Owning?) ==> Awaiting(l, p.plan, p.resume.value.waiting))
    && (p.phase.Owning? ==>
          && (p.phase.round.Some? ==> Ran(l, p.phase.round.value) && p.phase.round.value.planId == p.plan.roundPlan)
          && (p.phase.second.Some? ==>
                p.phase.round.Some? && Handed(l, p.phase.second.value) && Made(p, p.phase.round.value, p.phase.second.value))
          && (p.phase.terminal.Some? ==>
                p.phase.second.Some? && Continued(l, p.phase.terminal.value)
                && TerminalOf(p.plan, p.phase.round.value, p.phase.second.value, p.phase.terminal.value)))
  }

  /** A committed outcome is the sealed form of an honest chain whose every link is in the ledgers. */
  ghost predicate Committed(l: Ledgers, plan: SessionPlan, o: SessionOutcome) {
    && BuildOutcome(plan, o.roundOutcome, o.approvalHandoff, o.approvalDigests, o.secondHandoff, o.terminal, o.completedAt)
       == Some(o)
    && HonestChain(plan, o.roundOutcome, o.approvalHandoff, o.secondHandoff, o.terminal)
    && Ran(l, o.roundOutcome)
    && (o.approvalHandoff.Some? ==> Handed(l, o.approvalHandoff.value))
    && (o.secondHandoff.Some? ==> Handed(l, o.secondHandoff.value))
    && (o.terminal.Some? ==> Continued(l, o.terminal.value))
  }

  ghost predicate Awaiting(l: Ledgers, plan: SessionPlan, o: SessionOutcome) {
    && Committed(l, plan, o) && o.status.SessionApprovalRequired? && o.approvalHandoff.None?
    && o.secondHandoff.Some? && o.secondHandoff.value.status.ApprovalRequired?
  }

  ghost predicate RowOk(l: Ledgers, plan: SessionPlan, row: SL.Row) {
    && Preflight(l, plan)
    && (row.Waiting? || row.Resuming? ==> Awaiting(l, plan, row.outcome))
    && (row.Sealed? ==> Committed(l, plan, row.outcome)
                        && (row.outcome.approvalHandoff.None? ==> !row.outcome.status.SessionApprovalRequired?))
  }

  /** The row a process that looked at `waiting` may still find. */
  predicate PastWaiting(row: SL.Row, waiting: SessionOutcome) {
    row == SL.Waiting(waiting) || row.Resuming? || row.Sealed?
  }

  predicate Owns(p: Process, row: SL.Row) {
    if p.resume.None? then row.Started? else row == SL.Resuming(p.resume.value.waiting)
  }

  /** No session row has two owners. */
  ghost predicate OneOwner(ps: map<nat, Process>) {
    forall p, q | p in ps && q in ps && p != q && ps[p].phase.Owning? && ps[q].phase.Owning? :: ps[p].plan != ps[q].plan
  }

  /** Each session was claimed once. */
  ghost predicate ClaimLog(sessions: SL.Rows, claims: seq<(nat, SessionPlan)>) {
    && (forall e :: e in claims ==> e.1 in sessions)
    && (forall i, j :: 0 <= i < j < |claims| ==> claims[i].1 != claims[j].1)
  }

  /** Each session was resumed at most once, and those that were are the ones past 'resuming'. */
  ghost predicate ResumeLog(sessions: SL.Rows, resumes: seq<(nat, SessionPlan)>) {
    && (forall i, j :: 0 <= i < j < |resumes| ==> resumes[i].1 != resumes[j].1)
    && (forall e :: e in resumes ==> e.1 in sessions && PastResume(sessions[e.1]))
    && (forall plan :: plan in sessions && PastResume(sessions[plan]) ==> Logged(resumes, plan))
  }

  ghost predicate Logged(log: seq<(nat, SessionPlan)>, plan: SessionPlan) {
    exists e :: e in log && e.1 == plan
  }

  ghost predicate Control(w: System) {
    && (forall pid :: pid in w.processes ==> RowsAllow(w.l.sessions, w.processes[pid]))
    && OneOwner(w.processes)
    && ClaimLog(w.l.sessions, w.claims)
    && ResumeLog(w.l.sessions, w.resumes)
  }

  ghost predicate RowsAllow(sessions: SL.Rows, p: Process) {
    && (p.phase.Owning? ==> p.plan in sessions && Owns(p, sessions[p.plan]))
    && (p.phase.Writing? && p.resume.Some? ==>
          p.plan in sessions && PastWaiting(sessions[p.plan], p.resume.value.waiting))
  }

  /** The row has been through 'resuming': only then does its outcome carry the attempt that waited. */
  predicate PastResume(row: SL.Row) {
    row.Resuming? || (row.Sealed? && row.outcome.approvalHandoff.Some?)
  }

  ghost predicate Inv(w: System) {
    && LedgersOk(w.l)
    && (forall h :: h in w.selected ==> HL.Offered(w.l.handoffs, h))
    && (forall pid :: pid in w.processes ==> ProcessOk(w.l, w.processes[pid]))
    && (forall plan :: plan in w.l.sessions ==> RowOk(w.l, plan, w.l.sessions[plan]))
    && Control(w)
  }

  /******* Services keep it *******/

  lemma ServeExtends(l: Ledgers, step: Step)
    ensures Extends(l, Serve(l, step)) && Serve(l, step).sessions == l.sessions
  {
  }

  lemma ServeKeepsLedgers(l: Ledgers, step: Step)
    requires LedgersOk(l) && (step.InsertHandoff? ==> HL.Offered(l.handoffs, step.handoff))
    ensures LedgersOk(Serve(l, step))
  {
    hide HL.Shaped, HL.Offered, SL.Sound, HL.Insertable, RunResultOk, HandoffResultOk, ContinuationResultOk, Conflicts;
    if step.InsertHandoff? && Serve(l, step) != l {
      HL.InsertKeepsShaped(l.handoffs, step.handoff);
    } else if step.CompleteHandoff? && Serve(l, step) != l {
      HL.CompletingKeepsShaped(l.handoffs, step.handed);
    }
  }

  lemma FactsPersist(l: Ledgers, l': Ledgers, p: Process)
    requires Extends(l, l') && ProcessOk(l, p)
    ensures ProcessOk(l', p)
  {
    hide BuildOutcome, HonestChain;
  }

  lemma RowPersists(l: Ledgers, l': Ledgers, plan: SessionPlan, row: SL.Row)
    requires Extends(l, l') && RowOk(l, plan, row)
    ensures RowOk(l', plan, row)
  {
    hide BuildOutcome, HonestChain;
  }

  lemma SelectedStayOffered(w: System, step: Step)
    requires forall h :: h in w.selected ==> HL.Offered(w.l.handoffs, h)
    ensures forall h :: h in Selecting(w, step) ==> HL.Offered(Serve(w.l, step).handoffs, h)
  {
    hide Serve, HL.Offered, HL.Admits, HandoffPlan.WellShaped;
    ServeExtends(w.l, step);
    forall h | h in Selecting(w, step) ensures HL.Offered(Serve(w.l, step).handoffs, h) {
      if h !in w.selected {
        HL.AdmittedIsOffered(w.l.handoffs, h);
      }
      HL.OffersPersist(w.l.handoffs, Serve(w.l, step).handoffs, h);
    }
  }

  /** Whatever only adds to the ledgers leaves processes and rows in order. */
  lemma ExtendingKeepsInv(w: System, w': System)
    requires Inv(w) && Extends(w.l, w'.l) && LedgersOk(w'.l)
    requires w' == w.(l := w'.l, selected := w'.selected) && w'.l.sessions == w.l.sessions
    requires forall h :: h in w'.selected ==> HL.Offered(w'.l.handoffs, h)
    ensures Inv(w')
  {
    hide ProcessOk, RowOk, LedgersOk, HL.Offered, Extends, OneOwner, ClaimLog, ResumeLog, RowsAllow;
    forall pid | pid in w'.processes ensures ProcessOk(w'.l, w'.processes[pid]) {
      FactsPersist(w.l, w'.l, w.processes[pid]);
    }
    forall plan | plan in w'.l.sessions ensures RowOk(w'.l, plan, w'.l.sessions[plan]) {
      RowPersists(w.l, w'.l, plan, w.l.sessions[plan]);
    }
  }

  lemma ServiceStepKeepsInv(w: System, step: Step)
    requires Inv(w) && IsService(step)
    ensures Inv(Next(w, step))
  {
    hide Serve, ProcessOk, RowOk, LedgersOk, HL.Offered, Control, Selecting;
    if !step.InsertHandoff? || step.handoff in w.selected {
      ServeExtends(w.l, step);
      ServeKeepsLedgers(w.l, step);
      SelectedStayOffered(w, step);
      ExtendingKeepsInv(w, Next(w, step));
    }
  }

  /******* Session processes keep it *******/

  lemma MoveKeepsInv(w: System, pid: nat, phase: Phase)
    requires Inv(w) && pid in w.processes
    requires ProcessOk(w.l, w.processes[pid].(phase := phase)) && RowsAllow(w.l.sessions, w.processes[pid].(phase := phase))
    requires phase.Owning? ==> w.processes[pid].phase.Owning?
    ensures Inv(Moved(w, pid, phase))
  {
    hide Preflight, HonestChain, BuildOutcome, TerminalOf, FirstAttempt, RetryAttempt, SL.Sound, HL.Shaped, HL.Offered, ClaimLog, ResumeLog;
  }

  lemma LookKeepsInv(w: System, pid: nat)
    requires Inv(w) && pid in w.processes && w.processes[pid].phase.Arrived?
    ensures Inv(Next(w, Look(pid)))
  {
    hide Preflight, HonestChain, BuildOutcome, TerminalOf, FirstAttempt, RetryAttempt, SL.Sound, HL.Shaped, HL.Offered, ClaimLog, ResumeLog;
    var p := w.processes[pid];
    if Favourable(w.l.sessions, p) {
      if p.resume.Some? {
        assert RowOk(w.l, p.plan, w.l.sessions[p.plan]);
      }
      MoveKeepsInv(w, pid, Writing);
    } else {
      MoveKeepsInv(w, pid, Stopped);
    }
  }

  lemma ClaimIsLogged(sessions: SL.Rows, claims: seq<(nat, SessionPlan)>, pid: nat, plan: SessionPlan)
    requires ClaimLog(sessions, claims) && plan !in sessions
    ensures ClaimLog(sessions[plan := SL.Started], claims + [(pid, plan)])
  {
  }

  lemma ResumeIsLogged(sessions: SL.Rows, resumes: seq<(nat, SessionPlan)>, pid: nat, plan: SessionPlan, o: SessionOutcome)
    requires ResumeLog(sessions, resumes) && plan in sessions && sessions[plan].Waiting?
    ensures ResumeLog(sessions[plan := SL.Resuming(o)], resumes + [(pid, plan)])
  {
  }

  lemma ClaimsSurvive(sessions: SL.Rows, claims: seq<(nat, SessionPlan)>, plan: SessionPlan, row: SL.Row)
    requires ClaimLog(sessions, claims)
    ensures ClaimLog(sessions[plan := row], claims)
  {
  }

  lemma LogsSurvive(sessions: SL.Rows, claims: seq<(nat, SessionPlan)>, resumes: seq<(nat, SessionPlan)>,
                    plan: SessionPlan, row: SL.Row)
    requires ResumeLog(sessions, resumes) && ClaimLog(sessions, claims)
    requires if plan in sessions then PastResume(row) == PastResume(sessions[plan]) else !PastResume(row)
    ensures ResumeLog(sessions[plan := row], resumes) && ClaimLog(sessions[plan := row], claims)
  {
  }

  /** A process that takes over or gives up one row leaves every other process and row as they were. */
  lemma RowChangeKeepsInv(w: System, w': System, pid: nat, phase: Phase, row: SL.Row)
    requires Inv(w) && pid in w.processes
    requires var p := w.processes[pid];
      && w'.processes == w.processes[pid := p.(phase := phase)]
      && w'.l == w.l.(sessions := w.l.sessions[p.plan := row]) && w'.selected == w.selected
      && ProcessOk(w.l, p.(phase := phase)) && RowOk(w.l, p.plan, row)
      && RowsAllow(w'.l.sessions, p.(phase := phase))
    requires SL.Sound(w'.l.sessions)
    requires ClaimLog(w'.l.sessions, w'.claims) && ResumeLog(w'.l.sessions, w'.resumes)
    requires var p := w.processes[pid]; forall q | q in w.processes && q != pid && w.processes[q].plan == p.plan ::
      !w.processes[q].phase.Owning? && RowsAllow(w'.l.sessions, w.processes[q])
    ensures Inv(w')
  {
    hide ProcessOk, RowOk, Preflight, Committed, SL.Sound, HL.Shaped, HL.Offered, ClaimLog, ResumeLog;
    var sessions, sessions' := w.l.sessions, w'.l.sessions;
    assert Extends(w.l, w'.l);
    forall q | q in w'.processes ensures ProcessOk(w'.l, w'.processes[q]) {
      if q != pid {
        FactsPersist(w.l, w'.l, w.processes[q]);
      } else {
        FactsPersist(w.l, w'.l, w'.processes[q]);
      }
    }
    forall plan | plan in sessions' ensures RowOk(w'.l, plan, sessions'[plan]) {
      RowPersists(w.l, w'.l, plan, sessions'[plan]);
    }
  }

  lemma InsertKeepsInv(w: System, pid: nat)
    requires Inv(w) && pid in w.processes && w.processes[pid].phase.Writing? && w.processes[pid].resume.None?
    ensures Inv(Next(w, Write(pid)))
  {
    hide Preflight, HonestChain, BuildOutcome, TerminalOf, FirstAttempt, RetryAttempt, SL.Sound, HL.Shaped, HL.Offered, ClaimLog, ResumeLog;
    var p := w.processes[pid];
    var w' := Next(w, Write(pid));
    if p.plan in w.l.sessions || SL.Clashes(w.l.sessions, p.plan) {
      MoveKeepsInv(w, pid, Stopped);
    } else {
      SL.InsertKeepsSound(w.l.sessions, p.plan);
      ClaimIsLogged(w.l.sessions, w.claims, pid, p.plan);
      LogsSurvive(w.l.sessions, w.claims, w.resumes, p.plan, SL.Started);
      RowChangeKeepsInv(w, w', pid, Owning(None, None, None), SL.Started);
    }
  }

  lemma ResumeKeepsInv(w: System, pid: nat)
    requires Inv(w) && pid in w.processes && w.processes[pid].phase.Writing? && w.processes[pid].resume.Some?
    ensures Inv(Next(w, Write(pid)))
  {
    hide Preflight, HonestChain, BuildOutcome, TerminalOf, FirstAttempt, RetryAttempt, SL.Sound, HL.Shaped, HL.Offered, ClaimLog, ResumeLog;
    var p := w.processes[pid];
    var w' := Next(w, Write(pid));
    var sessions := w.l.sessions;
    if p.plan in sessions && sessions[p.plan].Waiting? {
      var waiting := sessions[p.plan].outcome;
      SL.WaitingRowMayResume(sessions, p.plan);
      ResumeIsLogged(sessions, w.resumes, pid, p.plan, waiting);
      ClaimsSurvive(sessions, w.claims, p.plan, SL.Resuming(waiting));
      RowChangeKeepsInv(w, w', pid, Owning(None, None, None), SL.Resuming(waiting));
    } else {
      MoveKeepsInv(w, pid, Stopped);
    }
  }

  /** On resume the round is the one the waiting outcome was built from, so the attempt that waited is
      still the round's first attempt for the selected call. */
  lemma ResumedRound(l: Ledgers, p: Process, round: RunOutcome)
    requires ProcessOk(l, p) && p.resume.Some? && p.phase.Owning?
    requires Ran(l, round) && round.planId == p.plan.roundPlan
    ensures round == p.resume.value.waiting.roundOutcome
    ensures p.Approval().Some? && p.Approval().value.status.ApprovalRequired?
    ensures FirstAttempt(p.plan, round, p.Approval().value)
    ensures round.status.ToolProposed? && SelectedOption(p.plan, round).Some?
  {
    hide BuildOutcome, SelectedOption, HandoffResultOk, Preflight;
    var waiting := p.resume.value.waiting;
    assert HonestChain(p.plan, waiting.roundOutcome, None, waiting.secondHandoff, waiting.terminal);
  }

  lemma HandoffIsMade(l: Ledgers, p: Process, call: BrokerCall)
    requires LedgersOk(l) && ProcessOk(l, p) && p.phase.Owning? && p.phase.round.Some?
    requires SelectedOption(p.plan, p.phase.round.value).Some?
             && call == SelectedOption(p.plan, p.phase.round.value).value.call
    requires var h := HandoffFor(p, p.phase.round.value, call); h in l.handoffs && l.handoffs[h].Done?
    ensures var o := l.handoffs[HandoffFor(p, p.phase.round.value, call)].outcome;
            Handed(l, o) && Made(p, p.phase.round.value, o)
  {
    hide BuildOutcome, SelectedOption, RunResultOk, Preflight, HL.Shaped, HL.Offered, SL.Sound, HonestChain;
    if p.resume.Some? {
      ResumedRound(l, p, p.phase.round.value);
    }
  }

  lemma TerminalIsMade(l: Ledgers, p: Process, step: Step)
    requires LedgersOk(l) && ProcessOk(l, p) && p.phase.Owning? && p.phase.round.Some? && p.phase.second.Some?
    requires step.TakeTerminal? && Taken(l, p, step) != p.phase
    ensures var o := Taken(l, p, step).terminal;
            && o.Some? && Continued(l, o.value)
            && TerminalOf(p.plan, p.phase.round.value, p.phase.second.value, o.value)
  {
    hide BuildOutcome, SelectedOption, RunResultOk, Preflight, HL.Shaped, HL.Offered, SL.Sound, HonestChain, Committed, Made;
  }

  lemma TakenIsOk(l: Ledgers, p: Process, step: Step)
    requires LedgersOk(l) && ProcessOk(l, p) && p.phase.Owning?
    ensures ProcessOk(l, p.(phase := Taken(l, p, step)))
    ensures Taken(l, p, step).Owning?
  {
    hide BuildOutcome, SelectedOption, Preflight, HL.Shaped, HL.Offered, SL.Sound, HonestChain, Committed, FirstAttempt, RetryAttempt,
      TerminalOf, PrepareContinuation, HandoffResultOk, ContinuationResultOk;
    if Taken(l, p, step) != p.phase {
      if step.TakeHandoff? {
        HandoffIsMade(l, p, SelectedOption(p.plan, p.phase.round.value).value.call);
      } else if step.TakeTerminal? {
        TerminalIsMade(l, p, step);
      }
    }
  }

  lemma TakeKeepsInv(w: System, pid: nat, step: Step)
    requires Inv(w) && pid in w.processes && w.processes[pid].phase.Owning?
    ensures Inv(Moved(w, pid, Taken(w.l, w.processes[pid], step)))
  {
    hide Preflight, SL.Sound, HL.Shaped, HL.Offered, ClaimLog, ResumeLog, Committed, RunResultOk, Taken, ProcessOk;
    TakenIsOk(w.l, w.processes[pid], step);
    MoveKeepsInv(w, pid, Taken(w.l, w.processes[pid], step));
  }

  /** What an owner commits is an honest chain. */
  lemma ReadyIsHonest(l: Ledgers, p: Process)
    requires LedgersOk(l) && ProcessOk(l, p) && Ready(p)
    ensures HonestChain(p.plan, p.phase.round.value, p.Approval(), p.phase.second, p.phase.terminal)
    ensures p.resume.Some? ==> p.phase.second.Some?
  {
    hide BuildOutcome, SelectedOption, HL.Shaped, HL.Offered, SL.Sound, Committed, FirstAttempt, RetryAttempt, TerminalOf;
    if p.resume.Some? {
      ResumedRound(l, p, p.phase.round.value);
    }
  }

  /** The components of a built outcome are what it was built from. */
  lemma BuiltIsCommitted(l: Ledgers, p: Process)
    requires LedgersOk(l) && ProcessOk(l, p) && Ready(p) && Built(p).Some?
    ensures var o := Built(p).value;
      && Committed(l, p.plan, o) && RowOk(l, p.plan, Target(p, o))
      && o.sessionId == p.plan && (o.approvalHandoff.Some? <==> p.resume.Some?)
  {
    hide SelectedOption, HL.Shaped, HL.Offered, SL.Sound, HonestChain, RunResultOk, HandoffResultOk, FinalBudget, Status,
      SessionOutcome.WellShaped, TerminalOf;
    ReadyIsHonest(l, p);
    var o := Built(p).value;
    if p.resume.Some? {
      ApprovalIsHanded(l, p);
    }
    StatusOfBuilt(p);
  }

  lemma ApprovalIsHanded(l: Ledgers, p: Process)
    requires ProcessOk(l, p) && p.resume.Some? && p.phase.Owning?
    ensures p.Approval().Some? && Handed(l, p.Approval().value)
  {
    hide BuildOutcome, HonestChain, Preflight;
  }

  /** Only a session waiting for a Broker's Approval has status approval_required. */
  lemma StatusOfBuilt(p: Process)
    requires Ready(p) && Built(p).Some?
    ensures Built(p).value.status.SessionApprovalRequired? ==>
              p.phase.second.Some? && p.phase.second.value.status.ApprovalRequired?
  {
    hide SelectedOption, FinalBudget;
  }

  lemma CommitKeepsInv(w: System, pid: nat)
    requires Inv(w) && pid in w.processes
    ensures Inv(WriteOutcome(w, pid, w.processes[pid]))
  {
    hide Preflight, HonestChain, BuildOutcome, SL.Sound, HL.Shaped, HL.Offered, ClaimLog, ResumeLog, Committed, RunResultOk, RowOk, Built, Awaiting;
    var p := w.processes[pid];
    if Ready(p) {
      if Built(p).None? {
        MoveKeepsInv(w, pid, Stopped);
      } else {
        BuiltIsCommitted(w.l, p);
        var o := Built(p).value;
        var w' := WriteOutcome(w, pid, p);
        if SL.Updates(w.l.sessions, o, Target(p, o).Sealed?) && !SL.Reused(w.l.sessions, o) {
          SL.WriteKeepsSound(w.l.sessions, o, Target(p, o));
          LogsSurvive(w.l.sessions, w.claims, w.resumes, p.plan, Target(p, o));
          RowChangeKeepsInv(w, w', pid, Stopped, Target(p, o));
        } else {
          MoveKeepsInv(w, pid, Stopped);
        }
      }
    }
  }

  lemma StepKeepsInv(w: System, step: Step)
    requires Inv(w)
    ensures Inv(Next(w, step))
  {
    hide Inv, Serve, WriteClaim, WriteOutcome, Preflight, Favourable, Taken, Process.Approval;
    if IsService(step) {
      ServiceStepKeepsInv(w, step);
    } else if step.Arrive? {
      ArriveKeepsInv(w, step);
    } else if step.pid in w.processes {
      var p := w.processes[step.pid];
      if step.Crash? {
        CrashKeepsInv(w, step.pid);
      } else if step.Look? && p.phase.Arrived? {
        LookKeepsInv(w, step.pid);
      } else if step.Write? && p.phase.Writing? {
        if p.resume.None? {
          InsertKeepsInv(w, step.pid);
        } else {
          ResumeKeepsInv(w, step.pid);
        }
      } else if step.Commit? {
        CommitKeepsInv(w, step.pid);
      } else if p.phase.Owning? {
        TakeKeepsInv(w, step.pid, step);
      }
    }
  }

  lemma ArriveKeepsInv(w: System, step: Step)
    requires Inv(w) && step.Arrive?
    ensures Inv(Next(w, step))
  {
    hide Preflight, SL.Sound, HL.Shaped, HL.Offered, ClaimLog, ResumeLog, Awaiting, Made, RowOk, LedgersOk;
  }

  lemma CrashKeepsInv(w: System, pid: nat)
    requires Inv(w) && pid in w.processes
    ensures Inv(Moved(w, pid, Stopped))
  {
    hide Preflight, HonestChain, BuildOutcome, SL.Sound, HL.Shaped, HL.Offered, ClaimLog, ResumeLog, Committed, RunResultOk;
    MoveKeepsInv(w, pid, Stopped);
  }

  lemma {:induction false} RunKeepsInv(w: System, steps: seq<Step>)
    requires Inv(w)
    ensures Inv(Run(w, steps))
    decreases steps
  {
    hide Inv, Next;
    if steps != [] {
      StepKeepsInv(w, steps[0]);
      RunKeepsInv(Next(w, steps[0]), steps[1..]);
    }
  }
}
