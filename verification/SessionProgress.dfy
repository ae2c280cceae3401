/** Sessions do get somewhere: from empty ledgers a valid plan goes through whatever its services give it, to a
    waiting row or to a completed one the auditor accepts, and from every waiting row on to a completed one. */
module SessionProgress {
  import opened Options
  import opened AgentRecords
  import opened SessionOutcomes
  import opened SessionProtocol
  import opened SessionGuarantees

  lemma {:induction false} RunAppends(w: System, steps: seq<Step>, more: seq<Step>)
    ensures Run(w, steps + more) == Run(Run(w, steps), more)
    decreases steps
  {
    hide Next;
    if steps == [] {
      assert steps + more == more;
    } else {
      assert (steps + more)[1..] == steps[1..] + more;
      RunAppends(Next(w, steps[0]), steps[1..], more);
    }
  }

  lemma RunOne(w: System, step: Step)
    ensures Run(w, [step]) == Next(w, step)
  {
    hide Next;
    assert [step][1..] == [];
    assert Run(Next(w, step), []) == Next(w, step);
  }

  lemma Reaches(steps: seq<Step>, step: Step)
    ensures Reached(steps + [step]) == Next(Reached(steps), step)
  {
    hide Next;
    RunAppends(EMPTY, steps, [step]);
    RunOne(Reached(steps), step);
  }

  /** Inputs a session can start from: a root run and first handoff as their services leave them. */
  ghost predicate Startable(plan: SessionPlan) {
    var h := plan.firstHandoff.handoffId;
    && plan.Valid() && plan.rootPlan.limits.Valid()
    && RunResultOk(plan.rootPlan, plan.rootOutcome) && HandoffResultOk(h, plan.firstHandoff)
    && h.WellShaped() && h.attempt == 1 && h.agentPlan == plan.rootPlan && h.agentOutcomeDigest == plan.rootOutcome
    && plan.rootOutcome.intent == Some(h.call.Intent())
    && plan.rootPlan.key != plan.roundPlan.key
  }

  function Recorded(plan: SessionPlan, round: RunOutcome): Ledgers {
    Ledgers(map[plan.rootPlan := CP.Done(plan.rootOutcome), plan.roundPlan := CP.Done(round)],
            map[plan.firstHandoff.handoffId := CP.Done(plan.firstHandoff)], map[], map[])
  }

  lemma Served(steps: seq<Step>, w: System, step: Step)
    requires IsService(step) && !step.SelectHandoff? && !step.InsertHandoff? && Reached(steps) == w
    ensures Reached(steps + [step]) == w.(l := Serve(w.l, step))
  {
    hide Run, Serve;
    Reaches(steps, step);
  }

  /** A run no other run's key stands in the way of can be claimed and completed with any result it allows. */
  lemma RunIsRecorded(steps: seq<Step>, w: System, run: RunPlan, o: RunOutcome) returns (after: seq<Step>)
    requires Reached(steps) == w
    requires (forall p :: p in w.l.runs ==> p.key != run.key) && RunResultOk(run, o)
    ensures Reached(after) == w.(l := w.l.(runs := w.l.runs[run := CP.Done(o)]))
  {
    hide Run, Next;
    var l := w.l;
    Served(steps, w, ClaimRun(run));
    var claimed := l.(runs := l.runs[run := CP.Started]);
    assert Serve(l, ClaimRun(run)) == claimed;
    Served(steps + [ClaimRun(run)], w.(l := claimed), CompleteRun(o));
    after := steps + [ClaimRun(run)] + [CompleteRun(o)];
    assert claimed.runs[run := CP.Done(o)] == l.runs[run := CP.Done(o)];
  }

  lemma HandoffIsSelected(steps: seq<Step>, w: System, h: HandoffPlan) returns (after: seq<Step>)
    requires Reached(steps) == w && Selectable(w.l, h)
    ensures Reached(after) == w.(selected := w.selected + {h})
  {
    hide Run, Selectable;
    Reaches(steps, SelectHandoff(h));
    after := steps + [SelectHandoff(h)];
  }

  lemma HandoffIsInserted(steps: seq<Step>, w: System, h: HandoffPlan) returns (after: seq<Step>)
    requires Reached(steps) == w && h in w.selected && HL.Insertable(w.l.handoffs, h)
    ensures Reached(after) == w.(l := w.l.(handoffs := w.l.handoffs[h := CP.Started]), selected := w.selected - {h})
  {
    hide Run, HL.Insertable;
    Reaches(steps, InsertHandoff(h));
    after := steps + [InsertHandoff(h)];
  }

  lemma HandoffIsRecorded(steps: seq<Step>, w: System, h: HandoffPlan, o: HandoffOutcome) returns (after: seq<Step>)
    requires Reached(steps) == w && HL.Admits(w.l.handoffs, h)
    requires h.WellShaped() && HandoffResultOk(h, o)
    requires h.agentOutcomeDigest.planId == h.agentPlan && Ran(w.l, h.agentOutcomeDigest)
    requires h.agentOutcomeDigest.intent == Some(h.call.Intent())
    ensures Reached(after) == w.(l := w.l.(handoffs := w.l.handoffs[h := CP.Done(o)]), selected := w.selected - {h})
  {
    hide Run, Next, HandoffPlan.WellShaped, HL.Insertable, HL.MayAttempt, BrokerResultOk, BrokerCall.Intent;
    var l := w.l;
    after := HandoffIsSelected(steps, w, h);
    after := HandoffIsInserted(after, w.(selected := w.selected + {h}), h);
    var claimed := l.(handoffs := l.handoffs[h := CP.Started]);
    assert w.selected + {h} - {h} == w.selected - {h};
    Served(after, w.(l := claimed, selected := w.selected - {h}), CompleteHandoff(o));
    after := after + [CompleteHandoff(o)];
    assert claimed.handoffs[h := CP.Done(o)] == l.handoffs[h := CP.Done(o)];
  }

  ghost predicate FreshContinuation(l: Ledgers, c: ContinuationPlan) {
    forall other :: other in l.continuations ==> other != c && ContinuationColumns(other) * ContinuationColumns(c) == {}
  }

  lemma ContinuationIsRecorded(steps: seq<Step>, w: System, c: ContinuationPlan, o: ContinuationOutcome) returns (after: seq<Step>)
    requires Reached(steps) == w && FreshContinuation(w.l, c)
    requires c.WellShaped() && Ran(w.l, c.rootOutcome) && Handed(w.l, c.handoff)
    requires ContinuationResultOk(c, o) && Ran(w.l, o.agentOutcome)
    ensures Reached(after) == w.(l := w.l.(continuations := w.l.continuations[c := CP.Done(o)]))
  {
    hide Run, Next, ContinuationPlan.WellShaped, RunResultOk;
    var l := w.l;
    Served(steps, w, ClaimContinuation(c));
    var claimed := l.(continuations := l.continuations[c := CP.Started]);
    assert Serve(l, ClaimContinuation(c)) == claimed;
    Served(steps + [ClaimContinuation(c)], w.(l := claimed), CompleteContinuation(o));
    after := steps + [ClaimContinuation(c)] + [CompleteContinuation(o)];
    assert claimed.continuations[c := CP.Done(o)] == l.continuations[c := CP.Done(o)];
  }

  lemma InputsAreRecorded(plan: SessionPlan, round: RunOutcome) returns (steps: seq<Step>)
    requires Startable(plan) && RunResultOk(plan.roundPlan, round)
    ensures Reached(steps) == System(Recorded(plan, round), {}, map[], [], [])
  {
    hide Run, RunResultOk, HandoffResultOk;
    NothingReached();
    steps := RunIsRecorded([], EMPTY, plan.rootPlan, plan.rootOutcome);
    var one := EMPTY.(l := EMPTY.l.(runs := map[plan.rootPlan := CP.Done(plan.rootOutcome)]));
    steps := RunIsRecorded(steps, one, plan.roundPlan, round);
    var two := EMPTY.(l := Recorded(plan, round).(handoffs := map[]));
    var h := plan.firstHandoff.handoffId;
    assert HL.Admits(map[], h) by {
      assert HL.Prior(map[], h.agentOutcomeDigest) == {};
    }
    steps := HandoffIsRecorded(steps, two, h, plan.firstHandoff);
  }

  lemma NothingReached()
    ensures Reached([]) == EMPTY
  {
  }

  lemma PreflightPasses(plan: SessionPlan, round: RunOutcome, now: Time) returns (steps: seq<Step>)
    requires Startable(plan) && RunResultOk(plan.roundPlan, round) && plan.createdAt <= now < plan.deadline
    ensures Reached(steps) == System(Recorded(plan, round), {}, map[0 := Process(plan, now, None, Writing)], [], [])
  {
    hide Run, RunResultOk, HandoffResultOk, SessionPlan.Valid, HandoffPlan.WellShaped;
    steps := InputsAreRecorded(plan, round);
    var l := Recorded(plan, round);
    assert Preflight(l, plan) by { StartableInputs(plan); }
    Reaches(steps, Arrive(0, plan, now, None));
    steps := steps + [Arrive(0, plan, now, None)];
    assert Reached(steps) == System(l, {}, map[0 := Process(plan, now, None, Phase.Arrived)], [], []);
    Reaches(steps, Look(0));
    steps := steps + [Look(0)];
  }

  /** The process goes from its preflight to owning the row and holding the round. */
  lemma RoundIsHeld(plan: SessionPlan, round: RunOutcome, now: Time) returns (steps: seq<Step>)
    requires Startable(plan) && RunResultOk(plan.roundPlan, round) && plan.createdAt <= now < plan.deadline
    ensures var l := Recorded(plan, round).(sessions := map[plan := SL.Started]);
            Reached(steps) == System(l, {}, map[0 := Process(plan, now, None, Owning(Some(round), None, None))], [(0, plan)], [])
  {
    hide Run, RunResultOk, Startable, Preflight;
    steps := PreflightPasses(plan, round, now);
    Reaches(steps, Write(0));
    steps := steps + [Write(0)];
    assert Reached(steps)
        == System(Recorded(plan, round).(sessions := map[plan := SL.Started]), {},
                  map[0 := Process(plan, now, None, Owning(None, None, None))], [(0, plan)], []);
    Reaches(steps, TakeRound(0));
    steps := steps + [TakeRound(0)];
  }

  lemma StartableInputs(plan: SessionPlan)
    requires Startable(plan)
    ensures plan.Valid() && plan.rootPlan.limits.Valid()
    ensures plan.rootOutcome.planId == plan.rootPlan && plan.rootPlan != plan.roundPlan
  {
  }

  /******* A tool call, its continuation, and the commit *******/

  ghost function WithHandoff(w: System, pid: nat, o: HandoffOutcome): System
    requires pid in w.processes && w.processes[pid].phase.Owning?
  {
    Moved(w, pid, w.processes[pid].phase.(second := Some(o))).(
      l := w.l.(handoffs := w.l.handoffs[o.handoffId := CP.Done(o)]), selected := w.selected - {o.handoffId})
  }

  /** An owner that holds the round can hand its call over, and gets back whatever the Broker made of it. */
  lemma HandoffIsTaken(steps: seq<Step>, w: System, pid: nat, round: RunOutcome, o: HandoffOutcome) returns (after: seq<Step>)
    requires Reached(steps) == w && pid in w.processes && w.processes[pid].phase == Owning(Some(round), None, None)
    requires Ran(w.l, round) && round.planId == w.processes[pid].plan.roundPlan
    requires SelectedOption(w.processes[pid].plan, round).Some?
    requires var h := HandoffFor(w.processes[pid], round, SelectedOption(w.processes[pid].plan, round).value.call);
             && HL.Admits(w.l.handoffs, h) && h.WellShaped() && HandoffResultOk(h, o)
             && round.intent == Some(h.call.Intent())
    ensures Reached(after) == WithHandoff(w, pid, o)
  {
    hide Run, SelectedOption, HL.Admits, HandoffPlan.WellShaped, BrokerResultOk, BrokerCall.Intent;
    var p := w.processes[pid];
    var h := HandoffFor(p, round, SelectedOption(p.plan, round).value.call);
    after := HandoffIsRecorded(steps, w, h, o);
    Reaches(after, TakeHandoff(pid));
    after := after + [TakeHandoff(pid)];
  }

  /** The continuation a process prepares, and the answer its one model turn gives. */
  datatype Ending = Ending(taskId: nat, key: string, runKey: string, answer: RunOutcome)

  ghost predicate EndingOk(l: Ledgers, p: Process, e: Ending) {
    && p.phase.Owning? && p.phase.round.Some? && p.phase.second.Some? && p.phase.second.value.status.Completed?
    && var c := PrepareContinuation(p.plan.roundPlan, p.phase.round.value, p.phase.second.value, p.now, e.key, e.runKey, e.taskId, true);
       && c.Some? && RunResultOk(c.value.plan, e.answer)
       && (forall run :: run in l.runs ==> run.key != e.runKey)
       && FreshContinuation(l, c.value)
  }

  ghost function Answered(p: Process, e: Ending): ContinuationOutcome
    requires p.phase.Owning? && p.phase.round.Some? && p.phase.second.Some?
    requires PrepareContinuation(p.plan.roundPlan, p.phase.round.value, p.phase.second.value, p.now, e.key, e.runKey, e.taskId, true).Some?
  {
    var c := PrepareContinuation(p.plan.roundPlan, p.phase.round.value, p.phase.second.value, p.now,
                                 e.key, e.runKey, e.taskId, true).value;
    ContinuationOutcome(c, c.rootPlan, c.observationId, c.plan, e.answer.status, e.answer, p.now)
  }

  ghost function WithTerminal(w: System, pid: nat, e: Ending): System
    requires pid in w.processes && EndingOk(w.l, w.processes[pid], e)
  {
    var p := w.processes[pid];
    var o := Answered(p, e);
    Moved(w, pid, p.phase.(terminal := Some(o))).(
      l := w.l.(runs := w.l.runs[o.continuationPlanId := CP.Done(e.answer)],
                continuations := w.l.continuations[o.continuationId := CP.Done(o)]))
  }

  lemma TerminalIsTaken(steps: seq<Step>, w: System, pid: nat, e: Ending) returns (after: seq<Step>)
    requires Reached(steps) == w && pid in w.processes && EndingOk(w.l, w.processes[pid], e)
    requires Ran(w.l, w.processes[pid].phase.round.value)
    requires Handed(w.l, w.processes[pid].phase.second.value)
    ensures Reached(after) == WithTerminal(w, pid, e)
  {
    hide Run, ContinuationPlan.WellShaped, RunResultOk;
    var p := w.processes[pid];
    var o := Answered(p, e);
    var c := o.continuationId;
    PreparedRunKey(p, e);
    AnswerIsForIts(c.plan, e.answer);
    after := RunIsRecorded(steps, w, c.plan, e.answer);
    var ran := w.(l := w.l.(runs := w.l.runs[c.plan := CP.Done(e.answer)]));
    after := ContinuationIsRecorded(after, ran, c, o);
    Reaches(after, TakeTerminal(pid, e.taskId, e.key, e.runKey));
    after := after + [TakeTerminal(pid, e.taskId, e.key, e.runKey)];
  }

  lemma AnswerIsForIts(run: RunPlan, answer: RunOutcome)
    requires RunResultOk(run, answer)
    ensures answer.planId == run
  {
  }

  lemma PreparedRunKey(p: Process, e: Ending)
    requires p.phase.Owning? && p.phase.round.Some? && p.phase.second.Some?
    requires PrepareContinuation(p.plan.roundPlan, p.phase.round.value, p.phase.second.value, p.now, e.key, e.runKey, e.taskId, true).Some?
    ensures var c := Answered(p, e).continuationId;
            && c.plan.key == e.runKey && c.rootPlan == p.plan.roundPlan
            && c.rootOutcome == p.phase.round.value && c.handoff == p.phase.second.value && c.WellShaped()
  {
  }

  ghost function AfterCommit(w: System, pid: nat, o: SessionOutcome): System
    requires pid in w.processes
  {
    var p := w.processes[pid];
    Moved(w, pid, Stopped).(l := w.l.(sessions := w.l.sessions[p.plan := Target(p, o)]))
  }

  /** An owner that can seal its outcome commits it. */
  lemma CommitIsReached(steps: seq<Step>, w: System, pid: nat) returns (after: seq<Step>)
    requires Reached(steps) == w && pid in w.processes && Ready(w.processes[pid]) && CanSeal(w.processes[pid])
    ensures Built(w.processes[pid]).Some? && Reached(after) == AfterCommit(w, pid, Built(w.processes[pid]).value)
  {
    hide Run, Inv, CanSeal, Ready, Target, BuildOutcome, SL.Updates, SL.Reused;
    CommitSucceedsExactlyWhen(steps, pid);
    ReachedIsOk(steps);
    BuiltObservationIsNew(w, pid);
    BuiltUpdatesItsRow(w, pid);
    Reaches(steps, Commit(pid));
    after := steps + [Commit(pid)];
  }

  /******* Whole courses *******/

  /** What an owner may meet after its round: a handoff if the round selected a call, and a continuation if that
      handoff completed. */
  ghost predicate CourseOk(w: System, pid: nat, round: RunOutcome, second: Option<HandoffOutcome>, ending: Option<Ending>) {
    && pid in w.processes && w.processes[pid].phase == Owning(Some(round), None, None)
    && var p := w.processes[pid];
       && Ran(w.l, round) && round.planId == p.plan.roundPlan
       && (second.Some? <==> round.status.ToolProposed? && SelectedOption(p.plan, round).Some?)
       && (second.Some? ==>
             var h := HandoffFor(p, round, SelectedOption(p.plan, round).value.call);
             && HL.Admits(w.l.handoffs, h) && h.WellShaped() && round.intent == Some(h.call.Intent())
             && HandoffResultOk(h, second.value))
       && (ending.Some? <==> second.Some? && second.value.status.Completed?)
       && (ending.Some? ==> EndingOk(w.l, p.(phase := Owning(Some(round), second, None)), ending.value))
  }

  ghost function Course(w: System, pid: nat, round: RunOutcome, second: Option<HandoffOutcome>, ending: Option<Ending>): System
    requires CourseOk(w, pid, round, second, ending)
  {
    if second.None? then w
    else if ending.None? then WithHandoff(w, pid, second.value)
    else WithTerminal(WithHandoff(w, pid, second.value), pid, ending.value)
  }

  function EndingTokens(ending: Option<Ending>): nat {
    if ending.Some? then ending.value.answer.Tokens() else 0
  }

  lemma CourseIsRun(steps: seq<Step>, w: System, pid: nat, round: RunOutcome, second: Option<HandoffOutcome>,
                    ending: Option<Ending>) returns (after: seq<Step>)
    requires Reached(steps) == w && CourseOk(w, pid, round, second, ending)
    ensures Reached(after) == Course(w, pid, round, second, ending)
    ensures pid in Course(w, pid, round, second, ending).processes
    ensures var p := Course(w, pid, round, second, ending).processes[pid];
            && Ready(p) && p.phase.round == Some(round) && p.phase.second == second
            && (p.phase.terminal.Some? <==> ending.Some?)
            && (ending.Some? ==> && p.phase.terminal.value.agentOutcome == ending.value.answer
                                 && p.phase.terminal.value.status == ending.value.answer.status)
            && p == w.processes[pid].(phase := p.phase)
  {
    hide Run, SelectedOption, HL.Admits, HandoffPlan.WellShaped, HandoffResultOk, EndingOk, PrepareContinuation, BrokerCall.Intent;
    after := steps;
    if second.Some? {
      after := HandoffIsTaken(steps, w, pid, round, second.value);
      if ending.Some? {
        HandedIsHanded(w, pid, round, second.value);
        EndingSurvives(w, pid, round, second.value, ending.value);
        after := TerminalIsTaken(after, WithHandoff(w, pid, second.value), pid, ending.value);
      }
    }
  }

  lemma HandedIsHanded(w: System, pid: nat, round: RunOutcome, o: HandoffOutcome)
    requires pid in w.processes && w.processes[pid].phase == Owning(Some(round), None, None)
    ensures WithHandoff(w, pid, o).processes[pid] == w.processes[pid].(phase := Owning(Some(round), Some(o), None))
    ensures Handed(WithHandoff(w, pid, o).l, o)
  {
  }

  lemma EndingSurvives(w: System, pid: nat, round: RunOutcome, o: HandoffOutcome, e: Ending)
    requires pid in w.processes && w.processes[pid].phase == Owning(Some(round), None, None)
    requires EndingOk(w.l, w.processes[pid].(phase := Owning(Some(round), Some(o), None)), e)
    ensures EndingOk(WithHandoff(w, pid, o).l, WithHandoff(w, pid, o).processes[pid], e)
  {
    hide RunResultOk, PrepareContinuation;
  }

  /** The state in which the first call of a session holds its round. */
  ghost function Held(plan: SessionPlan, round: RunOutcome, now: Time): System {
    System(Recorded(plan, round).(sessions := map[plan := SL.Started]), {},
           map[0 := Process(plan, now, None, Owning(Some(round), None, None))], [(0, plan)], [])
  }

  /** What the services may give a session on its first call: a handoff result if the round selects a call, and
      an answer to a continuation if that completed. Keys that have to be new are. */
  ghost predicate FirstCourse(plan: SessionPlan, round: RunOutcome, now: Time, second: Option<HandoffOutcome>,
                              ending: Option<Ending>)
  {
    && (second.Some? <==> round.status.ToolProposed? && SelectedOption(plan, round).Some?)
    && (second.Some? ==>
          && plan.firstHandoff.handoffId.key != plan.key + ":round-2-handoff"
          && HandoffResultOk(FirstHandoffPlan(plan, round, SelectedOption(plan, round).value.call, now), second.value))
    && (ending.Some? <==> second.Some? && second.value.status.Completed?)
    && (ending.Some? ==> AnswersContinuation(plan, round, second.value, now, ending.value))
  }

  /** A continuation can be prepared, its run key is new, and the answer is one its run allows. */
  ghost predicate AnswersContinuation(plan: SessionPlan, round: RunOutcome, second: HandoffOutcome, now: Time, e: Ending) {
    var c := PrepareContinuation(plan.roundPlan, round, second, now, e.key, e.runKey, e.taskId, true);
    c.Some? && RunResultOk(c.value.plan, e.answer) && e.runKey != plan.rootPlan.key && e.runKey != plan.roundPlan.key
  }

  lemma FirstHandoffIsAdmitted(plan: SessionPlan, round: RunOutcome, now: Time)
    requires Startable(plan) && RunResultOk(plan.roundPlan, round) && SelectedOption(plan, round).Some?
    requires plan.firstHandoff.handoffId.key != plan.key + ":round-2-handoff"
    ensures HL.Admits(Recorded(plan, round).handoffs,
                      FirstHandoffPlan(plan, round, SelectedOption(plan, round).value.call, now))
  {
    hide SelectedOption, SessionPlan.Valid, HandoffPlan.WellShaped, BrokerResultOk;
    StartableInputs(plan);
    var rows := Recorded(plan, round).handoffs;
    assert plan.firstHandoff.handoffId.agentOutcomeDigest == plan.rootOutcome != round;
    assert HL.Prior(rows, round) == {};
  }

  lemma FirstCourseIsOpen(plan: SessionPlan, round: RunOutcome, now: Time, second: Option<HandoffOutcome>,
                          ending: Option<Ending>)
    requires Startable(plan) && RunResultOk(plan.roundPlan, round) && now < plan.deadline
    requires FirstCourse(plan, round, now, second, ending)
    ensures CourseOk(Held(plan, round, now), 0, round, second, ending)
  {
    hide SelectedOption, HandoffResultOk, PrepareContinuation, HL.Admits, HandoffPlan.WellShaped, BrokerCall.Intent,
      SessionPlan.Valid;
    StartableInputs(plan);
    AnswerIsForIts(plan.roundPlan, round);
    if second.Some? {
      FirstHandoffIsAdmitted(plan, round, now);
      OwnHandoffsAreWellShaped(plan, round, plan.firstHandoff.handoffId, now, 0, plan.key);
    }
  }

  /** From empty ledgers, any startable plan goes through any round, handoff and continuation its services can
      give it within budget. It ends in a completed row that the auditor accepts, or, exactly if the
      handoff needs Approval, in a waiting one; and the row holds just what happened. */
  lemma SessionsComplete(plan: SessionPlan, round: RunOutcome, now: Time, second: Option<HandoffOutcome>,
                         ending: Option<Ending>) returns (steps: seq<Step>, o: SessionOutcome)
    requires Startable(plan) && RunResultOk(plan.roundPlan, round)
    requires plan.createdAt <= now < plan.deadline && WholeSeconds(plan.deadline - now) <= 86_400
    requires FirstCourse(plan, round, now, second, ending)
    requires plan.rootOutcome.Tokens() + round.Tokens() + EndingTokens(ending) <= plan.rootPlan.task.budget.modelTokens
    ensures CourseOk(Held(plan, round, now), 0, round, second, ending)
    ensures var w := Course(Held(plan, round, now), 0, round, second, ending);
            0 in w.processes && Reached(steps) == AfterCommit(w, 0, o)
    ensures var rows := Reached(steps).l.sessions;
            && plan in rows
            && rows[plan] == (if second.Some? && second.value.status.ApprovalRequired? then SL.Waiting(o) else SL.Sealed(o))
            && (rows[plan].Sealed? ==> VerifyChain(Reached(steps).l, plan))
    ensures o.roundOutcome == round && o.secondHandoff == second && o.approvalHandoff.None?
    ensures o.terminal.Some? <==> ending.Some?
    ensures ending.Some? ==> o.terminal.value.agentOutcome == ending.value.answer && o.status == OfRun(ending.value.answer.status)
  {
    hide Run, Startable, RunResultOk, CourseOk, Course, VerifyChain, Recorded, Built, FirstCourse;
    FirstCourseIsOpen(plan, round, now, second, ending);
    steps := RoundIsHeld(plan, round, now);
    var w := Held(plan, round, now);
    steps := CourseIsRun(steps, w, 0, round, second, ending);
    var p := Course(w, 0, round, second, ending).processes[0];
    assert CanSeal(p);
    steps := CommitIsReached(steps, Course(w, 0, round, second, ending), 0);
    o := Built(p).value;
    BuiltHolds(p);
    if Target(p, o).Sealed? {
      AuditAcceptsHonestSessions(steps, plan);
    }
  }

  /** A built outcome holds what its process held. */
  lemma BuiltHolds(p: Process)
    requires Ready(p) && Built(p).Some?
    ensures var o := Built(p).value;
            && o.sessionId == p.plan && o.roundOutcome == p.phase.round.value && o.secondHandoff == p.phase.second
            && o.terminal == p.phase.terminal && o.approvalHandoff == p.Approval() && o.approvalDigests == p.Approvals()
            && (p.phase.second.None? || p.phase.second.value.status.Completed? ==> !o.status.SessionApprovalRequired?)
            && (p.phase.second.Some? && !p.phase.second.value.status.Completed? ==>
                  o.status == OfBroker(p.phase.second.value.status))
            && (p.phase.terminal.Some? ==> o.status == OfRun(p.phase.terminal.value.status))
  {
    hide SelectedOption, FinalBudget;
  }

  /** The state in which a resumed session holds its round. */
  ghost function Resumed(w: System, pid: nat, plan: SessionPlan, now: Time, resume: Resume): System {
    System(w.l.(sessions := w.l.sessions[plan := SL.Resuming(resume.waiting)]), w.selected,
           w.processes[pid := Process(plan, now, Some(resume), Owning(Some(resume.waiting.roundOutcome), None, None))],
           w.claims, w.resumes + [(pid, plan)])
  }

  lemma WaitingRowIsAwaiting(w: System, plan: SessionPlan)
    requires Inv(w) && plan in w.l.sessions && w.l.sessions[plan].Waiting?
    ensures Preflight(w.l, plan) && Awaiting(w.l, plan, w.l.sessions[plan].outcome)
  {
    hide LedgersOk, ProcessOk, Control;
  }

  lemma AwaitingIsOffered(l: Ledgers, plan: SessionPlan, waiting: SessionOutcome)
    requires Awaiting(l, plan, waiting)
    ensures SL.AwaitsApproval(plan, waiting) && Ran(l, waiting.roundOutcome) && waiting.roundOutcome.planId == plan.roundPlan
  {
    hide SelectedOption, FinalBudget, SessionPlan.Valid, HandoffResultOk, TerminalOf;
  }

  lemma ResumeIsOffered(before: seq<Step>, w: System, pid: nat, plan: SessionPlan, now: Time, resume: Resume)
      returns (steps: seq<Step>)
    requires Reached(before) == w && pid !in w.processes
    requires plan in w.l.sessions && w.l.sessions[plan] == SL.Waiting(resume.waiting)
    requires plan.createdAt <= now < plan.deadline
    ensures Reached(steps) == w.(processes := w.processes[pid := Process(plan, now, Some(resume), Writing)])
    ensures Ran(w.l, resume.waiting.roundOutcome) && resume.waiting.roundOutcome.planId == plan.roundPlan
  {
    hide Run, Inv, Preflight, Awaiting, SL.AwaitsApproval;
    ReachedIsOk(before);
    WaitingRowIsAwaiting(w, plan);
    AwaitingIsOffered(w.l, plan, resume.waiting);
    Reaches(before, Arrive(pid, plan, now, Some(resume)));
    steps := before + [Arrive(pid, plan, now, Some(resume))];
    assert Reached(steps) == w.(processes := w.processes[pid := Process(plan, now, Some(resume), Phase.Arrived)]);
    Reaches(steps, Look(pid));
    steps := steps + [Look(pid)];
  }

  lemma ResumeIsHeld(before: seq<Step>, w: System, pid: nat, plan: SessionPlan, now: Time, resume: Resume)
      returns (steps: seq<Step>)
    requires Reached(before) == w && pid !in w.processes
    requires plan in w.l.sessions && w.l.sessions[plan] == SL.Waiting(resume.waiting)
    requires plan.createdAt <= now < plan.deadline
    ensures Reached(steps) == Resumed(w, pid, plan, now, resume)
    ensures Ran(w.l, resume.waiting.roundOutcome) && resume.waiting.roundOutcome.planId == plan.roundPlan
  {
    hide Run;
    steps := ResumeIsOffered(before, w, pid, plan, now, resume);
    var p := Process(plan, now, Some(resume), Writing);
    Reaches(steps, Write(pid));
    steps := steps + [Write(pid)];
    var owned := w.l.(sessions := w.l.sessions[plan := SL.Resuming(resume.waiting)]);
    assert Reached(steps)
        == System(owned, w.selected, w.processes[pid := p.(phase := Owning(None, None, None))], w.claims, w.resumes + [(pid, plan)]);
    Reaches(steps, TakeRound(pid));
    steps := steps + [TakeRound(pid)];
  }

  /** In any reachable state, a session that waits can be resumed with an Approval and taken through any second
      attempt and continuation its services can give it within budget, to a completed row that records
      both attempts and that the auditor accepts. */
  lemma SessionsResume(before: seq<Step>, pid: nat, plan: SessionPlan, now: Time, resume: Resume,
                       second: HandoffOutcome, ending: Option<Ending>) returns (steps: seq<Step>, o: SessionOutcome)
    requires var w := Reached(before);
      && pid !in w.processes && plan in w.l.sessions && w.l.sessions[plan] == SL.Waiting(resume.waiting)
      && CourseOk(Resumed(w, pid, plan, now, resume), pid, resume.waiting.roundOutcome, Some(second), ending)
    requires plan.createdAt <= now < plan.deadline && WholeSeconds(plan.deadline - now) <= 86_400
    requires resume.approvals != {}
    requires plan.rootOutcome.Tokens() + resume.waiting.roundOutcome.Tokens() + EndingTokens(ending)
             <= plan.rootPlan.task.budget.modelTokens
    ensures var w := Reached(steps);
            && plan in w.l.sessions && w.l.sessions[plan] == SL.Sealed(o) && VerifyChain(w.l, plan)
            && Logged(w.resumes, plan)
    ensures o.approvalHandoff == resume.waiting.secondHandoff && o.secondHandoff == Some(second)
    ensures !second.status.Completed? ==> o.status == OfBroker(second.status)
    ensures o.terminal.Some? <==> ending.Some?
    ensures ending.Some? ==> o.terminal.value.agentOutcome == ending.value.answer && o.status == OfRun(ending.value.answer.status)
  {
    hide Run, RunResultOk, CourseOk, VerifyChain, Built, HL.Admits, PrepareContinuation;
    var w := Reached(before);
    var round := resume.waiting.roundOutcome;
    steps := ResumeIsHeld(before, w, pid, plan, now, resume);
    var held := Resumed(w, pid, plan, now, resume);
    steps := CourseIsRun(steps, held, pid, round, Some(second), ending);
    CourseKeepsResumes(held, pid, round, second, ending);
    var done := Course(held, pid, round, Some(second), ending);
    assert CanSeal(done.processes[pid]);
    steps := CommitIsReached(steps, done, pid);
    o := Built(done.processes[pid]).value;
    BuiltHolds(done.processes[pid]);
    assert held.resumes[|w.resumes|] == (pid, plan);
    AuditAcceptsHonestSessions(steps, plan);
  }

  lemma CourseKeepsResumes(w: System, pid: nat, round: RunOutcome, second: HandoffOutcome, ending: Option<Ending>)
    requires CourseOk(w, pid, round, Some(second), ending)
    ensures Course(w, pid, round, Some(second), ending).resumes == w.resumes
  {
    hide EndingOk, SelectedOption;
  }

  /** What the services may give the session that waited for `asked`, once it is resumed. */
  ghost predicate RetryCourse(plan: SessionPlan, round: RunOutcome, asked: HandoffOutcome, now: Time,
                              callId: nat, key: string, second: HandoffOutcome, ending: Option<Ending>)
    requires SelectedOption(plan, round).Some?
  {
    && key != plan.firstHandoff.handoffId.key && key != plan.key + ":round-2-handoff"
    && HandoffResultOk(RetryHandoffPlan(plan, round, SelectedOption(plan, round).value.call, Some(asked.handoffId),
                                        now, callId, key), second)
    && (ending.Some? <==> second.status.Completed?)
    && (ending.Some? ==> AnswersContinuation(plan, round, second, now, ending.value))
  }

  lemma RetryIsAdmitted(plan: SessionPlan, round: RunOutcome, asked: HandoffOutcome, began: Time, now: Time, resume: Resume)
    requires Startable(plan) && RunResultOk(plan.roundPlan, round) && SelectedOption(plan, round).Some?
    requires HandoffResultOk(FirstHandoffPlan(plan, round, SelectedOption(plan, round).value.call, began), asked)
    requires asked.status.ApprovalRequired?
    requires resume.key != plan.firstHandoff.handoffId.key && resume.key != plan.key + ":round-2-handoff"
    ensures HL.Admits(Recorded(plan, round).handoffs[asked.handoffId := CP.Done(asked)],
                      RetryHandoffPlan(plan, round, SelectedOption(plan, round).value.call, Some(asked.handoffId),
                                       now, resume.callId, resume.key))
  {
    hide SelectedOption, SessionPlan.Valid, HandoffPlan.WellShaped, BrokerResultOk;
    StartableInputs(plan);
    var rows := Recorded(plan, round).handoffs[asked.handoffId := CP.Done(asked)];
    assert plan.firstHandoff.handoffId.agentOutcomeDigest == plan.rootOutcome != round;
    assert HL.Prior(rows, round) == {asked.handoffId};
  }

  lemma RetryCourseIsOpen(plan: SessionPlan, round: RunOutcome, asked: HandoffOutcome, began: Time, now: Time, resume: Resume,
                          second: HandoffOutcome, ending: Option<Ending>)
    requires Startable(plan) && RunResultOk(plan.roundPlan, round) && began < plan.deadline && now < plan.deadline
    requires FirstCourse(plan, round, began, Some(asked), None) && asked.status.ApprovalRequired?
    requires RetryCourse(plan, round, asked, now, resume.callId, resume.key, second, ending)
    requires resume.waiting.roundOutcome == round && resume.waiting.secondHandoff == Some(asked)
    ensures CourseOk(Held(plan, round, began), 0, round, Some(asked), None)
    ensures var w := AfterCommit(Course(Held(plan, round, began), 0, round, Some(asked), None), 0, resume.waiting);
            && 1 !in w.processes
            && CourseOk(Resumed(w, 1, plan, now, resume), 1, round, Some(second), ending)
  {
    hide SelectedOption, PrepareContinuation, HL.Admits, HandoffPlan.WellShaped, BrokerCall.Intent, SessionPlan.Valid,
      BrokerResultOk, RunResultOk;
    FirstCourseIsOpen(plan, round, began, Some(asked), None);
    StartableInputs(plan);
    AnswerIsForIts(plan.roundPlan, round);
    RetryIsAdmitted(plan, round, asked, began, now, resume);
    OwnHandoffsAreWellShaped(plan, round, asked.handoffId, now, resume.callId, resume.key);
  }

  /** From empty ledgers through the wait: a session whose call needs Approval pauses, and one resume with an
      Approval takes it through any second attempt and continuation to a completed row the auditor accepts. */
  lemma SessionsPauseAndResume(plan: SessionPlan, round: RunOutcome, asked: HandoffOutcome, began: Time, now: Time,
                               approvals: set<string>, callId: nat, key: string, second: HandoffOutcome,
                               ending: Option<Ending>) returns (steps: seq<Step>, o: SessionOutcome)
    requires Startable(plan) && RunResultOk(plan.roundPlan, round)
    requires plan.createdAt <= began < plan.deadline && WholeSeconds(plan.deadline - began) <= 86_400
    requires plan.createdAt <= now < plan.deadline && WholeSeconds(plan.deadline - now) <= 86_400 && approvals != {}
    requires FirstCourse(plan, round, began, Some(asked), None) && asked.status.ApprovalRequired?
    requires RetryCourse(plan, round, asked, now, callId, key, second, ending)
    requires plan.rootOutcome.Tokens() + round.Tokens() + EndingTokens(ending) <= plan.rootPlan.task.budget.modelTokens
    ensures var w := Reached(steps);
            && plan in w.l.sessions && w.l.sessions[plan] == SL.Sealed(o) && VerifyChain(w.l, plan)
            && Logged(w.resumes, plan)
    ensures o.approvalHandoff == Some(asked) && o.secondHandoff == Some(second)
    ensures !second.status.Completed? ==> o.status == OfBroker(second.status)
    ensures o.terminal.Some? <==> ending.Some?
    ensures ending.Some? ==> o.terminal.value.agentOutcome == ending.value.answer && o.status == OfRun(ending.value.answer.status)
  {
    hide Run, Startable, RunResultOk, CourseOk, Course, VerifyChain, FirstCourse, RetryCourse, Resumed, Recorded;
    var paused, waiting := SessionsComplete(plan, round, began, Some(asked), None);
    var resume := Resume(waiting, approvals, callId, key);
    RetryCourseIsOpen(plan, round, asked, began, now, resume, second, ending);
    steps, o := SessionsResume(paused, 1, plan, now, resume, second, ending);
  }

  /******* Alone, the split statements do what the stores do in one call *******/

  /** A first call with nobody in between owns its session exactly if the plan and its three columns are new. */
  lemma ClaimAlone(w: System, pid: nat, plan: SessionPlan, now: Time)
    requires pid !in w.processes
    ensures var arrived := Next(w, Arrive(pid, plan, now, None));
            var after := Next(Next(arrived, Look(pid)), Write(pid));
            if !(plan.createdAt <= now < plan.deadline) || !Preflight(w.l, plan) then arrived == w
            else if plan !in w.l.sessions
                    && forall p :: p in w.l.sessions ==> p.key != plan.key && p.firstObservationId != plan.firstObservationId
                                                         && p.roundPlan != plan.roundPlan then
              after == w.(l := w.l.(sessions := w.l.sessions[plan := SL.Started]), claims := w.claims + [(pid, plan)],
                          processes := w.processes[pid := Process(plan, now, None, Owning(None, None, None))])
            else after == w.(processes := w.processes[pid := Process(plan, now, None, Stopped)])
    ensures var looked := Next(Next(w, Arrive(pid, plan, now, None)), Look(pid));
            plan.createdAt <= now < plan.deadline && Preflight(w.l, plan) ==>
              looked == w.(processes := w.processes[pid := Process(plan, now, None,
                if plan !in w.l.sessions && !SL.Seen(w.l.sessions, plan) then Writing else Stopped)])
  {
    hide Preflight, SL.Seen, SL.Clashes;
    ColumnsAreNew(w.l.sessions, plan);
  }

  lemma ColumnsAreNew(rows: SL.Rows, plan: SessionPlan)
    ensures SL.Seen(rows, plan) ==> SL.Clashes(rows, plan)
    ensures plan !in rows ==>
              (!SL.Clashes(rows, plan) <==>
                 forall p :: p in rows ==> p.key != plan.key && p.firstObservationId != plan.firstObservationId
                                           && p.roundPlan != plan.roundPlan)
  {
    if plan !in rows && !SL.Clashes(rows, plan) {
      forall p | p in rows
        ensures p.key != plan.key && p.firstObservationId != plan.firstObservationId && p.roundPlan != plan.roundPlan
      {
        assert p in rows.Keys && !SL.Clash(p, plan);
      }
    }
  }

  /** A resume with nobody in between owns its session exactly if the row waits with the outcome presented, and that
      waits for a Broker's Approval. */
  lemma ResumeAlone(w: System, pid: nat, plan: SessionPlan, now: Time, resume: Resume)
    requires pid !in w.processes && plan.createdAt <= now < plan.deadline && Preflight(w.l, plan)
    ensures var after := Next(Next(Next(w, Arrive(pid, plan, now, Some(resume))), Look(pid)), Write(pid));
            var waiting := resume.waiting;
            if && plan in w.l.sessions && w.l.sessions[plan] == SL.Waiting(waiting)
               && waiting.sessionId == plan && waiting.status == SessionApprovalRequired && waiting.callSetId == plan.options
               && waiting.secondHandoff != None && waiting.secondHandoff.value.status == ApprovalRequired then
              after == w.(l := w.l.(sessions := w.l.sessions[plan := SL.Resuming(waiting)]), resumes := w.resumes + [(pid, plan)],
                          processes := w.processes[pid := Process(plan, now, Some(resume), Owning(None, None, None))])
            else after == w.(processes := w.processes[pid := Process(plan, now, Some(resume), Stopped)])
  {
    hide Preflight;
  }

  /** A handoff claim with nobody in between is recorded exactly if the preflight and the two-attempt rule admit it. */
  lemma HandoffAlone(w: System, h: HandoffPlan)
    requires h !in w.selected
    ensures var after := Next(Next(w, SelectHandoff(h)), InsertHandoff(h));
            if && h.WellShaped() && h.agentOutcomeDigest.planId == h.agentPlan
               && h.agentPlan in w.l.runs && w.l.runs[h.agentPlan] == CP.Done(h.agentOutcomeDigest)
               && h.agentOutcomeDigest.intent == Some(h.call.Intent()) && HL.Admits(w.l.handoffs, h) then
              after == w.(l := w.l.(handoffs := w.l.handoffs[h := CP.Started]))
            else after == w
  {
    hide HL.MayAttempt, HL.KeyTaken, HandoffPlan.WellShaped, BrokerCall.Intent;
    assert w.selected + {h} - {h} == w.selected;
    assert w.selected - {h} == w.selected;
  }
}
