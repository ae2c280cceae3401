# VulnLoom verification model

A Dafny model of the parts of VulnLoom whose correctness spans many steps: the taint tracer of the Python source
mapper, the two-tool Agent session protocol with its ledgers and auditor, the provider egress lifecycle, the pieces of
the provider transport, and the Agent workflow regression gate. `dafny verify dfyconfig.toml` checks everything.

| Files | What they model |
|---|---|
| `Options`, `FiniteSets` | the optional value, and small facts on finite sets |
| `PythonAst`, `SourceIndex` | the syntax the tracer looks at, and name resolution |
| `ValueFlow` | what flows into a value, what a target binds, what a called function receives |
| `Dependencies` | environments, their joins, and single paths through a block |
| `TaintFlows`, `FlowTracer` | the tracer's flow table as a function, and the tracer that mutates it |
| `TaintPaths` | what happens on a path: the sinks it reaches, the guards it has met, its denials |
| `TaintGuarantees`, `TaintSoundness`, `TaintPrecision`, `TaintWitnesses` | chains, guard dominance, soundness and exactness over paths, and where runs differ from them |
| `AgentRecords`, `SessionOutcomes` | plans, outcomes, budget ledgers, sealing and auditing an outcome |
| `ClaimProtocol`, `HandoffLedger`, `SessionLedger` | the checkpoint stores, and claims under interleaving |
| `AgentRuntime`, `BrokerLoop`, `AgentServices`, `AgentSessions` | the model loop, the Broker loop, the services and the orchestrator |
| `SessionProtocol`, `SessionGuarantees` | all of them interleaved, and what holds in every reachable state |
| `SessionProgress`, `SessionWitnesses` | that sessions get there, on every course their services can take, and runs that happen |
| `ProviderEgress`, `EgressInterleaving` | the egress ledgers, issue and revoke, readers between the statements |
| `RateLimiter`, `ProviderFrame` | the sliding window, the frames, the bounded reads, the admission rules |
| `WorkflowGate` | the evaluator, the mutations and the expectation table |

Modelling conventions:

- A content digest is injective, so a value that is identified by its digest is represented by itself: a run plan is its
  own plan id, a flow's identity is the content it is the digest of.
- Code that updates state is a class or a method with a loop, proved equal to a function; the theorems are about that
  function or about the state machine it is a step of.
- What a clock, model, Broker, target, network or scheduler does is a parameter that ranges over everything.
- Durations are whole microseconds; `WholeSeconds` is the source's truncating conversion.

## Findings

- A session can be prepared and run but not sealed while more than a day is left: the plan's ledger caps the remaining
  time by the run's wall budget, the final ledger does not, and both must be at most 86400 seconds.
  `SealingSucceedsExactlyWhen` gives the exact condition, `DistantDeadlineCannotBeSealed` the failing family,
  `RefusedCommitsHappen` a run that ends so, and `CommitSucceedsExactlyWhen` shows that nothing else refuses a commit.
- The check that a session does not repeat the first tool commitment can never fire: a commitment covers the task, and the
  round's task is never the root's (`RepeatCheckNeverFires`, `PreparesExactlyWhen`). `RepeatedRequestsArePrepared` gives a
  prepared session whose one authorized call is the first call's own tool and request.
- A split reader of the egress tables can answer ACTIVE after a revocation completed. `StaleExactlyWhen` says when,
  `StaleAnswersHappen` gives the run.
- The corpus gate fails on a clean base observation whose validation made no provider attempt, because its counter
  mutation then changes nothing. `CorpusPassesExactlyWhen` has the exact condition, `CleanObservationsCanFail` the observation.
- The audit has no recommendation for a session that was resumed and needed Approval again
  (`RecommendationIsMissingExactlyWhen`); the Python table raises `KeyError` there. `UnrecommendedSessionsHappen` has a run that
  ends so for every startable plan and authorized call, `BothKindsOfSessionsHappen` one from nothing assumed.
- The tracer is exact for paths as it walks them, in every program: a Return or Raise ends only the block it stands in, and
  an augmented assignment is bound before its value is walked (`TraceIsExact`). Runs are something else, so it can report
  what no run does: a branch that binds a name and returns still counts for what follows (`EarlyReturnIsOverreported`), and
  so does the new binding for a call in the value (`CallInUpdateIsOverreported`). Where the functions on a chain have
  stops only at their ends or in guard clauses that bind no name, and no call in such a value looks at its target, it is
  exact for runs too. It is sound for both.
- A denial also puts the guards before it on flows recorded earlier, even flows of sinks that every path reaches before those
  guards (`LaterGuardsAreCredited`). `GuardsAreMet` says just which guards a flow can carry.
- Two claims for one Agent outcome under different keys can both pass their SELECTs before either INSERTs, since the
  connection opens its transaction at the INSERT. Both become first attempts, and the Broker acts twice
  (`RacingClaimsBothComplete`). The ledger keeps its two-attempt rule exactly if the rule still admits every claim when it
  is inserted (`HandoffLedgerIsSoundExactlyWhen`). The sessions and their audit do not depend on it.

## Model

| member | source | states |
|---|---|---|
| SourceIndex.UniqueSuffix | src/vulnloom/analyzers/python_web.py:394-401 | a bare name resolves exactly when one function has that last component, and then to that function |
| SourceIndex.LastComponentIsLast | src/vulnloom/analyzers/python_web.py:399 | the last component is what follows the last dot |
| SourceIndex.NormalizesFirstComponent | src/vulnloom/analyzers/python_web.py:1178-1185 | the first component of a name is replaced by its import, the rest kept |
| PythonAst.DottedReadsPaths | src/vulnloom/analyzers/python_web.py:1167-1175 | nested attributes read as their names with dots between, calls as what they call |
| SourceIndex.ResolvesToFirstMeaning | src/vulnloom/analyzers/python_web.py:403-416 | a name resolves exactly to the first known function among own method, own module and full symbol, and only if there is none to the one function with its last component |
| Dependencies.DependsExactlyWhen | src/vulnloom/analyzers/python_web.py:1074-1102 | a source is a dependency of an expression exactly if it is what some leaf contributes that flows into its value: through attributes not below the request, every positional and keyword argument and every other child, not through what is called |
| Dependencies.BindingIsAssigning | src/vulnloom/analyzers/python_web.py:481-492 | binding targets leaves exactly the names they bind, tuples and lists unpacked, with the sources assigned, and every other name as it was |
| Dependencies.ExprDependenciesJoin | src/vulnloom/analyzers/python_web.py:1074-1129 | dependencies distribute over the merge of two environments |
| Dependencies.EnvBlockJoin | src/vulnloom/analyzers/python_web.py:467-639 | running a block distributes over the merge of its starting environments |
| Dependencies.PathBlockBelow | src/vulnloom/analyzers/python_web.py:467-639 | every single path, as run or as traced, ends below the environment the block computes |
| Dependencies.SomePathCarries | src/vulnloom/analyzers/python_web.py:467-639 | every dependency the block computes is carried by some traced path, and by some run where the block lets runs pass |
| Dependencies.JoinIsExact | src/vulnloom/analyzers/python_web.py:467-639 | the join is exact for every block: a name depends on a source exactly if it does on some path as the tracer walks it, loops taken at most once |
| Dependencies.JoinIsExactForRuns | src/vulnloom/analyzers/python_web.py:467-639 | in a block whose stops stand at its ends or in guard clauses, a name depends on a source exactly if it does at the end of some run that no stop cuts short |
| Dependencies.EarlyReturnOverreaches | src/vulnloom/analyzers/python_web.py:501-531 | a block with a Return whose computed dependency no run that goes on carries |
| FlowTracer.FlowTracer.AddGuardsToExistingFlows | src/vulnloom/analyzers/python_web.py:641-658 | the pop-and-insert loop over a snapshot never pops a missing key and leaves exactly the image of the old table under adding guards to matching chains, every key the identity of its entry |
| FlowTracer.FlowTracer.EnterCall | src/vulnloom/analyzers/python_web.py:674-722 | a call adds its own flow, binds positional then keyword arguments, and leaves what tracing its callee leaves |
| FlowTracer.FlowTracer.Expression | src/vulnloom/analyzers/python_web.py:660-722 | the visit of an expression tree leaves the specified table and terminates through callees |
| FlowTracer.FlowTracer.Function | src/vulnloom/analyzers/python_web.py:443-465 | functions beyond the depth bound or already active leave the table alone, others trace their body |
| FlowTracer.FlowTracer.Block | src/vulnloom/analyzers/python_web.py:467-639 | the statement loop with its running guards and environment leaves the specified table and environment |
| FlowTracer.FlowTracer.Statement | src/vulnloom/analyzers/python_web.py:481-626 | each kind of statement leaves the specified table and environment, merging branches and loops |
| FlowTracer.FlowTracer.Trace | src/vulnloom/analyzers/python_web.py:427-441 | the whole trace computes the specified table from every route |
| TaintGuarantees.RewriteIsIdempotentAndLossless | src/vulnloom/analyzers/python_web.py:641-658 | adding guards twice is adding them once, and no route, sources, chain and sink is lost or invented |
| TaintGuarantees.BlockIsDominated | src/vulnloom/analyzers/python_web.py:501-531 | after a function body, every flow under its chain carries the guards of every top-level denial branch, recorded before, in or after it or in callees |
| TaintSoundness.DenialsGuardTheirChain | src/vulnloom/analyzers/python_web.py:501-531 | after a visit to a body, every flow through it carries everything a path has met on the way to each of its denials, and the denial itself |
| TaintSoundness.DenialsAreRecognized | src/vulnloom/analyzers/python_web.py:1147-1164 | an If guards what follows exactly if it has no else, ends by leaving, and tests a negation or an inequality |
| TaintSoundness.StartsWithItsArguments | src/vulnloom/analyzers/python_web.py:700-712 | a called function starts with exactly the parameters that receive something: the last keyword's value, else the last position's |
| TaintGuarantees.RouteKeepsGoodFlows | src/vulnloom/analyzers/python_web.py:427-465 | tracing one route keeps all earlier flows good and adds only good ones |
| TaintGuarantees.TraceHasGoodFlows | src/vulnloom/analyzers/python_web.py:427-465 | every recorded chain starts at its route's handler, is at most the depth bound long, never repeats a function and follows real resolved calls; every flow carries the decorator guards and dominating denial guards of every function on its chain |
| TaintSoundness.TaintIsSound | src/vulnloom/analyzers/python_web.py:443-722 | every sink call on any path, as run or as traced, through non-recursive calls within the depth bound, loops taken at most once, whose arguments receive something, is covered by a flow of the final table with that route, chain and sink, all those sources, and every guard the path has met |
| TaintPrecision.TraceIsExact | src/vulnloom/analyzers/python_web.py:427-722 | for every index, a source is reported for a route, chain and sink exactly if some path as the tracer walks it passes it there through the handler and its non-recursive calls; and exactly if some run does, where the functions on the chain stop only at their ends or in guard clauses and no call in an augmented assignment looks at its target |
| TaintPrecision.GuardsAreMet | src/vulnloom/analyzers/python_web.py:427-658 | where guards come from: each source of each flow has a path to its sink whose guards the flow all carries, and every other guard it carries was met on a path to a top-level denial in a function of its chain |
| TaintWitnesses.EarlyReturnIsOverreported | src/vulnloom/analyzers/python_web.py:501-531 | an index, with its route and sink, for which the tracer reports a source that no run passes on, because the branch that binds it returns |
| TaintWitnesses.CallInUpdateIsOverreported | src/vulnloom/analyzers/python_web.py:492-500 | an index for which the tracer reports a source at a call in an augmented assignment, before any run has bound it |
| TaintWitnesses.LaterGuardsAreCredited | src/vulnloom/analyzers/python_web.py:529-531 | a flow that carries a check and a denial that come after its sink on every path |
| AgentRecords.PreparedSessionIsValid | src/vulnloom/agent_runtime/session.py:89-256 | a plan prepared from authoritative inputs always passes its validator, and never has more wall time than the root |
| AgentRecords.PreparedSessionHolds | src/vulnloom/agent_runtime/session.py:105-256 | a prepared session holds the root records, a round that takes over exactly what is left, and one option for each template |
| AgentRecords.PreparesExactlyWhen | src/vulnloom/agent_runtime/session.py:105-256 | preparation succeeds exactly with one to eight distinct requests the Broker accepts, an assembled context, a whole second and a token left, two tool calls of which one is used, and a new task |
| AgentRecords.RepeatCheckNeverFires | src/vulnloom/agent_runtime/session.py:158-164 | on authoritative inputs no authorized call can have the first round's intent |
| AgentRecords.ContinuationPreparesExactlyWhen | src/vulnloom/agent_runtime/continuation.py:89-205 | a continuation is prepared exactly if its context is assembled and a second and a token are left under a new task, and then gets exactly what is left, one step and no tools |
| SessionOutcomes.SelectionIsUnambiguous | src/vulnloom/agent_runtime/session.py:565-576 | in a valid plan an intent selects a call exactly if it is that authorized call's intent |
| SessionOutcomes.SealingSucceedsExactlyWhen | src/vulnloom/agent_runtime/session.py:388-465 | an honest chain is sealed exactly if the tokens fit, at most a day is left, and a resume had Approvals |
| SessionOutcomes.SealedExactlyWhen | src/vulnloom/agent_runtime/session.py:388-465 | what is sealed of an honest chain is exactly the outcome that describes it: its records, the status its last run or handoff ended with, the option whose intent was proposed, and the ledger whose entries are the sums; and that exactly if it fits |
| SessionOutcomes.OwnHandoffsAreForTheRound | src/vulnloom/agent_runtime/session.py:276-358 | both handoffs are for the round, its outcome and its call, now, for a minute |
| SessionOutcomes.TokensOverrunOnlyAfterFailure | src/vulnloom/agent_runtime/session.py:594-627 | the tokens can only exceed the budget when the last run failed or timed out |
| SessionOutcomes.DistantDeadlineCannotBeSealed | src/vulnloom/agent_runtime/session.py:626 | with two days left no outcome can be sealed |
| SessionOutcomes.FinalBudgetFitsExactlyWhen | src/vulnloom/agent_runtime/session.py:594-627 | the final ledger of an honest session is valid exactly if the tokens fit and at most a day is left |
| SessionOutcomes.BudgetsAreConserved | src/vulnloom/agent_runtime/session.py:594-627 | consumed and remaining add up to the root budget, the three budgets telescope, wall time does not grow, attempts stay within three |
| SessionOutcomes.AuthorizedIsUnique | src/vulnloom/agent_runtime/audit.py:257-276 | the auditor's search finds exactly the selected option |
| SessionOutcomes.SealedOutcomePassesAudit | src/vulnloom/agent_runtime/audit.py:257-310 | what the orchestrator seals passes the auditor's independent recomputation of call and budget |
| SessionOutcomes.BudgetPassesExactlyWhen | src/vulnloom/agent_runtime/audit.py:278-310 | the auditor's budget check passes exactly a valid ledger whose every entry is the sum over the chain |
| SessionOutcomes.SelectionPassesExactlyWhen | src/vulnloom/agent_runtime/audit.py:257-276 | the auditor's call check passes exactly an outcome that names an authorized option, or none and no handoff |
| ClaimProtocol.CheckpointStore.Claim | src/vulnloom/agent_runtime/continuation_store.py:55-115 | created exactly if plan and unique columns are new; otherwise replay, recovery or the conflict that explains it, and nothing changes |
| ClaimProtocol.CheckpointStore.Complete | src/vulnloom/agent_runtime/store.py:82-96 | only a started row is completed; anything else is refused and changes nothing |
| ClaimProtocol.CheckpointStore.RequireCompleted | src/vulnloom/agent_runtime/store.py:98-109 | returns an outcome exactly for a completed row, and it is that plan's |
| ClaimProtocol.RunKeepsInv | src/vulnloom/agent_runtime/store.py:48-96 | unique columns, one owner per row and faithful replays survive every interleaving of SELECT, INSERT, effect, UPDATE and crash |
| ClaimProtocol.ClaimsAreExclusive | src/vulnloom/agent_runtime/audit_store.py:60-129 | under any interleaving and crashes a plan is claimed once, claimed plans share no unique column, and only a claimant acts |
| ClaimProtocol.ReplaysAgree | src/vulnloom/agent_runtime/continuation_store.py:62-90 | all replays of a plan hand out one outcome, the one in the row |
| ClaimProtocol.CompletedRowsNeverChange | src/vulnloom/agent_runtime/continuation_store.py:117-138 | rows are never deleted and completed rows never change |
| ClaimProtocol.AbandonedStaysStarted | src/vulnloom/agent_runtime/store.py:48-96 | a row whose claimant crashed stays started for good |
| ClaimProtocol.ClaimAlone | src/vulnloom/agent_runtime/store.py:48-96 | with nobody in between, the split statements claim, act and complete exactly what is new, and replay exactly what is completed |
| ClaimProtocol.ConflictsAreShared | src/vulnloom/agent_runtime/continuation_store.py:30-52 | a plan conflicts exactly if another row shares a value of a unique column |
| HandoffLedger.AdmittingKeepsSound | src/vulnloom/agent_runtime/tool_handoff_store.py:59-115 | a claim the two-attempt rule admits at its INSERT keeps the ledger sound, a second attempt always beside the first it names |
| HandoffLedger.InsertKeepsSoundExactlyWhen | src/vulnloom/agent_runtime/tool_handoff_store.py:59-115 | an INSERT some time after its SELECTs keeps the ledger sound exactly if the rule still admits it |
| HandoffLedger.AttemptsAreBounded | src/vulnloom/agent_runtime/tool_handoff_store.py:59-135 | in a sound ledger, per Agent outcome at most two attempts, at most one of them completed |
| HandoffLedger.HandoffStore.Claim | src/vulnloom/agent_runtime/tool_handoff_store.py:59-115 | with nobody else between its SELECTs and its INSERT: created exactly if the rule admits it; every other answer has its exact cause and changes nothing |
| HandoffLedger.HandoffStore.Complete | src/vulnloom/agent_runtime/tool_handoff_store.py:117-135 | completes exactly a started row with the same digest and attempt |
| SessionLedger.SessionStore.Claim | src/vulnloom/agent_runtime/session_store.py:60-127 | created exactly if the plan and its key, first Observation and round plan are new; waiting and completed rows replay, started and resuming ones ask for recovery |
| SessionLedger.SessionStore.ClaimResume | src/vulnloom/agent_runtime/session_store.py:129-172 | only the waiting row that holds the very outcome presented moves to resuming |
| SessionLedger.SessionStore.PauseForApproval | src/vulnloom/agent_runtime/session_store.py:174-181 | only a started row and an Approval outcome pause |
| SessionLedger.SessionStore.Complete | src/vulnloom/agent_runtime/session_store.py:183-186 | only a started or resuming row is completed, never with another session's Observation |
| SessionLedger.SessionStore.WriteOutcome | src/vulnloom/agent_runtime/session_store.py:209-254 | the guarded update and its two refusals, each with its exact condition |
| AgentRuntime.SomeStepDecides | src/vulnloom/agent_runtime/service.py:114-312 | a run always reaches a deciding step, so the end of the loop is unreachable |
| AgentRuntime.JudgeExactlyWhen | src/vulnloom/agent_runtime/service.py:187-311 | exactly which attempts retry, propose, conclude, break or fail a step |
| AgentRuntime.ProposesExactlyWhen | src/vulnloom/agent_runtime/service.py:187-297 | a run proposes an intent exactly if its deciding reply is acceptable, proposes an allowed tool with a call left, and the intent is that of the reply; every earlier reply was acceptable and merely failed to validate |
| AgentRuntime.DecidesAtTheLastStep | src/vulnloom/agent_runtime/service.py:114-312 | the deciding step is the first whose reply is not merely unreadable, or the last one allowed |
| AgentRuntime.OutcomeExactlyWhen | src/vulnloom/agent_runtime/service.py:114-312 | a run's outcome is the one its last reply calls for: completed or blocked with that summary, the tool proposed, or the one error of the first check that failed; its totals are the sums over the replies |
| AgentRuntime.OutcomesAreWithinBudget | src/vulnloom/agent_runtime/service.py:114-311 | every outcome is well shaped, at most the allowed steps, and unless failed the sum of the replies is within tokens and wall time |
| AgentRuntime.OfflineAgentRuntime.Step | src/vulnloom/agent_runtime/service.py:115-246 | one pass of the loop gives the verdict and running totals of its step |
| AgentRuntime.OfflineAgentRuntime.Decide | src/vulnloom/agent_runtime/service.py:114-312 | the loop ends at the first deciding step with its verdict and totals, after a call at every step at which one could be made |
| AgentRuntime.OfflineAgentRuntime.Execute | src/vulnloom/agent_runtime/service.py:60-312 | exactly one outcome is written, that of the deciding step, or replayed, and exactly when the plan is active, its first message can be rendered and it is stored or claimable; a broken adapter leaves the row started; one model call for each step asked |
| BrokerLoop.ExecuteHttp | src/vulnloom/broker/service.py:182-419 | the result is the one the call gives: the status of the first turn that ends it, and the evidence of every request if that is a completion; requests and redirects stay within their budgets |
| BrokerLoop.TurnEndsExactlyWhen | src/vulnloom/broker/service.py:182-419 | which turn ends a call with which status: budgets, admission, peer, time, bytes and redirects |
| AgentServices.AgentToolHandoffService.Execute | src/vulnloom/agent_runtime/tool_handoff.py:46-146 | an outcome is given exactly if the handoff is due, bound to the ledger's intent and validated, and either stored or admitted and then what the Broker made; the row records it |
| AgentServices.AgentContinuationService.Execute | src/vulnloom/agent_runtime/continuation.py:207-342 | an outcome is given exactly if the continuation is due and either stored or claimable with a run that answers; it is its run's, and the service's check for another proposal can never fire |
| AgentSessions.AgentSessionService.Execute | src/vulnloom/agent_runtime/session.py:258-311 | the call finishes exactly if everything it asks for is given, from the claim over the round, the handoff and the continuation, and the tokens, the day and the Observation allow it; what it writes is sealed from an honest chain; otherwise the row stays as the claim left it |
| AgentSessions.AgentSessionService.ResumeAfterApproval | src/vulnloom/agent_runtime/session.py:313-386 | the call finishes exactly if the row waits with this outcome, the recorded round selects a call, its second attempt and continuation are given, and the outcome can be sealed; only then the row is completed |
| AgentSessions.ResumeSealsExactlyWhen | src/vulnloom/agent_runtime/session.py:313-465 | a resume of an honest session can be sealed exactly if the tokens fit, at most a day is left and there are Approvals |
| SessionProtocol.RunKeepsInv | src/vulnloom/agent_runtime/session.py:258-386 | over every interleaving with crashes, handoff claims split between SELECT and INSERT included: every process holds only what the ledgers record, every stored outcome is sealed from an honest recorded chain, one owner per row, every second attempt beside the first it names |
| SessionProtocol.ResumedRound | src/vulnloom/agent_runtime/session.py:331-342 | after a won resume the binding check cannot fail: the round, the call and the waiting attempt are those of the waiting outcome |
| SessionProtocol.ReadyIsHonest | src/vulnloom/agent_runtime/session.py:271-306 | what an owner is about to seal is an honest chain |
| SessionGuarantees.StepMovesAlongEdges | src/vulnloom/agent_runtime/session_store.py:129-254 | rows move only started to completed, or started, waiting, resuming, completed |
| SessionGuarantees.HistoryOnlyGrows | src/vulnloom/agent_runtime/session_store.py:209-254 | rows never go back, completed rows in all ledgers never change |
| SessionGuarantees.OneClaimOneResumeOneOwner | src/vulnloom/agent_runtime/session_store.py:129-172 | no session is claimed twice, resumed twice, or owned by two processes, whatever the interleaving of SELECT and UPDATE |
| SessionGuarantees.SessionsShareNothing | src/vulnloom/agent_runtime/session_store.py:36-52 | no key, first Observation, round plan or second Observation belongs to two sessions |
| SessionGuarantees.HandoffsAreBounded | src/vulnloom/agent_runtime/tool_handoff_store.py:59-135 | in every state reached while the rule still admitted each claim at its INSERT: at most two attempts and one completion per Agent outcome |
| SessionGuarantees.HandoffLedgerIsSoundExactlyWhen | src/vulnloom/agent_runtime/tool_handoff_store.py:59-115 | for every run, the handoff ledger keeps the two-attempt rule exactly if the rule still admitted each claim at its INSERT |
| SessionGuarantees.SecondObservationIsNew | src/vulnloom/agent_runtime/session_store.py:246-249 | an honest commit never hits the unique second Observation |
| SessionGuarantees.CommitSucceedsExactlyWhen | src/vulnloom/agent_runtime/session.py:297-311 | an owner's commit takes effect exactly if tokens fit, at most a day is left and a resume had Approvals |
| SessionGuarantees.AuditAcceptsHonestSessions | src/vulnloom/agent_runtime/audit.py:174-310 | the auditor accepts every session that was ever completed, at any later time, with other sessions interleaved |
| SessionGuarantees.AuditRejectsExactlyDrift | src/vulnloom/agent_runtime/audit.py:217-225 | against any other ledgers a session passes exactly if they record the same chain |
| SessionGuarantees.AuditAcceptsExactlyWhen | src/vulnloom/agent_runtime/audit.py:174-310 | of any row in any ledgers the auditor accepts exactly one whose links are all on record, whose ledger adds up, and whose call is authorized |
| SessionGuarantees.AuditRejectsExactlyChangedRows | src/vulnloom/agent_runtime/audit.py:257-310 | a completed row changed in anything but its links passes exactly if it still has the very ledger and names an authorized call |
| SessionGuarantees.RecommendationIsMissingExactlyWhen | src/vulnloom/agent_runtime/audit.py:424-448 | a completed session lacks a recommendation exactly if it was resumed and its second attempt needed Approval again |
| SessionGuarantees.RecommendationFollowsTheChain | src/vulnloom/agent_runtime/audit.py:424-448 | the recommendation is how the last run or handoff of the chain ended |
| SessionGuarantees.AbandonedSessionsStay | src/vulnloom/agent_runtime/session_store.py:60-254 | a session whose owner stopped before its commit stays where it was for good |
| SessionGuarantees.EveryLedgerBalances | src/vulnloom/agent_runtime/session_models.py:177-201 | every completed row's ledger adds up to the root's budget and to its runs |
| SessionGuarantees.ContinuationsCannotPropose | src/vulnloom/agent_runtime/continuation.py:218-221 | in every reachable state no run behind a claimed continuation and no completed continuation row holds a tool proposal |
| SessionProgress.SessionsComplete | src/vulnloom/agent_runtime/session.py:258-311 | from empty ledgers every startable plan goes through every round, second handoff and continuation its services can give within budget and a day under new keys, to a waiting row exactly if the handoff needs Approval and otherwise to a completed row the auditor accepts, which holds just what happened |
| SessionProgress.SessionsResume | src/vulnloom/agent_runtime/session.py:313-386 | from every reachable state a waiting session can be resumed through every second attempt and continuation its services can give, to a completed row with both attempts that the auditor accepts |
| SessionProgress.SessionsPauseAndResume | src/vulnloom/agent_runtime/session.py:258-386 | from empty ledgers every startable plan whose call needs Approval pauses, is resumed and completes, whatever its second attempt and continuation give |
| SessionProgress.ClaimAlone | src/vulnloom/agent_runtime/session_store.py:60-127 | a first call with nobody in between owns its session exactly if the plan and its three columns are new |
| SessionProgress.ResumeAlone | src/vulnloom/agent_runtime/session_store.py:129-172 | a resume with nobody in between owns its session exactly if the row waits with the outcome presented |
| SessionProgress.HandoffAlone | src/vulnloom/agent_runtime/tool_handoff_store.py:59-115 | a handoff claim with nobody in between is recorded exactly if preflight and the two-attempt rule admit it |
| SessionWitnesses.SomeSessionStarts | src/vulnloom/agent_runtime/session.py:89-256 | startable plans exist for every deadline a second or more away |
| SessionWitnesses.RepeatedRequestsArePrepared | src/vulnloom/agent_runtime/session.py:158-164 | a session may authorize the very tool and request of its first call |
| SessionWitnesses.TwoToolSessionsHappen | src/vulnloom/agent_runtime/session.py:258-311 | for every authorized call some run completes it and its continuation |
| SessionWitnesses.UnrecommendedSessionsHappen | src/vulnloom/agent_runtime/audit.py:424-448 | for every authorized call some run ends in a completed row the auditor accepts but has no recommendation for |
| SessionWitnesses.BothKindsOfSessionsHappen | src/vulnloom/agent_runtime/audit.py:424-448 | one plan with a run of either kind, with nothing assumed |
| SessionWitnesses.DistantCommitsAreRefused | src/vulnloom/agent_runtime/session.py:388-465 | every startable plan with more than a day left has a run within budget whose commit leaves the row started |
| SessionWitnesses.RefusedCommitsHappen | src/vulnloom/agent_runtime/session.py:626 | for every deadline more than a day away, a plan and a run with a refused commit |
| SessionWitnesses.RacingClaimsBothComplete | src/vulnloom/agent_runtime/tool_handoff_store.py:59-115 | whenever a session can start, two claims with interleaved statements both complete as first attempts of one Agent outcome |
| ProviderEgress.AtomicStatus | src/vulnloom/agent_runtime/provider_admission.py:424-448 | read at once, ACTIVE exactly if issued, not being revoked and in its lifetime; REVOKED exactly if a revocation completed |
| ProviderEgress.RevokeKeepsSound | src/vulnloom/agent_runtime/provider_admission.py:320-342 | with a started revocation the issuance update cannot miss, and both tables stay in step |
| ProviderEgress.AgentProviderEgressStore.ClaimIssue | src/vulnloom/agent_runtime/provider_admission.py:192-229 | created exactly if grant and key are new; every other answer changes nothing |
| ProviderEgress.AgentProviderEgressStore.CompleteIssue | src/vulnloom/agent_runtime/provider_admission.py:231-244 | exactly a pending issuance becomes active |
| ProviderEgress.AgentProviderEgressStore.ClaimRevoke | src/vulnloom/agent_runtime/provider_admission.py:246-318 | created exactly for an active grant without a revocation under a new key; each refusal has its exact cause |
| ProviderEgress.AgentProviderEgressStore.CompleteRevoke | src/vulnloom/agent_runtime/provider_admission.py:320-342 | exactly a started revocation completes, in both tables at once |
| ProviderEgress.AgentProviderEgressStore.StatusAt | src/vulnloom/agent_runtime/provider_admission.py:424-448 | ACTIVE implies no revocation row and a live grant |
| ProviderEgress.AgentProviderEgressStore.RequireActive | src/vulnloom/agent_runtime/provider_admission.py:402-422 | passes exactly an active grant for the same admission |
| ProviderEgress.AgentProviderEgressAuthority.Issue | src/vulnloom/agent_runtime/provider_admission.py:510-562 | succeeds exactly as policy, deadline and ledger allow; an issued grant is active, for the admission asked and within its policy; other completed grants and all revocations are untouched |
| ProviderEgress.AgentProviderEgressAuthority.Revoke | src/vulnloom/agent_runtime/provider_admission.py:564-606 | succeeds exactly as issuer, lifetime, deadline and ledger allow, and a revocation reported done shows in every later status |
| EgressInterleaving.StillActive | src/vulnloom/agent_runtime/provider_admission.py:270-295 | between the SELECTs and the INSERT of a claim the grant cannot stop being active without the INSERT failing |
| EgressInterleaving.RunKeepsInv | src/vulnloom/agent_runtime/provider_admission.py:192-448 | the tables stay in step and only move forward over every interleaving with crashes |
| EgressInterleaving.LifecycleIsSound | src/vulnloom/agent_runtime/provider_admission.py:246-342 | in every reachable state at most one revocation per grant, completed exactly if the issuance is revoked |
| EgressInterleaving.RevocationIsFinal | src/vulnloom/agent_runtime/provider_admission.py:320-342 | a completed revocation is never undone |
| EgressInterleaving.ActiveAnswers | src/vulnloom/agent_runtime/provider_admission.py:424-448 | a split read answers ACTIVE exactly on an active first read, nothing pending at the second and a live grant; never when begun after a revocation completed |
| EgressInterleaving.StaleExactlyWhen | src/vulnloom/agent_runtime/provider_admission.py:424-448 | an ACTIVE answer is out of date exactly if a revocation of the live grant completed between the reads |
| EgressInterleaving.StaleAnswersHappen | src/vulnloom/agent_runtime/provider_admission.py:424-448 | a run with a stale ACTIVE answer |
| EgressInterleaving.IssueAlone | src/vulnloom/agent_runtime/provider_admission.py:192-244 | with nobody in between, a grant is issued exactly if it and its key are new |
| EgressInterleaving.RevokeAlone | src/vulnloom/agent_runtime/provider_admission.py:246-342 | with nobody in between, a grant is revoked exactly if it is active, without a revocation, under a new key |
| RateLimiter.PruningTwice | src/vulnloom/agent_runtime/live_provider.py:427 | pruning the pruned list is pruning the whole history |
| RateLimiter.EveryWindowIsBounded | src/vulnloom/agent_runtime/live_provider.py:425-430 | no half-open minute holds more accepted calls than the limit |
| RateLimiter.Limiter.ConsumeRateSlot | src/vulnloom/agent_runtime/live_provider.py:425-430 | for every non-decreasing clock the list is the history's last minute, a call is refused exactly if that is full, and no half-open minute of the whole history ever exceeds the limit |
| ProviderFrame.UnpackRoundTrip | src/vulnloom/agent_runtime/provider_transport_worker.py:44 | lengths survive packing in both directions |
| ProviderFrame.BuildWire | src/vulnloom/agent_runtime/provider_process.py:97-102 | the wire is length, header, credential, body and CA bytes in this order |
| ProviderFrame.ReadRequest | src/vulnloom/agent_runtime/provider_transport_worker.py:44-86 | the worker's stepwise reading accepts exactly what the frame grammar does |
| ProviderFrame.FrameRoundTrip | src/vulnloom/agent_runtime/provider_process.py:79-102 | the worker recovers exactly the framed bytes, exactly if the header fits and is in bounds and the credential is clean |
| ProviderFrame.AcceptedFrameIsExact | src/vulnloom/agent_runtime/provider_transport_worker.py:80-84 | whatever is accepted accounts for every byte of input |
| ProviderFrame.AlteredFramesAreRejected | src/vulnloom/agent_runtime/provider_transport_worker.py:80-84 | a frame with trailing bytes, or cut anywhere, is rejected |
| ProviderFrame.ReadResponse | src/vulnloom/agent_runtime/provider_transport_worker.py:150-156 | for every way the response arrives, it is kept whole exactly if within the limit |
| ProviderFrame.Capture | src/vulnloom/agent_runtime/provider_process.py:120-132 | for every chunking, overflow exactly if the whole output exceeds the limit, otherwise all of it is kept |
| ProviderFrame.OutputParts | src/vulnloom/agent_runtime/provider_process.py:216-251 | an output is prefix, metadata and body of a response within bounds exactly if its length prefix cuts it into those parts |
| ProviderFrame.ParseWorkerOutput | src/vulnloom/agent_runtime/provider_process.py:216-251 | the parser returns a response exactly if the output is the length prefix, some metadata that decodes to that response, and its body, all within bounds; it returns nothing exactly if there is none |
| ProviderFrame.ResponseArrives | src/vulnloom/agent_runtime/provider_process.py:121-184 | a successful worker's output never overflows and is an output of its response and of no other |
| ProviderFrame.SplitJoin | src/vulnloom/agent_runtime/provider_transport_worker.py:252 | splitting at the dots undoes joining labels |
| ProviderFrame.AdmittedRequestsPassTheWorker | src/vulnloom/agent_runtime/transport.py:94-111 | every hostname and path admitted passes the worker's own checks |
| ProviderFrame.HostnamesAreJoinedLabels | src/vulnloom/agent_runtime/provider_transport_worker.py:243-262 | the worker takes exactly lower-case labels with dots between, of at most 253 characters |
| ProviderFrame.AdmittedHostnamesExactly | src/vulnloom/agent_runtime/transport.py:94-96 | an admission's pattern takes exactly the worker's hostnames of two or more labels, the last beginning with a letter |
| ProviderFrame.AdmittedPathsExactly | src/vulnloom/agent_runtime/transport.py:104-111 | an admitted path is a slash and RFC 3986 segment characters, at most 512, no empty first segment, no two dots in a row |
| ProviderFrame.PlainPathsExactly | src/vulnloom/agent_runtime/provider_transport_worker.py:73-79 | a worker path is a slash without query, fragment, backslash, escape, control break or two dots in a row |
| WorkflowGate.Evaluate | src/vulnloom/benchmark/agent_workflow_evaluator.py:20-151 | the appended list is the specified violations, in order, with their actual values and limits |
| WorkflowGate.StageChecksAreExact | src/vulnloom/benchmark/agent_workflow_evaluator.py:24-74 | despite rounding, order and count pass exactly if the stages are the required ones |
| WorkflowGate.PassesExactlyWhen | src/vulnloom/benchmark/agent_workflow_evaluator.py:55-151 | the gate passes exactly if everything it asks for holds |
| WorkflowGate.ViolationsAreTheFailures | src/vulnloom/benchmark/agent_workflow_evaluator.py:20-151 | the list has exactly the checks that fail, each once, with its actual value and limit, in the order of the checks |
| WorkflowGate.MutationsStayValid | src/vulnloom/benchmark/agent_workflow_corpus.py:272-345 | a mutation is refused exactly when it would drop the only checkpoint; otherwise the result is valid |
| WorkflowGate.MutationsGiveExpectedCodes | src/vulnloom/benchmark/agent_workflow_corpus.py:53-88 | from a clean base each mutation gives exactly its expected codes, the counter one exactly if there is an attempt to take away |
| WorkflowGate.MutationsGiveExpectedViolations | src/vulnloom/benchmark/agent_workflow_corpus.py:272-345 | from a clean base each mutation gives exactly its violations with their values: one too many, one too few, or not as required |
| WorkflowGate.MatchesExactlyWhen | src/vulnloom/benchmark/agent_workflow_corpus.py:227-269 | a mutation matches exactly if its observation is valid and its codes are the expected ones, in order |
| WorkflowGate.EvaluateCorpus | src/vulnloom/benchmark/agent_workflow_corpus.py:227-269 | for every base the corpus raises exactly on a single checkpoint, and otherwise passes exactly on a clean base with a provider attempt |
| WorkflowGate.CorpusPassesExactlyWhen | src/vulnloom/benchmark/agent_workflow_corpus.py:227-345 | all 23 mutations match exactly if the base is clean and validation made a provider attempt |
| WorkflowGate.CleanObservationsCanFail | src/vulnloom/benchmark/agent_workflow_corpus.py:329 | a valid observation without a violation, for every number of attempts, that fails the corpus with none and passes it with one |

## Left out

- Try statements, loop-else, nested definitions, and annotated assignments without a value: the tracer does not aim to cover
  mid-body exceptions or repeated iterations.
- Route discovery, import tables, guard and sink word lists: the index is given. Case folding covers ASCII letters.
- TaintSoundness.TaintIsSound: a raise in a callee ends that callee only, as a return does, which is what the tracer assumes.
- The tracer's deadline, and the order in which flows and violations of equal content are listed.
- SQLite itself, files, permissions, publication of grants and artifacts: tables are maps with their UNIQUE columns and
  guarded updates. Every SQL statement is one step, and so is a transaction that begins before it reads. The two SELECTs of a
  handoff claim are one step: what comes between them, the second SELECT or the INSERT's own constraints refuse.
- HandoffLedger.HandoffStore.Claim: one claim alone; `SessionProtocol` splits it between its SELECTs and its INSERT.
- SessionGuarantees.HandoffsAreBounded: with split claims it holds only under `InTime`, as `RacingClaimsBothComplete` shows.
- ClaimProtocol.CheckpointStore.Claim: where two different rows conflict, either conflict may be reported, as with the
  source's `fetchone`.
- The root, round and continuation runs share one run ledger; separate files would hold disjoint plans.
- SessionProtocol.RunKeepsInv: services other than sessions complete rows only with results that satisfy `RunResultOk`,
  `HandoffResultOk` and `ContinuationResultOk`, which `AgentRuntime`, `BrokerLoop` and `AgentServices` prove of them.
- Model registrations, context snapshots, cleanup reports and supporting references, which are carried but not computed with.
- Static Broker validation and the TLS tool: `BrokerScript.validates` is a parameter, and only HTTP calls are modelled.
- The audit's Evidence redaction check, plan binding, bundle and artifacts: `VerifyChain` is the check of the recorded chain.
- The kind of an exception where only "nothing was returned" matters: `None` stands for it.
- Digests have no order: sorted tuples of digests are sets, except in the regression gate, and authorized calls keep the order
  of their templates. A template's profile and HTTP plan are one opaque request.
- AgentSessions.AgentSessionService.Execute: which of the failures after the claim raised is not told apart.
- Sockets, DNS, TLS, subprocess handling, environment checks and zeroing of buffers.
- JSON and Pydantic parsing: validated values are datatypes, and a frame header's codec is a parameter that round-trips the
  value at hand. ProviderFrame.AdmittedRequestsPassTheWorker describes the hostname pattern by its language.
- AgentRuntime.OfflineAgentRuntime.Execute: latencies are whole microseconds, not floats.
- WorkflowGate.Evaluate: stage completeness is counted in billionths; with thirteen stages no tie can be rounded.
- The diagnostics a failing worker sends, provider-specific response checks, prompts, reports, and the command line.
