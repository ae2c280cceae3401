/** The ledger of Agent-to-Broker handoffs and its two-attempt rule. */
module HandoffLedger {
  import opened Options
  import opened AgentRecords
  import opened ClaimProtocol
  import opened FiniteSets

  type Rows = map<HandoffPlan, Checkpoint<HandoffOutcome>>

  /** The attempts already recorded for one Agent outcome. */
  function Prior(rows: Rows, digest: RunOutcome): set<HandoffPlan> {
    set h | h in rows.Keys && h.agentOutcomeDigest == digest
  }

  predicate EndedAs(rows: Rows, h: HandoffPlan, status: BrokerStatus) {
    h in rows && rows[h].Done? && rows[h].outcome.status == status
  }

  predicate KeyTaken(rows: Rows, plan: HandoffPlan) {
    exists other :: other in rows.Keys && other != plan && other.key == plan.key
  }

  /** The retry rule: nothing before a first attempt, and before a second only the first it names,
      ended because it needed Approval. */
  predicate MayAttempt(rows: Rows, plan: HandoffPlan) {
    var prior := Prior(rows, plan.agentOutcomeDigest);
    if plan.attempt == 1 then prior == {}
    else
      && |prior| == 1
      && plan.previous.Some? && plan.previous.value in prior
      && plan.previous.value.attempt == 1
      && EndedAs(rows, plan.previous.value, ApprovalRequired)
  }

  /** The INSERT's own constraints. */
  predicate Insertable(rows: Rows, plan: HandoffPlan) {
    plan !in rows && !KeyTaken(rows, plan)
  }

  predicate Admits(rows: Rows, plan: HandoffPlan) {
    Insertable(rows, plan) && MayAttempt(rows, plan)
  }

  /** What every reachable ledger satisfies, whatever comes between a claim's SELECTs and its INSERT. */
  ghost predicate Shaped(rows: Rows) {
    && (forall g, h :: g in rows && h in rows && g.key == h.key ==> g == h)
    && (forall h :: h in rows ==> Offered(rows, h))
  }

  ghost predicate Offered(rows: Rows, h: HandoffPlan) {
    h.WellShaped() && (h.attempt == 2 ==> NamesItsFirst(rows, h))
  }

  /** A second attempt stands beside the first attempt it names, which ended needing Approval. */
  ghost predicate NamesItsFirst(rows: Rows, h: HandoffPlan) {
    && h.previous.Some? && h.previous.value.attempt == 1
    && h.previous.value.agentOutcomeDigest == h.agentOutcomeDigest
    && EndedAs(rows, h.previous.value, ApprovalRequired)
  }

  ghost predicate OnePerAttempt(rows: Rows) {
    forall g, h :: g in rows && h in rows && g.agentOutcomeDigest == h.agentOutcomeDigest && g.attempt == h.attempt ==> g == h
  }

  /** What a ledger satisfies if nothing came between. */
  ghost predicate Sound(rows: Rows) {
    Shaped(rows) && OnePerAttempt(rows)
  }

  lemma AdmittedIsOffered(rows: Rows, plan: HandoffPlan)
    requires plan.WellShaped() && Admits(rows, plan)
    ensures Offered(rows, plan)
  {
  }

  lemma OffersPersist(rows: Rows, rows': Rows, plan: HandoffPlan)
    requires Offered(rows, plan) && RowsPersist(rows, rows')
    ensures Offered(rows', plan)
  {
    hide HandoffPlan.WellShaped;
  }

  lemma InsertKeepsShaped(rows: Rows, plan: HandoffPlan)
    requires Shaped(rows) && Offered(rows, plan) && Insertable(rows, plan)
    ensures Shaped(rows[plan := Started])
  {
    hide HandoffPlan.WellShaped, Offered;
    var after := rows[plan := Checkpoint<HandoffOutcome>.Started];
    forall h | h in after ensures Offered(after, h) {
      OffersPersist(rows, after, h);
    }
  }

  lemma CompletingKeepsShaped(rows: Rows, o: HandoffOutcome)
    requires Shaped(rows) && o.handoffId in rows && rows[o.handoffId].Started?
    ensures Shaped(rows[o.handoffId := Done(o)])
  {
    hide HandoffPlan.WellShaped, Offered;
    var after := rows[o.handoffId := Done(o)];
    forall h | h in after ensures Offered(after, h) {
      OffersPersist(rows, after, h);
    }
  }

  lemma AdmittingKeepsSound(rows: Rows, plan: HandoffPlan)
    requires Sound(rows) && plan.WellShaped() && Admits(rows, plan)
    ensures Sound(rows[plan := Started])
  {
    hide HandoffPlan.WellShaped;
    AdmittedIsOffered(rows, plan);
    InsertKeepsShaped(rows, plan);
    var prior := Prior(rows, plan.agentOutcomeDigest);
    forall h | h in rows && h.agentOutcomeDigest == plan.agentOutcomeDigest ensures h.attempt != plan.attempt {
      assert h in prior;
      if plan.attempt != 1 {
        SoleMember(prior, h, plan.previous.value);
        assert Offered(rows, plan);
      }
    }
  }

  /** A claim whose SELECTs are some time ago breaks the two-attempt rule exactly if the rule no longer admits it
      when its INSERT comes. */
  lemma InsertKeepsSoundExactlyWhen(rows: Rows, plan: HandoffPlan)
    requires Sound(rows) && Offered(rows, plan) && Insertable(rows, plan)
    ensures Sound(rows[plan := Started]) <==> MayAttempt(rows, plan)
  {
    hide Shaped;
    var after := rows[plan := Checkpoint<HandoffOutcome>.Started];
    var prior := Prior(rows, plan.agentOutcomeDigest);
    if MayAttempt(rows, plan) {
      AdmittingKeepsSound(rows, plan);
    } else if plan.attempt == 1 {
      var h :| h in prior;
      FirstIsThere(rows, h);
    } else if OnePerAttempt(after) {
      SecondIsAdmitted(rows, plan);
    }
  }

  /** Where there is a handoff, there is its first attempt. */
  lemma FirstIsThere(rows: Rows, h: HandoffPlan)
    requires Shaped(rows) && h in rows
    ensures exists g :: g in rows && g.agentOutcomeDigest == h.agentOutcomeDigest && g.attempt == 1
  {
    assert Offered(rows, h);
    assert h.attempt == 2 ==> h.previous.value in rows;
  }

  /** A second attempt that would be the only one beside its first is one the rule admits. */
  lemma SecondIsAdmitted(rows: Rows, plan: HandoffPlan)
    requires Sound(rows) && Offered(rows, plan) && plan.attempt == 2 && plan !in rows
    requires OnePerAttempt(rows[plan := Started])
    ensures MayAttempt(rows, plan)
  {
    var first := plan.previous.value;
    forall h | h in Prior(rows, plan.agentOutcomeDigest) ensures h == first {
      assert Offered(rows, h);
      assert h in rows[plan := Checkpoint<HandoffOutcome>.Started];
    }
    assert Prior(rows, plan.agentOutcomeDigest) == {first};
  }

  lemma CompletingKeepsSound(rows: Rows, o: HandoffOutcome)
    requires Sound(rows) && o.handoffId in rows && rows[o.handoffId].Started?
    ensures Sound(rows[o.handoffId := Done(o)])
  {
    hide Shaped;
    CompletingKeepsShaped(rows, o);
  }

  /** Rows are never deleted, so an attempt that was taken twice stays so. */
  lemma TakenTwiceStays(rows: Rows, rows': Rows)
    requires RowsPersist(rows, rows') && OnePerAttempt(rows')
    ensures OnePerAttempt(rows)
  {
  }

  lemma FirstOfSecond(rows: Rows, g: HandoffPlan, h: HandoffPlan)
    requires Sound(rows) && g in rows && h in rows && g.agentOutcomeDigest == h.agentOutcomeDigest
    requires g.attempt == 1 && h.attempt == 2
    ensures EndedAs(rows, g, ApprovalRequired)
  {
    assert Offered(rows, h);
    assert g == h.previous.value;
  }

  lemma AttemptsAreOneOrTwo(rows: Rows, h: HandoffPlan)
    requires Sound(rows) && h in rows
    ensures h.attempt == 1 || h.attempt == 2
  {
    assert Offered(rows, h);
  }

  lemma SameAttempt(rows: Rows, g: HandoffPlan, h: HandoffPlan)
    requires Sound(rows) && g in rows && h in rows
    requires g.agentOutcomeDigest == h.agentOutcomeDigest && g.attempt == h.attempt
    ensures g == h
  {
  }

  /** No Agent outcome has more than two attempts, and no more than one of them ever completes. */
  lemma AttemptsAreBounded(rows: Rows, digest: RunOutcome)
    requires Sound(rows)
    ensures |Prior(rows, digest)| <= 2
    ensures forall g, h | g in Prior(rows, digest) && h in Prior(rows, digest) ::
              EndedAs(rows, g, Completed) && EndedAs(rows, h, Completed) ==> g == h
  {
    hide Sound, HandoffPlan.WellShaped;
    var prior := Prior(rows, digest);
    forall h | h in prior ensures h.attempt == 1 || h.attempt == 2 {
      AttemptsAreOneOrTwo(rows, h);
    }
    forall g, h | g in prior && h in prior && g.attempt == h.attempt ensures g == h {
      SameAttempt(rows, g, h);
    }
    forall g, h | g in prior && h in prior && g.attempt == 1 && h.attempt == 2 ensures EndedAs(rows, g, ApprovalRequired) {
      FirstOfSecond(rows, g, h);
    }
    AtMostTwo(prior, (h: HandoffPlan) => h.attempt);
  }

  /** The rule row by row: a first attempt is the first row of its Agent outcome, a second one comes after just
      the first it names. */
  lemma AdmitsExactlyWhen(rows: Rows, plan: HandoffPlan)
    requires plan.WellShaped()
    ensures Admits(rows, plan) <==>
      && plan !in rows && (forall other :: other in rows ==> other.key != plan.key)
      && if plan.attempt == 1 then forall other :: other in rows ==> other.agentOutcomeDigest != plan.agentOutcomeDigest
         else
           && plan.previous != None && EndedAs(rows, plan.previous.value, ApprovalRequired) && plan.previous.value.attempt == 1
           && forall other :: other in rows ==>
                (other.agentOutcomeDigest == plan.agentOutcomeDigest <==> other == plan.previous.value)
  {
    var prior := Prior(rows, plan.agentOutcomeDigest);
    assert KeyTaken(rows, plan) <==> exists other :: other in rows && other != plan && other.key == plan.key;
    assert prior == {} <==> forall other :: other in rows ==> other.agentOutcomeDigest != plan.agentOutcomeDigest by {
      assert forall other :: other in rows && other.agentOutcomeDigest == plan.agentOutcomeDigest <==> other in prior;
    }
    if plan.attempt != 1 && plan.previous.Some? && plan.previous.value in rows {
      var first := plan.previous.value;
      if |prior| == 1 && first in prior {
        forall other | other in prior ensures other == first {
          SoleMember(prior, other, first);
        }
        assert forall other :: other in rows && other.agentOutcomeDigest == plan.agentOutcomeDigest ==> other in prior;
      }
      if forall other :: other in rows ==> (other.agentOutcomeDigest == plan.agentOutcomeDigest <==> other == first) {
        assert prior == {first};
      }
    }
  }

  class HandoffStore {
    var rows: Rows

    ghost predicate Valid()
      reads this
    {
      && Sound(rows)
      && (forall h :: h in rows && rows[h].Done? ==> rows[h].outcome.handoffId == h)
    }

    constructor ()
      ensures Valid() && rows == map[]
    {
      rows := map[];
    }

    /** A claim with nobody else between its SELECTs and its INSERT. ContentConflict is a retry the rule does not allow. */
    method Claim(plan: HandoffPlan) returns (reply: ClaimReply<HandoffOutcome>)
      requires Valid() && plan.WellShaped()
      modifies this
      ensures Valid()
      ensures reply.Created? <==> Admits(old(rows), plan)
      ensures reply.Created? <==>
                && plan !in old(rows) && (forall other :: other in old(rows) ==> other.key != plan.key)
                && if plan.attempt == 1 then
                     forall other :: other in old(rows) ==> other.agentOutcomeDigest != plan.agentOutcomeDigest
                   else
                     && plan.previous != None && EndedAs(old(rows), plan.previous.value, ApprovalRequired)
                     && plan.previous.value.attempt == 1
                     && forall other :: other in old(rows) ==>
                          (other.agentOutcomeDigest == plan.agentOutcomeDigest <==> other == plan.previous.value)
      ensures rows == if reply.Created? then old(rows)[plan := Started] else old(rows)
      ensures reply.Replay? <==> plan in old(rows) && old(rows)[plan].Done?
      ensures reply.Replay? ==> old(rows)[plan] == Done(reply.outcome)
      ensures reply.RecoveryRequired? <==> plan in old(rows) && old(rows)[plan].Started?
      ensures reply.KeyConflict? <==> plan !in old(rows) && KeyTaken(old(rows), plan)
    {
      AdmitsExactlyWhen(rows, plan);
      if plan in rows {
        match rows[plan] {
          case Started => return RecoveryRequired;
          case Done(outcome) => return Replay(outcome);
        }
      }
      if KeyTaken(rows, plan) {
        return KeyConflict;
      }
      var prior := Prior(rows, plan.agentOutcomeDigest);
      if plan.attempt == 1 {
        if prior != {} {
          return ContentConflict;
        }
      } else {
        if |prior| != 1 {
          return ContentConflict;
        }
        var first :| first in prior;
        assert plan.previous.Some? && plan.previous.value in prior ==> first == plan.previous.value by {
          if plan.previous.Some? && plan.previous.value in prior {
            SoleMember(prior, first, plan.previous.value);
          }
        }
        if !rows[first].Done? || rows[first].outcome.status != ApprovalRequired || first.attempt != 1
           || plan.previous != Some(first) {
          return ContentConflict;
        }
      }
      AdmittingKeepsSound(rows, plan);
      rows := rows[plan := Started];
      return Created;
    }

    method Complete(o: HandoffOutcome) returns (ok: bool)
      requires Valid()
      modifies this
      ensures Valid()
      ensures ok <==> && o.handoffId in old(rows) && old(rows)[o.handoffId].Started?
                      && o.agentOutcomeDigest == o.handoffId.agentOutcomeDigest && o.attempt == o.handoffId.attempt
      ensures rows == if ok then old(rows)[o.handoffId := Done(o)] else old(rows)
    {
      ok := && o.handoffId in rows && rows[o.handoffId].Started?
            && o.agentOutcomeDigest == o.handoffId.agentOutcomeDigest && o.attempt == o.handoffId.attempt;
      if ok {
        CompletingKeepsSound(rows, o);
        rows := rows[o.handoffId := Done(o)];
      }
    }

    method RequireCompleted(h: HandoffPlan) returns (r: Option<HandoffOutcome>)
      requires Valid()
      ensures r == if h in rows && rows[h].Done? then Some(rows[h].outcome) else None
      ensures r.Some? ==> r.value.handoffId == h
    {
      if h in rows && rows[h].Done? {
        return Some(rows[h].outcome);
      }
      return None;
    }
  }
}
