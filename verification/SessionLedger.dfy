/** The session ledger: its rows, its UNIQUE columns and its guarded updates. */
module SessionLedger {
  import opened Options
  import opened AgentRecords
  import opened SessionOutcomes

  datatype Row =
    | Started
    | Waiting(outcome: SessionOutcome)
    | Resuming(outcome: SessionOutcome)
    | Sealed(outcome: SessionOutcome)

  type Rows = map<SessionPlan, Row>

  datatype SessionReply =
    | Created
    | Replay(outcome: SessionOutcome)
    | RecoveryRequired
    | KeyConflict
    | ObservationConflict

  datatype WriteReply = Written | NoSuchCheckpoint | ObservationReused

  /** `second_observation_id`: set by the write that stored the outcome. */
  function SecondObservation(o: SessionOutcome): Option<Observation> {
    if o.secondHandoff.Some? then o.secondHandoff.value.observation else None
  }

  /** The columns the SELECT of a claim looks at. */
  predicate Looks(p: SessionPlan, q: SessionPlan) {
    p.key == q.key || p.firstObservationId == q.firstObservationId
  }

  /** The columns the INSERT is refused over. */
  predicate Clash(p: SessionPlan, q: SessionPlan) {
    p != q && (Looks(p, q) || p.roundPlan == q.roundPlan)
  }

  predicate Seen(rows: Rows, plan: SessionPlan) {
    exists p :: p in rows.Keys && p != plan && Looks(p, plan)
  }

  predicate Clashes(rows: Rows, plan: SessionPlan) {
    exists p :: p in rows.Keys && Clash(p, plan)
  }

  predicate Reused(rows: Rows, o: SessionOutcome) {
    && SecondObservation(o).Some?
    && exists p :: p in rows.Keys && p != o.sessionId && !rows[p].Started?
                   && SecondObservation(rows[p].outcome) == SecondObservation(o)
  }

  /** The WHERE clause of the outcome write. */
  predicate Updates(rows: Rows, o: SessionOutcome, fromResuming: bool) {
    && o.sessionId in rows
    && o.firstObservationId == o.sessionId.firstObservationId
    && o.roundPlanId == o.sessionId.roundPlan && o.callSetId == o.sessionId.options
    && (rows[o.sessionId].Started? || (fromResuming && rows[o.sessionId].Resuming?))
  }

  /** What a resume demands of the stored outcome besides being the one it was given. */
  predicate AwaitsApproval(plan: SessionPlan, o: SessionOutcome) {
    && o.sessionId == plan && o.status.SessionApprovalRequired? && o.callSetId == plan.options
    && o.secondHandoff.Some? && o.secondHandoff.value.status.ApprovalRequired?
  }

  /** No two rows share a key, a first Observation, a round plan or a second Observation, and every
      stored outcome belongs to its row. */
  ghost predicate Sound(rows: Rows) {
    && (forall p, q :: p in rows && q in rows ==> !Clash(p, q))
    && (forall p :: p in rows && !rows[p].Started? ==> rows[p].outcome.sessionId == p)
    && (forall p :: p in rows && !rows[p].Started? ==> !Reused(rows, rows[p].outcome))
  }

  /** The transitions a row may make. */
  predicate Edge(before: Row, after: Row) {
    || before == after
    || (before.Started? && (after.Waiting? || after.Sealed?))
    || (before.Waiting? && after == Resuming(before.outcome))
    || (before.Resuming? && after.Sealed?)
  }

  /** The order those transitions make: a row never goes back. */
  predicate Advances(before: Row, after: Row) {
    || before == after
    || before.Started?
    || (before.Waiting? && !after.Started? && (after.Resuming? ==> after.outcome == before.outcome))
    || (before.Resuming? && after.Sealed?)
  }

  lemma InsertKeepsSound(rows: Rows, plan: SessionPlan)
    requires Sound(rows) && plan !in rows && !Clashes(rows, plan)
    ensures Sound(rows[plan := Started])
  {
  }

  lemma WriteKeepsSound(rows: Rows, o: SessionOutcome, row: Row)
    requires Sound(rows) && o.sessionId in rows && !Reused(rows, o)
    requires !row.Started? && row.outcome == o
    ensures Sound(rows[o.sessionId := row])
  {
  }

  lemma WaitingRowMayResume(rows: Rows, plan: SessionPlan)
    requires Sound(rows) && plan in rows && rows[plan].Waiting?
    ensures Sound(rows[plan := Resuming(rows[plan].outcome)])
  {
  }

  /** The outcome is for its session's row, names what that was made for, and has no other session's Observation. */
  predicate Storable(rows: Rows, o: SessionOutcome) {
    && o.sessionId in rows && o.firstObservationId == o.sessionId.firstObservationId
    && o.roundPlanId == o.sessionId.roundPlan && o.callSetId == o.sessionId.options
    && (o.secondHandoff != None && o.secondHandoff.value.observation != None ==>
          forall p :: p in rows && p != o.sessionId && !rows[p].Started? && rows[p].outcome.secondHandoff != None ==>
            rows[p].outcome.secondHandoff.value.observation != o.secondHandoff.value.observation)
  }

  lemma StorableExactlyWhen(rows: Rows, o: SessionOutcome)
    ensures o.sessionId in rows && (rows[o.sessionId].Started? || rows[o.sessionId].Resuming?) ==>
              (Storable(rows, o) <==> Updates(rows, o, true) && !Reused(rows, o))
    ensures Updates(rows, o, false) <==> Updates(rows, o, true) && rows[o.sessionId].Started?
    ensures Updates(rows, o, true) ==> o.sessionId in rows && (rows[o.sessionId].Started? || rows[o.sessionId].Resuming?)
  {
    var taken := exists p :: p in rows && p != o.sessionId && !rows[p].Started?
                             && SecondObservation(rows[p].outcome) == SecondObservation(o);
    assert Reused(rows, o) <==> (SecondObservation(o).Some? && taken);
  }

  class SessionStore {
    var rows: Rows

    ghost predicate Valid()
      reads this
    {
      Sound(rows)
    }

    constructor ()
      ensures Valid() && rows == map[]
    {
      rows := map[];
    }

    method Claim(plan: SessionPlan) returns (reply: SessionReply)
      requires Valid()
      modifies this
      ensures Valid()
      ensures reply.Created? <==> plan !in old(rows) && !Clashes(old(rows), plan)
      ensures reply.Created? <==>
                plan !in old(rows)
                && forall p :: p in old(rows) ==> p.key != plan.key && p.firstObservationId != plan.firstObservationId
                                                  && p.roundPlan != plan.roundPlan
      ensures rows == if reply.Created? then old(rows)[plan := Started] else old(rows)
      ensures reply.Replay? <==> plan in old(rows) && (old(rows)[plan].Waiting? || old(rows)[plan].Sealed?)
      ensures reply.Replay? ==> old(rows)[plan].outcome == reply.outcome
      ensures reply.RecoveryRequired? <==> plan in old(rows) && (old(rows)[plan].Started? || old(rows)[plan].Resuming?)
      ensures reply.KeyConflict? ==> exists p :: p in old(rows) && Clash(p, plan) && p.key == plan.key
      ensures reply.ObservationConflict? ==> exists p :: p in old(rows) && Clash(p, plan) && p.key != plan.key
    {
      if plan in rows {
        if rows[plan].Started? || rows[plan].Resuming? {
          return RecoveryRequired;
        }
        return Replay(rows[plan].outcome);
      }
      if Seen(rows, plan) {
        var existing :| existing in rows.Keys && existing != plan && Looks(existing, plan);
        assert Clash(existing, plan);
        return if existing.key == plan.key then KeyConflict else ObservationConflict;
      }
      if Clashes(rows, plan) {
        ghost var other :| other in rows.Keys && Clash(other, plan);
        return ObservationConflict;
      }
      InsertKeepsSound(rows, plan);
      rows := rows[plan := Started];
      return Created;
    }

    method ClaimResume(plan: SessionPlan, waiting: SessionOutcome) returns (reply: SessionReply)
      requires Valid()
      modifies this
      ensures Valid()
      ensures reply.Created? <==> plan in old(rows) && old(rows)[plan] == Waiting(waiting) && AwaitsApproval(plan, waiting)
      ensures reply.Created? <==>
                && plan in old(rows) && old(rows)[plan] == Waiting(waiting)
                && waiting.sessionId == plan && waiting.status == SessionApprovalRequired && waiting.callSetId == plan.options
                && waiting.secondHandoff != None && waiting.secondHandoff.value.status == ApprovalRequired
      ensures rows == if reply.Created? then old(rows)[plan := Resuming(waiting)] else old(rows)
      ensures reply.Replay? <==> plan in old(rows) && old(rows)[plan].Sealed?
      ensures reply.Replay? ==> old(rows)[plan].outcome == reply.outcome
      ensures reply.Created? || reply.Replay? || reply.RecoveryRequired?
    {
      if plan !in rows || rows[plan].Started? {
        return RecoveryRequired;
      }
      var stored := rows[plan].outcome;
      if rows[plan].Sealed? {
        return Replay(stored);
      }
      if !rows[plan].Waiting? || stored != waiting || !AwaitsApproval(plan, stored) {
        return RecoveryRequired;
      }
      WaitingRowMayResume(rows, plan);
      rows := rows[plan := Resuming(waiting)];
      return Created;
    }

    method PauseForApproval(o: SessionOutcome) returns (reply: WriteReply)
      requires Valid()
      modifies this
      ensures Valid()
      ensures reply.Written? <==> o.status.SessionApprovalRequired? && Updates(old(rows), o, false) && !Reused(old(rows), o)
      ensures rows == if reply.Written? then old(rows)[o.sessionId := Waiting(o)] else old(rows)
      ensures reply.Written? <==> o.status == SessionApprovalRequired && Storable(old(rows), o) && old(rows)[o.sessionId] == Started
    {
      StorableExactlyWhen(rows, o);
      if !o.status.SessionApprovalRequired? {
        return NoSuchCheckpoint;
      }
      reply := WriteOutcome(o, false, Waiting(o));
    }

    method Complete(o: SessionOutcome) returns (reply: WriteReply)
      requires Valid()
      modifies this
      ensures Valid()
      ensures reply.Written? <==> Updates(old(rows), o, true) && !Reused(old(rows), o)
      ensures rows == if reply.Written? then old(rows)[o.sessionId := Sealed(o)] else old(rows)
      ensures reply.Written? <==> Storable(old(rows), o) && (old(rows)[o.sessionId].Started? || old(rows)[o.sessionId].Resuming?)
    {
      StorableExactlyWhen(rows, o);
      reply := WriteOutcome(o, true, Sealed(o));
    }

    method WriteOutcome(o: SessionOutcome, fromResuming: bool, target: Row) returns (reply: WriteReply)
      requires Valid() && !target.Started? && target.outcome == o
      modifies this
      ensures Valid()
      ensures reply.NoSuchCheckpoint? <==> !Updates(old(rows), o, fromResuming)
      ensures reply.ObservationReused? <==> Updates(old(rows), o, fromResuming) && Reused(old(rows), o)
      ensures rows == if reply.Written? then old(rows)[o.sessionId := target] else old(rows)
    {
      if !Updates(rows, o, fromResuming) {
        return NoSuchCheckpoint;
      }
      if Reused(rows, o) {
        return ObservationReused;
      }
      WriteKeepsSound(rows, o, target);
      rows := rows[o.sessionId := target];
      return Written;
    }

    method RequireCompleted(plan: SessionPlan) returns (r: Option<SessionOutcome>)
      requires Valid()
      ensures r == if plan in rows && rows[plan].Sealed? then Some(rows[plan].outcome) else None
      ensures r.Some? ==> r.value.sessionId == plan
    {
      if plan in rows && rows[plan].Sealed? {
        return Some(rows[plan].outcome);
      }
      return None;
    }
  }
}
