/** The claim protocol the run, continuation and audit ledgers share: SELECT, then INSERT under
    UNIQUE columns, then the effect, then a conditional UPDATE, with other claimants in between. */
module ClaimProtocol {
  import opened Options

  datatype Checkpoint<+O> = Started | Done(outcome: O)

  /** What a claim tells its caller. */
  datatype ClaimReply<+O> =
    | Created
    | Replay(outcome: O)
    | RecoveryRequired
    | KeyConflict
    | ContentConflict

  /** Some other row already holds a value that has to be unique. */
  predicate Conflicts<P(==), O, U(==)>(columns: P -> set<U>, rows: map<P, Checkpoint<O>>, plan: P) {
    exists other :: other in rows.Keys && other != plan && columns(other) * columns(plan) != {}
  }

  lemma ConflictsAreShared<P, O, U>(columns: P -> set<U>, rows: map<P, Checkpoint<O>>, plan: P)
    ensures Conflicts(columns, rows, plan) <==> exists other :: other in rows && other != plan && !(columns(other) !! columns(plan))
  {
    forall other ensures columns(other) * columns(plan) == {} <==> columns(other) !! columns(plan) {
      assert columns(other) * columns(plan) == {} ==> forall c :: c in columns(other) && c in columns(plan) ==> c in columns(other) * columns(plan);
    }
    if other :| other in rows && other != plan && !(columns(other) !! columns(plan)) {
      assert other in rows.Keys;
    }
  }

  ghost predicate UniqueColumns<P, O, U>(columns: P -> set<U>, rows: map<P, Checkpoint<O>>) {
    forall p, q :: p in rows && q in rows && p != q ==> columns(p) * columns(q) == {}
  }

  /** A ledger of checkpoints, one row per plan. Plans are their own primary keys. */
  class CheckpointStore<P(==), O, U(==)> {
    const columns: P -> set<U>
    const key: P -> U
    const planOf: O -> P
    var rows: map<P, Checkpoint<O>>

    ghost predicate Valid()
      reads this
    {
      && UniqueColumns(columns, rows)
      && (forall p :: p in rows && rows[p].Done? ==> planOf(rows[p].outcome) == p)
    }

    constructor (columns: P -> set<U>, key: P -> U, planOf: O -> P)
      ensures Valid() && rows == map[]
      ensures this.columns == columns && this.key == key && this.planOf == planOf
    {
      this.columns, this.key, this.planOf := columns, key, planOf;
      rows := map[];
    }

    ghost predicate Blocks(rows: map<P, Checkpoint<O>>, other: P, plan: P) {
      other in rows && other != plan && columns(other) * columns(plan) != {}
    }

    /** Claims a plan once: the first claim creates its row, a later one replays or is turned away. */
    method Claim(plan: P) returns (reply: ClaimReply<O>)
      requires Valid()
      modifies this
      ensures Valid()
      ensures reply.Created? <==> plan !in old(rows) && !Conflicts(columns, old(rows), plan)
      ensures rows == if reply.Created? then old(rows)[plan := Started] else old(rows)
      ensures reply.Replay? <==> plan in old(rows) && old(rows)[plan].Done?
      ensures reply.Replay? ==> old(rows)[plan] == Done(reply.outcome)
      ensures reply.RecoveryRequired? <==> plan in old(rows) && old(rows)[plan].Started?
      ensures reply.KeyConflict? ==> exists other :: Blocks(old(rows), other, plan) && key(other) == key(plan)
      ensures reply.ContentConflict? ==> exists other :: Blocks(old(rows), other, plan) && key(other) != key(plan)
    {
      if plan in rows {
        match rows[plan] {
          case Started => return RecoveryRequired;
          case Done(outcome) => return Replay(outcome);
        }
      }
      if Conflicts(columns, rows, plan) {
        var other :| other in rows.Keys && other != plan && columns(other) * columns(plan) != {};
        assert Blocks(rows, other, plan);
        return if key(other) == key(plan) then KeyConflict else ContentConflict;
      }
      rows := rows[plan := Started];
      return Created;
    }

    /** Completes a started row; anything else is refused and changes nothing. */
    method Complete(outcome: O) returns (ok: bool)
      requires Valid()
      modifies this
      ensures Valid()
      ensures ok <==> planOf(outcome) in old(rows) && old(rows)[planOf(outcome)].Started?
      ensures rows == if ok then old(rows)[planOf(outcome) := Done(outcome)] else old(rows)
    {
      var plan := planOf(outcome);
      ok := plan in rows && rows[plan].Started?;
      if ok {
        rows := rows[plan := Done(outcome)];
      }
    }

    /** The authoritative outcome of a plan. */
    method RequireCompleted(plan: P) returns (r: Option<O>)
      requires Valid()
      ensures r == if plan in rows && rows[plan].Done? then Some(rows[plan].outcome) else None
      ensures r.Some? ==> planOf(r.value) == plan
    {
      if plan in rows && rows[plan].Done? {
        return Some(rows[plan].outcome);
      }
      return None;
    }
  }

  /******* Interleaved claimants *******/

  /** Where a claimant is: about to INSERT, refused by a UNIQUE column, holding the row it created, or gone. */
  datatype Claimant<+P> = Inserting(plan: P) | Refused(plan: P) | Owner(plan: P) | Gone

  /** `created` records who was told `created=True`, `effects` who then acted on it, and `replays` what
      was handed to everyone else. */
  datatype World<P(==), O(==)> = World(
    rows: map<P, Checkpoint<O>>, claimants: map<nat, Claimant<P>>,
    created: seq<(nat, P)>, effects: set<(nat, P)>, replays: set<(P, O)>)

  datatype Step<P, O> =
    /** SELECT first, as the continuation, session and audit ledgers do. */
    | Select(pid: nat, plan: P)
    /** INSERT without looking, as the run ledger does; a refused one then reads the row. */
    | Arrive(pid: nat, plan: P)
    | Insert(pid: nat)
    | Reread(pid: nat)
    | Effect(pid: nat)
    | Complete(pid: nat, outcome: O)
    | Crash(pid: nat)

  ghost function Put<P, O>(w: World<P, O>, pid: nat, c: Claimant<P>): World<P, O> {
    w.(claimants := w.claimants[pid := c])
  }

  /** A claimant that found its plan's row: a completed row is replayed, a started one turns it away. */
  ghost function Turn<P, O>(w: World<P, O>, pid: nat, plan: P): World<P, O> {
    if plan in w.rows && w.rows[plan].Done? then
      Put(w, pid, Gone).(replays := w.replays + {(plan, w.rows[plan].outcome)})
    else Put(w, pid, Gone)
  }

  /** One atomic step; a step that does not apply changes nothing. */
  ghost function Apply<P, O, U>(columns: P -> set<U>, w: World<P, O>, step: Step<P, O>): World<P, O> {
    match step
    case Select(pid, plan) =>
      if pid in w.claimants then w
      else if plan in w.rows || Conflicts(columns, w.rows, plan) then Turn(w, pid, plan)
      else Put(w, pid, Inserting(plan))
    case Arrive(pid, plan) =>
      if pid in w.claimants then w else Put(w, pid, Inserting(plan))
    case Insert(pid) =>
      if !(pid in w.claimants && w.claimants[pid].Inserting?) then w
      else
        var plan := w.claimants[pid].plan;
        if plan in w.rows || Conflicts(columns, w.rows, plan) then Put(w, pid, Refused(plan))
        else Put(w, pid, Owner(plan)).(rows := w.rows[plan := Started], created := w.created + [(pid, plan)])
    case Reread(pid) =>
      if pid in w.claimants && w.claimants[pid].Refused? then Turn(w, pid, w.claimants[pid].plan) else w
    case Effect(pid) =>
      if pid in w.claimants && w.claimants[pid].Owner? then
        w.(effects := w.effects + {(pid, w.claimants[pid].plan)})
      else w
    case Complete(pid, outcome) =>
      if pid in w.claimants && w.claimants[pid].Owner? then
        var plan := w.claimants[pid].plan;
        if plan in w.rows && w.rows[plan].Started? then
          Put(w, pid, Gone).(rows := w.rows[plan := Done(outcome)])
        else Put(w, pid, Gone)
      else w
    case Crash(pid) => if pid in w.claimants then Put(w, pid, Gone) else w
  }

  ghost function Run<P, O, U>(columns: P -> set<U>, w: World<P, O>, steps: seq<Step<P, O>>): World<P, O>
    decreases steps
  {
    if steps == [] then w else Run(columns, Apply(columns, w, steps[0]), steps[1..])
  }

  ghost function Fresh<P, O>(): World<P, O> {
    World(map[], map[], [], {}, {})
  }

  /** The claimant may hold a row it created; it is not still on its way there. */
  predicate Settled<P>(c: Claimant<P>) {
    c.Owner? || c.Gone?
  }

  ghost predicate Inv<P(!new), O(!new), U>(columns: P -> set<U>, w: World<P, O>) {
    && UniqueColumns(columns, w.rows)
    && (forall c :: c in w.created ==> c.1 in w.rows && c.0 in w.claimants && Settled(w.claimants[c.0]))
    && (forall i, j :: 0 <= i < j < |w.created| ==> w.created[i].1 != w.created[j].1)
    && (forall pid :: pid in w.claimants && w.claimants[pid].Owner? ==> (pid, w.claimants[pid].plan) in w.created)
    && (forall e :: e in w.effects ==> e in w.created)
    && (forall r :: r in w.replays ==> r.0 in w.rows && w.rows[r.0] == Done(r.1))
  }

  lemma InsertKeepsInv<P(!new), O(!new), U>(columns: P -> set<U>, w: World<P, O>, pid: nat)
    requires Inv(columns, w)
    ensures Inv(columns, Apply(columns, w, Insert(pid)))
  {
  }

  lemma CompleteKeepsInv<P(!new), O(!new), U>(columns: P -> set<U>, w: World<P, O>, pid: nat, outcome: O)
    requires Inv(columns, w)
    ensures Inv(columns, Apply(columns, w, Step<P, O>.Complete(pid, outcome)))
  {
  }

  lemma StepKeepsInv<P(!new), O(!new), U>(columns: P -> set<U>, w: World<P, O>, step: Step<P, O>)
    requires Inv(columns, w)
    ensures Inv(columns, Apply(columns, w, step))
  {
    hide UniqueColumns, Conflicts;
    if step.Insert? {
      InsertKeepsInv(columns, w, step.pid);
    } else if step.Complete? {
      CompleteKeepsInv(columns, w, step.pid, step.outcome);
    }
  }

  lemma {:induction false} RunKeepsInv<P(!new), O(!new), U>(columns: P -> set<U>, w: World<P, O>, steps: seq<Step<P, O>>)
    requires Inv(columns, w)
    ensures Inv(columns, Run(columns, w, steps))
    decreases steps
  {
    if steps != [] {
      StepKeepsInv(columns, w, steps[0]);
      RunKeepsInv(columns, Apply(columns, w, steps[0]), steps[1..]);
    }
  }

  /** At most once: under any interleaving and any crashes, a plan is claimed by one claimant only, two
      claimed plans share no unique column, and only a claimant ever acts. */
  lemma ClaimsAreExclusive<P(!new), O(!new), U(!new)>(columns: P -> set<U>, steps: seq<Step<P, O>>)
    ensures var w := Run(columns, Fresh(), steps);
            && (forall i, j :: 0 <= i < j < |w.created| ==>
                  w.created[i].1 != w.created[j].1 && columns(w.created[i].1) * columns(w.created[j].1) == {})
            && (forall e, e' :: e in w.effects && e' in w.effects && e.1 == e'.1 ==> e == e')
            && (forall e :: e in w.effects ==> e in w.created)
  {
    RunKeepsInv(columns, Fresh<P, O>(), steps);
  }

  /** Every replay of a plan hands out one outcome, and it is the one in the row. */
  lemma ReplaysAgree<P(!new), O(!new), U(!new)>(columns: P -> set<U>, steps: seq<Step<P, O>>, plan: P, first: O, second: O)
    ensures var w := Run(columns, Fresh(), steps);
            (plan, first) in w.replays && (plan, second) in w.replays ==>
              plan in w.rows && w.rows[plan] == Done(first) && first == second
  {
    RunKeepsInv(columns, Fresh<P, O>(), steps);
  }

  /** Rows are never deleted and completed rows never change. */
  ghost predicate RowsPersist<P, O>(before: map<P, Checkpoint<O>>, after: map<P, Checkpoint<O>>) {
    forall p :: p in before ==> p in after && (before[p].Done? ==> after[p] == before[p])
  }

  lemma {:induction false} CompletedRowsNeverChange<P(!new), O(!new), U(!new)>(
      columns: P -> set<U>, w: World<P, O>, steps: seq<Step<P, O>>)
    ensures RowsPersist(w.rows, Run(columns, w, steps).rows)
    decreases steps
  {
    if steps != [] {
      CompletedRowsNeverChange(columns, Apply(columns, w, steps[0]), steps[1..]);
    }
  }

  ghost predicate Abandoned<P, O>(w: World<P, O>, plan: P) {
    && plan in w.rows && w.rows[plan].Started?
    && (forall pid :: pid in w.claimants ==> w.claimants[pid] != Owner(plan))
  }

  /** A claimant that crashed before completing leaves its row started for good: nobody can take the
      work over, and every later claim is told that recovery is required. */
  lemma {:induction false} AbandonedStaysStarted<P(!new), O(!new), U(!new)>(
      columns: P -> set<U>, w: World<P, O>, steps: seq<Step<P, O>>, plan: P)
    requires Abandoned(w, plan)
    ensures Abandoned(Run(columns, w, steps), plan)
    decreases steps
  {
    if steps != [] {
      AbandonedStaysStarted(columns, Apply(columns, w, steps[0]), steps[1..], plan);
    }
  }

  lemma RunUnfolds<P(!new), O(!new), U(!new)>(columns: P -> set<U>, w: World<P, O>, step: Step<P, O>, rest: seq<Step<P, O>>)
    ensures Run(columns, w, [step] + rest) == Run(columns, Apply(columns, w, step), rest)
  {
    assert ([step] + rest)[1..] == rest;
  }

  /** A claimant with nobody in between claims, acts and completes exactly what is new and shares no column; what
      is completed is replayed to it; and otherwise nothing changes. */
  lemma ClaimAlone<P(!new), O(!new), U(!new)>(columns: P -> set<U>, w: World<P, O>, pid: nat, plan: P, outcome: O)
    requires pid !in w.claimants
    ensures var after := Run(columns, w, [Select(pid, plan), Insert(pid), Effect(pid), Complete(pid, outcome)]);
            if plan in w.rows then
              && after.rows == w.rows && after.created == w.created && after.effects == w.effects
              && after.replays == w.replays + if w.rows[plan].Done? then {(plan, w.rows[plan].outcome)} else {}
            else if forall other :: other in w.rows ==> columns(other) !! columns(plan) then
              && after.rows == w.rows[plan := Done(outcome)] && after.created == w.created + [(pid, plan)]
              && after.effects == w.effects + {(pid, plan)} && after.replays == w.replays
            else after.(claimants := w.claimants) == w
  {
    hide Run, Apply;
    var s0, s1 := Step<P, O>.Select(pid, plan), Step<P, O>.Insert(pid);
    var s2, s3 := Step<P, O>.Effect(pid), Step<P, O>.Complete(pid, outcome);
    var w1 := Apply(columns, w, s0);
    var w2 := Apply(columns, w1, s1);
    var w3 := Apply(columns, w2, s2);
    var w4 := Apply(columns, w3, s3);
    RunsOfFour(columns, w, s0, s1, s2, s3);
    FirstTwoAlone(columns, w, pid, plan);
    LastTwoAlone(columns, w2, pid, plan, outcome);
  }

  lemma RunsOfFour<P(!new), O(!new), U(!new)>(columns: P -> set<U>, w: World<P, O>, s0: Step<P, O>, s1: Step<P, O>,
                                              s2: Step<P, O>, s3: Step<P, O>)
    ensures Run(columns, w, [s0, s1, s2, s3])
         == Apply(columns, Apply(columns, Apply(columns, Apply(columns, w, s0), s1), s2), s3)
  {
    hide Apply;
    var w1 := Apply(columns, w, s0);
    var w2 := Apply(columns, w1, s1);
    var w3 := Apply(columns, w2, s2);
    RunUnfolds(columns, w, s0, [s1, s2, s3]);
    RunUnfolds(columns, w1, s1, [s2, s3]);
    RunUnfolds(columns, w2, s2, [s3]);
    RunUnfolds(columns, w3, s3, []);
    assert [s0] + [s1, s2, s3] == [s0, s1, s2, s3] && [s1] + [s2, s3] == [s1, s2, s3] && [s2] + [s3] == [s2, s3];
    assert [s3] + [] == [s3];
  }

  lemma FirstTwoAlone<P(!new), O(!new), U(!new)>(columns: P -> set<U>, w: World<P, O>, pid: nat, plan: P)
    requires pid !in w.claimants
    ensures var after := Apply(columns, Apply(columns, w, Select(pid, plan)), Insert(pid));
            if plan in w.rows then
              after == w.(claimants := w.claimants[pid := Gone],
                          replays := w.replays + if w.rows[plan].Done? then {(plan, w.rows[plan].outcome)} else {})
            else if forall other :: other in w.rows ==> columns(other) !! columns(plan) then
              after == w.(claimants := w.claimants[pid := Owner(plan)], rows := w.rows[plan := Started],
                          created := w.created + [(pid, plan)])
            else after == w.(claimants := w.claimants[pid := Gone])
  {
    ConflictsAreShared(columns, w.rows, plan);
    assert w.replays + {} == w.replays;
  }

  lemma LastTwoAlone<P(!new), O(!new), U(!new)>(columns: P -> set<U>, w: World<P, O>, pid: nat, plan: P, outcome: O)
    requires pid in w.claimants && (w.claimants[pid] == Gone || (w.claimants[pid] == Owner(plan) && plan in w.rows && w.rows[plan] == Started))
    ensures var after := Apply(columns, Apply(columns, w, Effect(pid)), Complete(pid, outcome));
            if w.claimants[pid] == Gone then after == w
            else after == w.(claimants := w.claimants[pid := Gone], rows := w.rows[plan := Done(outcome)],
                             effects := w.effects + {(pid, plan)})
  {
  }

  /** The same without a SELECT: the INSERT finds out, and a refused one reads the row. */
  lemma ArrivalAlone<P(!new), O(!new), U(!new)>(columns: P -> set<U>, w: World<P, O>, pid: nat, plan: P)
    requires pid !in w.claimants
    ensures var inserted := Apply(columns, Apply(columns, w, Step<P, O>.Arrive(pid, plan)), Insert(pid));
            var after := Apply(columns, inserted, Reread(pid));
            if plan !in w.rows && forall other :: other in w.rows ==> columns(other) !! columns(plan) then
              && inserted.rows == w.rows[plan := Started] && inserted.created == w.created + [(pid, plan)]
              && inserted.claimants == w.claimants[pid := Owner(plan)] && after == inserted
            else
              && after.rows == w.rows && after.created == w.created && after.claimants == w.claimants[pid := Gone]
              && after.replays == w.replays
                   + if plan in w.rows && w.rows[plan].Done? then {(plan, w.rows[plan].outcome)} else {}
  {
    ConflictsAreShared(columns, w.rows, plan);
    assert w.replays + {} == w.replays;
  }

  /** A claimant that has crashed is gone, and leaves everything else as it was. */
  lemma CrashedIsGone<P(!new), O(!new), U(!new)>(columns: P -> set<U>, w: World<P, O>, pid: nat, step: Step<P, O>)
    requires pid in w.claimants
    ensures var after := Apply(columns, w, Step<P, O>.Crash(pid));
            && after == w.(claimants := w.claimants[pid := Gone])
            && (step.pid == pid ==> Apply(columns, after, step) == after)
  {
  }
}
