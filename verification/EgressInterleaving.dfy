/** Issuers, revokers and readers of egress grants, interleaved one statement at a time. */
module EgressInterleaving {
  import opened ProviderEgress

  datatype Client =
    | Issuing(grant: Grant)
    /** The SELECT on revocations found none. */
    | NoneFound(revocation: Revocation)
    /** The SELECT on issuances found the grant active. */
    | FoundActive(revocation: Revocation)
    | Revoking(revocation: Revocation)
    /** Between its two reads; `first` is what the ledger held at the first. */
    | Reading(grant: Grant, now: Time, first: Ledger)
    | Answered(grant: Grant, now: Time, first: Ledger, second: Ledger, status: Status)
    | Quit

  datatype World = World(l: Ledger, clients: map<nat, Client>)

  datatype Step =
    | InsertIssuance(pid: nat, grant: Grant)
    | FinishIssue(pid: nat)
    | LookForRevocation(pid: nat, revocation: Revocation)
    | LookAtIssuance(pid: nat)
    | InsertRevocation(pid: nat)
    | FinishRevoke(pid: nat)
    | FirstRead(pid: nat, grant: Grant, now: Time)
    | SecondRead(pid: nat)
    | Crash(pid: nat)

  ghost function Put(w: World, pid: nat, c: Client): World {
    w.(clients := w.clients[pid := c])
  }

  ghost function Next(w: World, step: Step): World {
    var l := w.l;
    match step
    case InsertIssuance(pid, g) =>
      if pid in w.clients then w
      else if g in l.issuances || IssueKeyTaken(l, g) then Put(w, pid, Quit)
      else Put(w, pid, Issuing(g)).(l := AfterIssueClaim(l, g))
    case FinishIssue(pid) =>
      if !(pid in w.clients && w.clients[pid].Issuing?) then w
      else
        var g := w.clients[pid].grant;
        if g in l.issuances && l.issuances[g].Pending? then Put(w, pid, Quit).(l := AfterIssue(l, g)) else Put(w, pid, Quit)
    case LookForRevocation(pid, r) =>
      if pid in w.clients then w
      else Put(w, pid, if r in l.revocations || RevocationTaken(l, r) then Quit else NoneFound(r))
    case LookAtIssuance(pid) =>
      if !(pid in w.clients && w.clients[pid].NoneFound?) then w
      else
        var r := w.clients[pid].revocation;
        Put(w, pid, if IsActive(l, r.grant) then FoundActive(r) else Quit)
    case InsertRevocation(pid) =>
      if !(pid in w.clients && w.clients[pid].FoundActive?) then w
      else
        var r := w.clients[pid].revocation;
        if r in l.revocations || RevocationTaken(l, r) then Put(w, pid, Quit)
        else Put(w, pid, Revoking(r)).(l := AfterRevokeClaim(l, r))
    case FinishRevoke(pid) =>
      if !(pid in w.clients && w.clients[pid].Revoking?) then w
      else
        var r := w.clients[pid].revocation;
        if r in l.revocations && l.revocations[r].Started? && IsActive(l, r.grant) then
          Put(w, pid, Quit).(l := AfterRevoke(l, r))
        else Put(w, pid, Quit)
    case FirstRead(pid, g, now) => if pid in w.clients then w else Put(w, pid, Reading(g, now, l))
    case SecondRead(pid) =>
      if !(pid in w.clients && w.clients[pid].Reading?) then w
      else
        var c := w.clients[pid];
        Put(w, pid, Answered(c.grant, c.now, c.first, l,
                             Conclude(RowOf(c.first, c.grant), RevocationPending(l, c.grant), c.grant, c.now)))
    case Crash(pid) => if pid in w.clients then Put(w, pid, Quit) else w
  }

  ghost function Run(w: World, steps: seq<Step>): World
    decreases steps
  {
    if steps == [] then w else Run(Next(w, steps[0]), steps[1..])
  }

  ghost function Reached(steps: seq<Step>): World {
    Run(World(Ledger(map[], map[]), map[]), steps)
  }

  predicate Forward(before: Issuance, after: Issuance) {
    before == after || before.Pending? || after.Revoked?
  }

  /** Rows are never deleted and only move forward. */
  ghost predicate Later(l: Ledger, l': Ledger) {
    && (forall g :: g in l.issuances ==> g in l'.issuances && Forward(l.issuances[g], l'.issuances[g]))
    && (forall r :: r in l.revocations ==> r in l'.revocations && (l.revocations[r].Completed? ==> l'.revocations[r].Completed?))
  }

  ghost predicate ClientOk(l: Ledger, c: Client) {
    match c
    case FoundActive(r) => r.grant in l.issuances && !l.issuances[r.grant].Pending?
    case Reading(_, _, first) => Sound(first) && Later(first, l)
    case Answered(g, now, first, second, status) =>
      && Sound(first) && Sound(second) && Later(first, second)
      && status == Conclude(RowOf(first, g), RevocationPending(second, g), g, now)
    case _ => true
  }

  ghost predicate Inv(w: World) {
    Sound(w.l) && forall pid :: pid in w.clients ==> ClientOk(w.l, w.clients[pid])
  }

  /** A revoker that saw the grant active and now finds no revocation of it still has an active grant. */
  lemma StillActive(l: Ledger, r: Revocation)
    requires Sound(l) && ClientOk(l, FoundActive(r)) && r !in l.revocations && !RevocationTaken(l, r)
    ensures IsActive(l, r.grant)
  {
    assert l.issuances[r.grant].Revoked? ==> HasRevocation(l, r.grant);
  }

  lemma LedgerStep(w: World, step: Step)
    requires Inv(w)
    ensures Sound(Next(w, step).l) && Later(w.l, Next(w, step).l)
  {
    hide Sound, RevocationTaken, IssueKeyTaken;
    if step.InsertIssuance? && Next(w, step).l != w.l {
      IssueClaimKeepsSound(w.l, step.grant);
    } else if step.FinishIssue? && Next(w, step).l != w.l {
      IssueKeepsSound(w.l, w.clients[step.pid].grant);
    } else if step.InsertRevocation? && Next(w, step).l != w.l {
      StillActive(w.l, w.clients[step.pid].revocation);
      RevokeClaimKeepsSound(w.l, w.clients[step.pid].revocation);
    } else if step.FinishRevoke? && Next(w, step).l != w.l {
      RevokeKeepsSound(w.l, w.clients[step.pid].revocation);
    }
  }

  lemma StepKeepsInv(w: World, step: Step)
    requires Inv(w)
    ensures Inv(Next(w, step))
  {
    hide Sound, RevocationTaken, IssueKeyTaken, RevocationPending;
    LedgerStep(w, step);
  }

  lemma {:induction false} RunKeepsInv(w: World, steps: seq<Step>)
    requires Inv(w)
    ensures Inv(Run(w, steps)) && Later(w.l, Run(w, steps).l)
    decreases steps
  {
    if steps != [] {
      LedgerStep(w, steps[0]);
      StepKeepsInv(w, steps[0]);
      RunKeepsInv(Next(w, steps[0]), steps[1..]);
    }
  }

  /** In every reachable state a grant has at most one revocation row, and that row is completed exactly
      when the grant's issuance is revoked. */
  lemma LifecycleIsSound(steps: seq<Step>, r: Revocation)
    requires r in Reached(steps).l.revocations
    ensures var l := Reached(steps).l;
            && (forall s :: s in l.revocations && s.grant == r.grant ==> s == r)
            && r.grant in l.issuances
            && (l.revocations[r].Completed? <==> l.issuances[r.grant].Revoked?)
  {
    RunKeepsInv(World(Ledger(map[], map[]), map[]), steps);
  }

  /** A completed revocation is never undone. */
  lemma RevocationIsFinal(steps: seq<Step>, more: seq<Step>, g: Grant)
    requires var l := Reached(steps).l; g in l.issuances && l.issuances[g].Revoked?
    ensures var l := Run(Reached(steps), more).l; g in l.issuances && l.issuances[g].Revoked?
  {
    RunKeepsInv(World(Ledger(map[], map[]), map[]), steps);
    RunKeepsInv(Reached(steps), more);
  }

  /** With its two reads apart, a reader answers ACTIVE exactly if the grant was active at the first read, no
      revocation was under way at the second, and the grant is within its lifetime. In particular a read
      begun after a revocation completed never answers ACTIVE. */
  lemma ActiveAnswers(steps: seq<Step>, pid: nat)
    requires pid in Reached(steps).clients && Reached(steps).clients[pid].Answered?
    ensures var c := Reached(steps).clients[pid];
            && (c.status.StatusActive? <==>
                  IsActive(c.first, c.grant) && !RevocationPending(c.second, c.grant) && c.grant.Live(c.now))
            && (c.status.StatusActive? ==>
                  forall r :: r in c.first.revocations && r.grant == c.grant ==> c.first.revocations[r].Started?)
  {
    RunKeepsInv(World(Ledger(map[], map[]), map[]), steps);
    var c := Reached(steps).clients[pid];
    assert ClientOk(Reached(steps).l, c);
  }

  /** An ACTIVE answer is out of date, against what one read of both tables at its end would say, exactly
      when a revocation of the live grant was completed between the two reads. */
  lemma StaleExactlyWhen(steps: seq<Step>, pid: nat)
    requires pid in Reached(steps).clients && Reached(steps).clients[pid].Answered?
    ensures var c := Reached(steps).clients[pid];
            c.status.StatusActive? && !StatusOf(c.second, c.grant, c.now).StatusActive? <==>
              && c.grant.Live(c.now) && IsActive(c.first, c.grant)
              && c.grant in c.second.issuances && c.second.issuances[c.grant].Revoked?
  {
    RunKeepsInv(World(Ledger(map[], map[]), map[]), steps);
    var c := Reached(steps).clients[pid];
    assert ClientOk(Reached(steps).l, c);
    AtomicStatus(c.second, c.grant, c.now);
  }

  /** And such a run exists: read, revoke, read. */
  lemma StaleAnswersHappen(g: Grant, r: Revocation, now: Time)
    requires r.grant == g && g.Live(now)
    ensures var steps := [InsertIssuance(0, g), FinishIssue(0), FirstRead(1, g, now), LookForRevocation(2, r),
                          LookAtIssuance(2), InsertRevocation(2), FinishRevoke(2), SecondRead(1)];
            var c := Reached(steps).clients;
            1 in c && c[1].Answered? && c[1].status.StatusActive? && c[1].second.issuances == map[g := Revoked]
  {
    hide Next, Run;
    var w0 := World(Ledger(map[], map[]), map[]);
    var w3 := World(Ledger(map[g := Active], map[]), map[0 := Quit, 1 := Reading(g, now, Ledger(map[g := Active], map[]))]);
    var w7 := World(Ledger(map[g := Revoked], map[r := Completed]), w3.clients[2 := Quit]);
    var issue := [InsertIssuance(0, g), FinishIssue(0), FirstRead(1, g, now)];
    var revoke := [LookForRevocation(2, r), LookAtIssuance(2), InsertRevocation(2), FinishRevoke(2)];
    IssueAndRead(g, now);
    RevokeAll(w3, g, r);
    RunAppends(w0, issue, revoke + [SecondRead(1)]);
    RunAppends(w3, revoke, [SecondRead(1)]);
    assert issue + (revoke + [SecondRead(1)])
        == [InsertIssuance(0, g), FinishIssue(0), FirstRead(1, g, now), LookForRevocation(2, r),
            LookAtIssuance(2), InsertRevocation(2), FinishRevoke(2), SecondRead(1)];
    LastRead(w7, g, now, Ledger(map[g := Active], map[]));
  }

  lemma {:induction false} RunAppends(w: World, steps: seq<Step>, more: seq<Step>)
    ensures Run(w, steps + more) == Run(Run(w, steps), more)
    decreases steps
  {
    if steps == [] {
      assert steps + more == more;
    } else {
      assert (steps + more)[1..] == steps[1..] + more;
      RunAppends(Next(w, steps[0]), steps[1..], more);
    }
  }

  lemma IssueAndRead(g: Grant, now: Time)
    ensures Run(World(Ledger(map[], map[]), map[]), [InsertIssuance(0, g), FinishIssue(0), FirstRead(1, g, now)])
         == World(Ledger(map[g := Active], map[]),
                  map[0 := Quit, 1 := Reading(g, now, Ledger(map[g := Active], map[]))])
  {
    var w0 := World(Ledger(map[], map[]), map[]);
    var w1 := Next(w0, InsertIssuance(0, g));
    var w2 := Next(w1, FinishIssue(0));
    assert w1 == World(Ledger(map[g := Pending], map[]), map[0 := Issuing(g)]);
    assert w2 == World(Ledger(map[g := Active], map[]), map[0 := Quit]);
    RunUnfolds(w0, InsertIssuance(0, g), [FinishIssue(0), FirstRead(1, g, now)]);
    RunUnfolds(w1, FinishIssue(0), [FirstRead(1, g, now)]);
    RunUnfolds(w2, FirstRead(1, g, now), []);
  }

  lemma BeginRevoke(w: World, g: Grant, r: Revocation)
    requires w.l == Ledger(map[g := Active], map[]) && 2 !in w.clients && r.grant == g
    ensures Run(w, [LookForRevocation(2, r), LookAtIssuance(2), InsertRevocation(2)])
         == World(Ledger(map[g := Active], map[r := Started]), w.clients[2 := Revoking(r)])
  {
    var w1 := Next(w, LookForRevocation(2, r));
    var w2 := Next(w1, LookAtIssuance(2));
    assert w2 == World(w.l, w.clients[2 := FoundActive(r)]);
    RunUnfolds(w, LookForRevocation(2, r), [LookAtIssuance(2), InsertRevocation(2)]);
    RunUnfolds(w1, LookAtIssuance(2), [InsertRevocation(2)]);
    RunUnfolds(w2, InsertRevocation(2), []);
  }

  lemma FinishesRevoke(w: World, g: Grant, r: Revocation)
    requires w.l == Ledger(map[g := Active], map[r := Started]) && r.grant == g
    requires 2 in w.clients && w.clients[2] == Revoking(r)
    ensures Run(w, [FinishRevoke(2)]) == World(Ledger(map[g := Revoked], map[r := Completed]), w.clients[2 := Quit])
  {
    RunUnfolds(w, FinishRevoke(2), []);
  }

  lemma RevokeAll(w: World, g: Grant, r: Revocation)
    requires w.l == Ledger(map[g := Active], map[]) && 2 !in w.clients && r.grant == g
    ensures Run(w, [LookForRevocation(2, r), LookAtIssuance(2), InsertRevocation(2), FinishRevoke(2)])
         == World(Ledger(map[g := Revoked], map[r := Completed]), w.clients[2 := Quit])
  {
    hide Run, Next;
    var claimed := World(Ledger(map[g := Active], map[r := Started]), w.clients[2 := Revoking(r)]);
    BeginRevoke(w, g, r);
    FinishesRevoke(claimed, g, r);
    RunAppends(w, [LookForRevocation(2, r), LookAtIssuance(2), InsertRevocation(2)], [FinishRevoke(2)]);
    assert [LookForRevocation(2, r), LookAtIssuance(2), InsertRevocation(2)] + [FinishRevoke(2)]
        == [LookForRevocation(2, r), LookAtIssuance(2), InsertRevocation(2), FinishRevoke(2)];
    assert claimed.clients[2 := Quit] == w.clients[2 := Quit];
  }

  lemma LastRead(w: World, g: Grant, now: Time, first: Ledger)
    requires 1 in w.clients && w.clients[1] == Reading(g, now, first)
    requires IsActive(first, g) && !RevocationPending(w.l, g) && g.Live(now)
    ensures var c := Run(w, [SecondRead(1)]).clients;
            1 in c && c[1] == Answered(g, now, first, w.l, StatusActive)
  {
    RunUnfolds(w, SecondRead(1), []);
  }

  lemma RunUnfolds(w: World, step: Step, rest: seq<Step>)
    ensures Run(w, [step] + rest) == Run(Next(w, step), rest)
  {
    assert ([step] + rest)[1..] == rest;
  }

  /******* Alone, the split statements do what they do in one call *******/

  lemma {:induction false} RunOfTwo(w: World, first: Step, second: Step)
    ensures Run(w, [first, second]) == Next(Next(w, first), second)
  {
    RunUnfolds(w, first, [second]);
    RunUnfolds(Next(w, first), second, []);
    assert [first] + [second] == [first, second] && [second] + [] == [second];
  }

  /** An issuer with nobody in between issues exactly a new grant under a new key. */
  lemma IssueAlone(w: World, pid: nat, g: Grant)
    requires pid !in w.clients
    ensures Run(w, [InsertIssuance(pid, g), FinishIssue(pid)]).l ==
              if g !in w.l.issuances && forall other :: other in w.l.issuances ==> other.key != g.key
              then w.l.(issuances := w.l.issuances[g := Active]) else w.l
  {
    RunOfTwo(w, InsertIssuance(pid, g), FinishIssue(pid));
    var l := w.l;
    assert IssueKeyTaken(l, g) <==> exists other :: other in l.issuances && other != g && other.key == g.key;
    if g !in l.issuances && !IssueKeyTaken(l, g) {
      assert l.issuances[g := Pending][g := Active] == l.issuances[g := Active];
    }
  }

  /** A revoker with nobody in between revokes exactly an active grant no revocation has, under a new key. */
  lemma RevokeAlone(w: World, pid: nat, r: Revocation)
    requires pid !in w.clients
    ensures Run(w, [LookForRevocation(pid, r), LookAtIssuance(pid), InsertRevocation(pid), FinishRevoke(pid)]).l ==
              if && (forall other :: other in w.l.revocations ==> other.grant != r.grant && other.key != r.key)
                 && r.grant in w.l.issuances && w.l.issuances[r.grant] == Active
              then Ledger(w.l.issuances[r.grant := Revoked], w.l.revocations[r := Completed]) else w.l
    ensures Next(w, LookForRevocation(pid, r)).clients
         == w.clients[pid := if forall other :: other in w.l.revocations ==> other.grant != r.grant && other.key != r.key
                             then NoneFound(r) else Quit]
  {
    hide Run;
    var l := w.l;
    var looked := Next(Next(w, LookForRevocation(pid, r)), LookAtIssuance(pid));
    RunAppends(w, [LookForRevocation(pid, r), LookAtIssuance(pid)], [InsertRevocation(pid), FinishRevoke(pid)]);
    assert [LookForRevocation(pid, r), LookAtIssuance(pid)] + [InsertRevocation(pid), FinishRevoke(pid)]
        == [LookForRevocation(pid, r), LookAtIssuance(pid), InsertRevocation(pid), FinishRevoke(pid)];
    RunOfTwo(w, LookForRevocation(pid, r), LookAtIssuance(pid));
    RunOfTwo(looked, InsertRevocation(pid), FinishRevoke(pid));
    assert RevocationTaken(l, r) || r in l.revocations <==>
             exists other :: other in l.revocations && (other.grant == r.grant || other.key == r.key);
    assert l.revocations[r := Started][r := Completed] == l.revocations[r := Completed];
  }

  /** A reader with nobody in between answers with the status of the tables. */
  lemma ReadAlone(w: World, pid: nat, g: Grant, now: Time)
    requires pid !in w.clients
    ensures var c := Run(w, [FirstRead(pid, g, now), SecondRead(pid)]).clients;
            pid in c && c[pid].Answered? && c[pid].status == StatusOf(w.l, g, now)
  {
    RunOfTwo(w, FirstRead(pid, g, now), SecondRead(pid));
  }

  /** A client that has crashed never changes anything again. */
  lemma CrashedIsGone(w: World, pid: nat, step: Step)
    requires pid in w.clients && step.pid == pid && w.clients[pid] == Quit
    ensures Next(w, step).l == w.l && Next(w, Crash(pid)).clients[pid] == Quit
    ensures forall w': World :: pid in w'.clients ==> Next(w', Crash(pid)).clients[pid] == Quit && Next(w', Crash(pid)).l == w'.l
  {
  }
}
