/** The provider egress lifecycle: two ledgers, a two-phase issue and revoke, and a reader of both. */
module ProviderEgress {
  import opened Options

  type Time = int

  datatype Mode = AdmissionFake | LoopbackProbe | LiveHttps

  datatype Admission = Admission(admissionId: nat, providerId: string, mode: Mode, credentialRef: nat, adapter: nat)

  datatype IssuerPolicy = IssuerPolicy(
    policyId: nat, issuerId: string, allowedModes: set<Mode>, allowedProviders: set<string>, maxLifetime: Time)

  datatype Grant = Grant(admission: Admission, policyId: nat, issuerId: string, forProbe: bool,
                         issuedAt: Time, expiresAt: Time, key: string)
  {
    predicate Valid() {
      && !admission.mode.AdmissionFake? && issuedAt < expiresAt
      && (admission.mode.LoopbackProbe? <==> forProbe)
    }

    predicate Live(now: Time) {
      issuedAt <= now < expiresAt
    }
  }

  datatype Revocation = Revocation(grant: Grant, policyId: nat, issuerId: string, reason: nat, revokedAt: Time, key: string)

  /** `state` and `status` of an issuance row: only a completed one can be revoked. */
  datatype Issuance = Pending | Active | Revoked

  datatype Stage = Started | Completed

  datatype Ledger = Ledger(issuances: map<Grant, Issuance>, revocations: map<Revocation, Stage>)

  datatype Reply = Created | Existing | RecoveryRequired | Conflict | NotActive

  datatype Status = StatusActive | StatusRevoked | StatusExpired | NotIssued | RevocationUnfinished

  /******* The tables *******/

  predicate IssueKeyTaken(l: Ledger, g: Grant) {
    exists other :: other in l.issuances.Keys && other != g && other.key == g.key
  }

  /** Another revocation holds the grant or the key. */
  predicate RevocationTaken(l: Ledger, r: Revocation) {
    exists other :: other in l.revocations.Keys && other != r && (other.grant == r.grant || other.key == r.key)
  }

  predicate IsActive(l: Ledger, g: Grant) {
    g in l.issuances && l.issuances[g].Active?
  }

  predicate RevocationPending(l: Ledger, g: Grant) {
    exists r :: r in l.revocations.Keys && r.grant == g && l.revocations[r].Started?
  }

  predicate HasRevocation(l: Ledger, g: Grant) {
    exists r :: r in l.revocations.Keys && r.grant == g
  }

  /** No grant has two revocation rows, a revocation row stands only beside a completed issuance, and it is
      completed exactly when that issuance is revoked. */
  ghost predicate Sound(l: Ledger) {
    && (forall g, h :: g in l.issuances && h in l.issuances && g.key == h.key ==> g == h)
    && (forall r, s :: r in l.revocations && s in l.revocations && (r.grant == s.grant || r.key == s.key) ==> r == s)
    && (forall r :: r in l.revocations ==>
          && r.grant in l.issuances && !l.issuances[r.grant].Pending?
          && (l.revocations[r].Completed? <==> l.issuances[r.grant].Revoked?))
    && (forall g :: g in l.issuances && l.issuances[g].Revoked? ==> HasRevocation(l, g))
  }

  function AfterIssueClaim(l: Ledger, g: Grant): Ledger {
    l.(issuances := l.issuances[g := Pending])
  }

  function AfterIssue(l: Ledger, g: Grant): Ledger {
    l.(issuances := l.issuances[g := Active])
  }

  function AfterRevokeClaim(l: Ledger, r: Revocation): Ledger {
    l.(revocations := l.revocations[r := Started])
  }

  function AfterRevoke(l: Ledger, r: Revocation): Ledger {
    Ledger(l.issuances[r.grant := Revoked], l.revocations[r := Completed])
  }

  lemma IssueClaimKeepsSound(l: Ledger, g: Grant)
    requires Sound(l) && g !in l.issuances && !IssueKeyTaken(l, g)
    ensures Sound(AfterIssueClaim(l, g))
  {
    var l' := AfterIssueClaim(l, g);
    forall h | h in l'.issuances && l'.issuances[h].Revoked? ensures HasRevocation(l', h) {
      assert HasRevocation(l, h);
    }
    forall h, k | h in l'.issuances && k in l'.issuances && h.key == k.key ensures h == k {
      assert h in l.issuances.Keys || h == g;
      assert k in l.issuances.Keys || k == g;
    }
  }

  lemma IssueKeepsSound(l: Ledger, g: Grant)
    requires Sound(l) && g in l.issuances && l.issuances[g].Pending?
    ensures Sound(AfterIssue(l, g))
  {
    var l' := AfterIssue(l, g);
    forall h | h in l'.issuances && l'.issuances[h].Revoked? ensures HasRevocation(l', h) {
      assert HasRevocation(l, h);
    }
  }

  lemma RevokeClaimKeepsSound(l: Ledger, r: Revocation)
    requires Sound(l) && IsActive(l, r.grant) && r !in l.revocations && !RevocationTaken(l, r)
    ensures Sound(AfterRevokeClaim(l, r))
  {
    var l' := AfterRevokeClaim(l, r);
    forall h | h in l'.issuances && l'.issuances[h].Revoked? ensures HasRevocation(l', h) {
      assert HasRevocation(l, h);
      var s :| s in l.revocations.Keys && s.grant == h;
      assert s in l'.revocations.Keys;
    }
    forall s, t | s in l'.revocations && t in l'.revocations && (s.grant == t.grant || s.key == t.key) ensures s == t {
      assert s in l.revocations.Keys || s == r;
      assert t in l.revocations.Keys || t == r;
    }
  }

  lemma RevokeKeepsSound(l: Ledger, r: Revocation)
    requires Sound(l) && r in l.revocations && l.revocations[r].Started?
    ensures IsActive(l, r.grant) && Sound(AfterRevoke(l, r))
  {
    var l' := AfterRevoke(l, r);
    forall h | h in l'.issuances && l'.issuances[h].Revoked? ensures HasRevocation(l', h) {
      if h == r.grant {
        assert r in l'.revocations.Keys;
      } else {
        assert HasRevocation(l, h);
        var s :| s in l.revocations.Keys && s.grant == h;
        assert s in l'.revocations.Keys;
      }
    }
  }

  /** What a reader concludes from the issuance row of its first read and the pending flag of its second. */
  function Conclude(row: Option<Issuance>, pending: bool, g: Grant, now: Time): Status {
    if row.None? || row.value.Pending? then NotIssued
    else if pending then RevocationUnfinished
    else if row.value.Revoked? then StatusRevoked
    else if !g.Live(now) then StatusExpired
    else StatusActive
  }

  function RowOf(l: Ledger, g: Grant): Option<Issuance> {
    if g in l.issuances then Some(l.issuances[g]) else None
  }

  function StatusOf(l: Ledger, g: Grant, now: Time): Status {
    Conclude(RowOf(l, g), RevocationPending(l, g), g, now)
  }

  /** Read in one piece, a grant is active exactly if it was issued, nobody began to revoke it and it is
      within its lifetime; and it is revoked exactly if a revocation was completed. */
  lemma AtomicStatus(l: Ledger, g: Grant, now: Time)
    requires Sound(l)
    ensures StatusOf(l, g, now).StatusActive? <==>
              && g in l.issuances && !l.issuances[g].Pending? && (forall r :: r in l.revocations ==> r.grant != g)
              && g.issuedAt <= now && now < g.expiresAt
    ensures StatusOf(l, g, now).NotIssued? <==> g !in l.issuances || l.issuances[g] == Pending
    ensures StatusOf(l, g, now).RevocationUnfinished? <==>
              exists r :: r in l.revocations && r.grant == g && l.revocations[r] == Started
    ensures StatusOf(l, g, now).StatusRevoked? <==>
              exists r :: r in l.revocations && r.grant == g && l.revocations[r].Completed?
  {
    if g in l.issuances && l.issuances[g].Revoked? {
      var r :| r in l.revocations.Keys && r.grant == g;
      assert r in l.revocations && l.revocations[r].Completed?;
      assert !RevocationPending(l, g);
    }
    if HasRevocation(l, g) {
      var r :| r in l.revocations.Keys && r.grant == g;
      assert l.revocations[r].Started? ==> RevocationPending(l, g);
    }
  }

  /******* The store *******/

  class AgentProviderEgressStore {
    var issuances: map<Grant, Issuance>
    var revocations: map<Revocation, Stage>

    function Contents(): Ledger
      reads this
    {
      Ledger(issuances, revocations)
    }

    ghost predicate Valid()
      reads this
    {
      Sound(Contents())
    }

    constructor ()
      ensures Valid() && Contents() == Ledger(map[], map[])
    {
      issuances, revocations := map[], map[];
    }

    method ClaimIssue(g: Grant) returns (reply: Reply)
      requires Valid()
      modifies this
      ensures Valid()
      ensures reply.Created? <==> g !in old(issuances) && forall other :: other in old(issuances) ==> other.key != g.key
      ensures Contents() == if reply.Created? then AfterIssueClaim(old(Contents()), g) else old(Contents())
      ensures reply.Existing? <==> g in old(issuances) && !old(issuances)[g].Pending?
      ensures reply.RecoveryRequired? <==> g in old(issuances) && old(issuances)[g].Pending?
      ensures !reply.NotActive?
    {
      if g !in issuances && !IssueKeyTaken(Contents(), g) {
        IssueClaimKeepsSound(Contents(), g);
        issuances := issuances[g := Pending];
        return Created;
      }
      if g !in issuances {
        return Conflict;
      }
      return if issuances[g].Pending? then RecoveryRequired else Existing;
    }

    method CompleteIssue(g: Grant) returns (ok: bool)
      requires Valid()
      modifies this
      ensures Valid()
      ensures ok <==> g in old(issuances) && old(issuances)[g].Pending?
      ensures Contents() == if ok then AfterIssue(old(Contents()), g) else old(Contents())
    {
      ok := g in issuances && issuances[g].Pending?;
      if ok {
        IssueKeepsSound(Contents(), g);
        issuances := issuances[g := Active];
      }
    }

    method ClaimRevoke(r: Revocation) returns (reply: Reply)
      requires Valid()
      modifies this
      ensures Valid()
      ensures reply.Created? <==>
                && (forall other :: other in old(revocations) ==> other.grant != r.grant && other.key != r.key)
                && r.grant in old(issuances) && old(issuances)[r.grant] == Active
      ensures Contents() == if reply.Created? then AfterRevokeClaim(old(Contents()), r) else old(Contents())
      ensures reply.Existing? <==> r in old(revocations) && old(revocations)[r].Completed?
      ensures reply.RecoveryRequired? <==> r in old(revocations) && old(revocations)[r].Started?
      ensures reply.NotActive? <==>
                && (forall other :: other in old(revocations) ==> other.grant != r.grant && other.key != r.key)
                && !(r.grant in old(issuances) && old(issuances)[r.grant] == Active)
    {
      if r in revocations {
        return if revocations[r].Started? then RecoveryRequired else Existing;
      }
      if RevocationTaken(Contents(), r) {
        return Conflict;
      }
      if !IsActive(Contents(), r.grant) {
        return NotActive;
      }
      RevokeClaimKeepsSound(Contents(), r);
      revocations := revocations[r := Started];
      return Created;
    }

    /** One transaction over both tables: with a started row the issuance update cannot miss. */
    method CompleteRevoke(r: Revocation) returns (ok: bool)
      requires Valid()
      modifies this
      ensures Valid()
      ensures ok <==> r in old(revocations) && old(revocations)[r].Started?
      ensures Contents() == if ok then AfterRevoke(old(Contents()), r) else old(Contents())
    {
      var changed := r in revocations && revocations[r].Started?;
      var issuanceChanged := IsActive(Contents(), r.grant);
      ok := changed && issuanceChanged;
      if changed {
        RevokeKeepsSound(Contents(), r);
      }
      if ok {
        revocations, issuances := revocations[r := Completed], issuances[r.grant := Revoked];
      }
    }

    method StatusAt(g: Grant, now: Time) returns (status: Status)
      requires Valid()
      ensures status == StatusOf(Contents(), g, now)
      ensures status.StatusActive? <==>
                && g in issuances && issuances[g] != Pending && (forall r :: r in revocations ==> r.grant != g)
                && g.issuedAt <= now < g.expiresAt
    {
      AtomicStatus(Contents(), g, now);
      if g !in issuances || issuances[g].Pending? {
        return NotIssued;
      }
      if RevocationPending(Contents(), g) {
        return RevocationUnfinished;
      }
      if issuances[g].Revoked? {
        return StatusRevoked;
      }
      return if g.Live(now) then StatusActive else StatusExpired;
    }

    method RequireActive(g: Grant, admission: Admission, now: Time) returns (ok: bool)
      requires Valid()
      ensures ok <==> StatusOf(Contents(), g, now).StatusActive? && g.admission == admission
    {
      var status := StatusAt(g, now);
      ok := status.StatusActive? && g.admission == admission;
    }
  }

  /******* The issuing authority *******/

  predicate Permits(policy: IssuerPolicy, admission: Admission, lifetime: Time) {
    && admission.mode in policy.allowedModes && admission.providerId in policy.allowedProviders
    && 0 < lifetime <= policy.maxLifetime
  }

  function GrantFor(admission: Admission, policy: IssuerPolicy, forProbe: bool, now: Time, expiresAt: Time, key: string): Grant {
    Grant(admission, policy.policyId, policy.issuerId, forProbe, now, expiresAt, key)
  }

  datatype IssueReply = Issued(grant: Grant) | IssueRejected | IssueTimedOut | IssueUnfinished

  datatype RevokeReply = RevocationDone(revocation: Revocation) | RevokeRejected | RevokeTimedOut | RevokeUnfinished

  class AgentProviderEgressAuthority {
    const store: AgentProviderEgressStore
    const policies: map<nat, IssuerPolicy>

    constructor (store: AgentProviderEgressStore, policies: map<nat, IssuerPolicy>)
      ensures this.store == store && this.policies == policies
    {
      this.store, this.policies := store, policies;
    }

    /** Issues a grant, or confirms one issued before. `elapsed` is what the clock shows at the two deadline
        checks after the claim; a grant whose issue was cut short stays pending. */
    method Issue(admission: Admission, policyId: nat, forProbe: bool, now: Time, expiresAt: Time, deadline: Time,
                 key: string, elapsed: (nat, nat)) returns (reply: IssueReply)
      requires store.Valid() && forall id :: id in policies ==> policies[id].policyId == id
      modifies store
      ensures store.Valid()
      ensures reply.Issued? ==>
                && StatusOf(store.Contents(), reply.grant, now).StatusActive?
                && reply.grant.admission == admission && reply.grant.policyId == policyId && policyId in policies
                && admission.mode in policies[policyId].allowedModes
                && admission.providerId in policies[policyId].allowedProviders
                && reply.grant.expiresAt - reply.grant.issuedAt <= policies[policyId].maxLifetime
                && now < deadline
      ensures reply.Issued? <==>
                && now < deadline && policyId in policies
                && admission.mode in policies[policyId].allowedModes
                && admission.providerId in policies[policyId].allowedProviders
                && now < expiresAt && expiresAt - now <= policies[policyId].maxLifetime
                && admission.mode != AdmissionFake && (forProbe <==> admission.mode == LoopbackProbe)
                && var g := Grant(admission, policyId, policies[policyId].issuerId, forProbe, now, expiresAt, key);
                   if g in old(store.issuances) then
                     old(store.issuances)[g] != Pending && forall r :: r in old(store.revocations) ==> r.grant != g
                   else
                     && (forall other :: other in old(store.issuances) ==> other.key != key)
                     && elapsed.0 < deadline - now && elapsed.1 < deadline - now
      ensures reply.Issued? ==>
                reply.grant == Grant(admission, policyId, policies[policyId].issuerId, forProbe, now, expiresAt, key)
      ensures reply.IssueRejected? ==> store.Contents() == old(store.Contents())
      ensures forall g | g in old(store.issuances) && !old(store.issuances)[g].Pending? ::
                g in store.issuances && store.issuances[g] == old(store.issuances)[g]
      ensures store.revocations == old(store.revocations)
    {
      if now >= deadline {
        return IssueTimedOut;
      }
      if policyId !in policies {
        return IssueRejected;
      }
      var policy := policies[policyId];
      var g := GrantFor(admission, policy, forProbe, now, expiresAt, key);
      if !Permits(policy, admission, expiresAt - now) || !g.Valid() {
        return IssueRejected;
      }
      var claim := store.ClaimIssue(g);
      match claim {
        case Created =>
          if elapsed.0 >= deadline - now || elapsed.1 >= deadline - now {
            return IssueTimedOut;
          }
          var ok := store.CompleteIssue(g);
          FreshGrantIsActive(store.Contents(), g, now);
          return Issued(g);
        case Existing =>
          var active := store.RequireActive(g, admission, now);
          return if active then Issued(g) else IssueRejected;
        case RecoveryRequired => return IssueUnfinished;
        case Conflict => return IssueRejected;
        case NotActive => assert false;
      }
    }

    /** Revokes a grant for good, or confirms that it was. */
    method Revoke(g: Grant, policyId: nat, reason: nat, now: Time, deadline: Time, key: string, elapsed: (nat, nat))
      returns (reply: RevokeReply)
      requires store.Valid() && forall id :: id in policies ==> policies[id].policyId == id
      modifies store
      ensures store.Valid()
      ensures reply.RevocationDone? ==>
                && reply.revocation.grant == g && policyId in policies && policies[policyId].issuerId == g.issuerId
                && g.policyId == policyId && g.issuedAt <= now < g.expiresAt
                && forall t :: StatusOf(store.Contents(), g, t).StatusRevoked?
      ensures reply.RevocationDone? <==>
                && now < deadline && policyId in policies && g.policyId == policyId
                && g.issuerId == policies[policyId].issuerId && g.issuedAt <= now < g.expiresAt
                && var r := Revocation(g, policyId, g.issuerId, reason, now, key);
                   && (if r in old(store.revocations) then old(store.revocations)[r].Completed?
                       else (forall other :: other in old(store.revocations) ==> other.grant != g && other.key != key)
                            && g in old(store.issuances) && old(store.issuances)[g] == Active
                            && elapsed.0 < deadline - now && elapsed.1 < deadline - now)
      ensures reply.RevokeRejected? ==> store.Contents() == old(store.Contents())
    {
      if now >= deadline {
        return RevokeTimedOut;
      }
      if policyId !in policies || g.policyId != policyId || g.issuerId != policies[policyId].issuerId || !g.Live(now) {
        return RevokeRejected;
      }
      var r := Revocation(g, policyId, g.issuerId, reason, now, key);
      var claim := store.ClaimRevoke(r);
      match claim {
        case Created =>
          if elapsed.0 >= deadline - now || elapsed.1 >= deadline - now {
            return RevokeTimedOut;
          }
          var ok := store.CompleteRevoke(r);
          CompletedRevocationShows(store.Contents(), r);
          return RevocationDone(r);
        case Existing =>
          CompletedRevocationShows(store.Contents(), r);
          return RevocationDone(r);
        case RecoveryRequired => return RevokeUnfinished;
        case Conflict => return RevokeRejected;
        case NotActive => return RevokeRejected;
      }
    }
  }

  lemma CompletedRevocationShows(l: Ledger, r: Revocation)
    requires Sound(l) && r in l.revocations && l.revocations[r].Completed?
    ensures forall t :: StatusOf(l, r.grant, t).StatusRevoked?
  {
    forall t ensures StatusOf(l, r.grant, t).StatusRevoked? {
      AtomicStatus(l, r.grant, t);
    }
  }

  lemma FreshGrantIsActive(l: Ledger, g: Grant, now: Time)
    requires Sound(l) && IsActive(l, g) && g.Live(now)
    requires forall r :: r in l.revocations ==> r.grant != g
    ensures StatusOf(l, g, now).StatusActive?
  {
  }
}
