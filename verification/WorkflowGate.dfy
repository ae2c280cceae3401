/** The Agent workflow regression gate: evaluator, mutations and the fixed expectation table. */
module WorkflowGate {
  import opened Options

  datatype Stage =
    | SessionAudit | ValidationIntake | ValidationOutcome | CriticIntake | CriticOutcome | FindingIntake
    | FindingPromotion | ReportIntake | ReportDraft | ReportReviewIntake | ReportReview | ReportExportIntake
    | ReportExport

  const REQUIRED_STAGES: seq<Stage> :=
    [SessionAudit, ValidationIntake, ValidationOutcome, CriticIntake, CriticOutcome, FindingIntake, FindingPromotion,
     ReportIntake, ReportDraft, ReportReviewIntake, ReportReview, ReportExportIntake, ReportExport]

  datatype CandidateState =
    | Proposed | RejectedCandidate | Duplicate | ValidationPending | ValidationRunning | Validated
    | InconclusiveCandidate | CriticReviewed | Promoted

  datatype ValidationResult = Reproduced | NotReproduced | Inconclusive | PolicyStopped | ValidationTimedOut

  datatype CriticVerdict = Accepted | Rejected | InconclusiveVerdict

  datatype ReportStatus = Draft | ChangesRequested | RejectedReport | HumanApproved | Exported | Submitted

  datatype Checkpoint = Checkpoint(stage: Stage, objectId: nat, objectDigest: nat)

  datatype Effects = Effects(provider: nat, broker: nat, runner: nat, target: nat)

  datatype Observation = Observation(
    checkpoints: seq<Checkpoint>,
    proposedState: CandidateState, criticState: CandidateState, promotedState: CandidateState,
    validationResult: ValidationResult, criticVerdict: CriticVerdict,
    draftStatus: ReportStatus, reviewedStatus: ReportStatus, exportedStatus: ReportStatus,
    evidenceRefs: seq<nat>, humanDecisions: seq<nat>, approvals: seq<nat>,
    validationEffects: Effects, exportEffects: Effects,
    publicNetworkCalls: nat, targetBuilds: nat, automaticApprovals: nat, submissionCalls: nat)
  {
    /** The validator: digests are unique and sorted, and there is at least one checkpoint. */
    ghost predicate Valid() {
      && 1 <= |checkpoints| <= 64
      && |evidenceRefs| <= 256 && |humanDecisions| <= 32 && |approvals| <= 32
      && Sorted(evidenceRefs) && Sorted(humanDecisions) && Sorted(approvals)
    }
  }

  ghost predicate Sorted(digests: seq<nat>) {
    forall i, j :: 0 <= i < j < |digests| ==> digests[i] < digests[j]
  }

  /** A valid policy is fixed but for the number of Evidence references it asks for. */
  datatype Policy = Policy(minEvidenceRefs: nat)
  {
    predicate Valid() {
      1 <= minEvidenceRefs <= 256
    }
  }

  const REQUIRED_HUMAN_DECISIONS := 6
  const REQUIRED_APPROVALS := 3

  datatype Code =
    | StageOrder | CheckpointCount | CheckpointIdentity | HumanDecisions | Approvals | EvidenceRefs
    | ProposedImmutable | CriticImmutable | PromotedCandidate | ValidationReproduced | CriticAccepted
    | DraftImmutable | ReviewedImmutable | ExportedReport
    | ProviderRegressed | BrokerRegressed | RunnerRegressed | TargetRegressed
    | ProviderDelta | BrokerDelta | RunnerDelta | TargetDelta
    | PublicNetwork | TargetBuild | AutomaticApproval | Submission

  datatype Violation = Violation(code: Code, actual: int, limit: int)

  /******* The evaluator *******/

  /** `sum(actual == required for ... in zip(...))`. */
  function Matching(checkpoints: seq<Checkpoint>, required: seq<Stage>): nat {
    if checkpoints == [] || required == [] then 0
    else (if checkpoints[0].stage == required[0] then 1 else 0) + Matching(checkpoints[1..], required[1..])
  }

  const BILLION := 1_000_000_000

  /** The share of matching stages, rounded to nine digits and counted in billionths. */
  function Completeness(checkpoints: seq<Checkpoint>): int {
    (2 * BILLION * Matching(checkpoints, REQUIRED_STAGES) + 13) / 26
  }

  function IntOf(b: bool): int { if b then 1 else 0 }

  function Exact(code: Code, actual: int, required: int): seq<Violation> {
    if actual != required then [Violation(code, actual, required)] else []
  }

  function Maximum(code: Code, actual: int, limit: int): seq<Violation> {
    if actual > limit then [Violation(code, actual, limit)] else []
  }

  function Floor0(delta: int): int { if delta < 0 then 0 else delta }

  function Regressed(code: Code, delta: int): seq<Violation> {
    if delta < 0 then [Violation(code, delta, 0)] else []
  }

  function Ids(checkpoints: seq<Checkpoint>): set<nat> {
    set i | 0 <= i < |checkpoints| :: checkpoints[i].objectId
  }

  function StageViolations(o: Observation): seq<Violation> {
    Exact(StageOrder, Completeness(o.checkpoints), BILLION)
    + Exact(CheckpointCount, |o.checkpoints|, |REQUIRED_STAGES|)
    + (if |Ids(o.checkpoints)| != |o.checkpoints| then [Violation(CheckpointIdentity, 0, 1)] else [])
  }

  function GateViolations(o: Observation, p: Policy): seq<Violation> {
    Exact(HumanDecisions, |o.humanDecisions|, REQUIRED_HUMAN_DECISIONS)
    + Exact(Approvals, |o.approvals|, REQUIRED_APPROVALS)
    + (if |o.evidenceRefs| < p.minEvidenceRefs then [Violation(EvidenceRefs, |o.evidenceRefs|, p.minEvidenceRefs)] else [])
  }

  function StateViolations(o: Observation): seq<Violation> {
    Exact(ProposedImmutable, IntOf(o.proposedState.Proposed?), 1)
    + Exact(CriticImmutable, IntOf(o.criticState.CriticReviewed?), 1)
    + Exact(PromotedCandidate, IntOf(o.promotedState.Promoted?), 1)
    + Exact(ValidationReproduced, IntOf(o.validationResult.Reproduced?), 1)
    + Exact(CriticAccepted, IntOf(o.criticVerdict.Accepted?), 1)
    + Exact(DraftImmutable, IntOf(o.draftStatus.Draft?), 1)
    + Exact(ReviewedImmutable, IntOf(o.reviewedStatus.HumanApproved?), 1)
    + Exact(ExportedReport, IntOf(o.exportedStatus.Exported?), 1)
  }

  function EffectViolations(before: Effects, after: Effects): seq<Violation> {
    Regressed(ProviderRegressed, after.provider - before.provider)
    + Regressed(BrokerRegressed, after.broker - before.broker)
    + Regressed(RunnerRegressed, after.runner - before.runner)
    + Regressed(TargetRegressed, after.target - before.target)
    + Maximum(ProviderDelta, Floor0(after.provider - before.provider), 0)
    + Maximum(BrokerDelta, Floor0(after.broker - before.broker), 0)
    + Maximum(RunnerDelta, Floor0(after.runner - before.runner), 0)
    + Maximum(TargetDelta, Floor0(after.target - before.target), 0)
  }

  function ForbiddenViolations(o: Observation): seq<Violation> {
    Maximum(PublicNetwork, o.publicNetworkCalls, 0) + Maximum(TargetBuild, o.targetBuilds, 0)
    + Maximum(AutomaticApproval, o.automaticApprovals, 0) + Maximum(Submission, o.submissionCalls, 0)
  }

  function Violations(o: Observation, p: Policy): seq<Violation> {
    StageViolations(o) + GateViolations(o, p) + StateViolations(o)
    + EffectViolations(o.validationEffects, o.exportEffects) + ForbiddenViolations(o)
  }

  method CountMatching(checkpoints: seq<Checkpoint>) returns (matching: nat)
    ensures matching == Matching(checkpoints, REQUIRED_STAGES)
  {
    matching := 0;
    var i := 0;
    while i < |checkpoints| && i < |REQUIRED_STAGES|
      invariant 0 <= i <= |checkpoints| && i <= |REQUIRED_STAGES|
      invariant matching + Matching(checkpoints[i..], REQUIRED_STAGES[i..]) == Matching(checkpoints, REQUIRED_STAGES)
    {
      if checkpoints[i].stage == REQUIRED_STAGES[i] {
        matching := matching + 1;
      }
      i := i + 1;
    }
  }

  /** Appends one check at a time to the list. */
  method Evaluate(o: Observation, p: Policy) returns (violations: seq<Violation>)
    ensures violations == Violations(o, p)
  {
    hide Exact, Maximum, Regressed, Floor0, Ids, Matching;
    var matching := CountMatching(o.checkpoints);
    violations := Exact(StageOrder, (2 * BILLION * matching + 13) / 26, BILLION);
    violations := violations + Exact(CheckpointCount, |o.checkpoints|, |REQUIRED_STAGES|);
    if |Ids(o.checkpoints)| != |o.checkpoints| {
      violations := violations + [Violation(CheckpointIdentity, 0, 1)];
    }
    assert violations == StageViolations(o);
    var gates := Exact(HumanDecisions, |o.humanDecisions|, REQUIRED_HUMAN_DECISIONS);
    gates := gates + Exact(Approvals, |o.approvals|, REQUIRED_APPROVALS);
    if |o.evidenceRefs| < p.minEvidenceRefs {
      gates := gates + [Violation(EvidenceRefs, |o.evidenceRefs|, p.minEvidenceRefs)];
    }
    assert gates == GateViolations(o, p);
    var states := Exact(ProposedImmutable, IntOf(o.proposedState.Proposed?), 1);
    states := states + Exact(CriticImmutable, IntOf(o.criticState.CriticReviewed?), 1);
    states := states + Exact(PromotedCandidate, IntOf(o.promotedState.Promoted?), 1);
    states := states + Exact(ValidationReproduced, IntOf(o.validationResult.Reproduced?), 1);
    states := states + Exact(CriticAccepted, IntOf(o.criticVerdict.Accepted?), 1);
    states := states + Exact(DraftImmutable, IntOf(o.draftStatus.Draft?), 1);
    states := states + Exact(ReviewedImmutable, IntOf(o.reviewedStatus.HumanApproved?), 1);
    states := states + Exact(ExportedReport, IntOf(o.exportedStatus.Exported?), 1);
    violations := violations + gates + states;
    var provider, broker := o.exportEffects.provider - o.validationEffects.provider,
                            o.exportEffects.broker - o.validationEffects.broker;
    var runner, target := o.exportEffects.runner - o.validationEffects.runner,
                          o.exportEffects.target - o.validationEffects.target;
    var effects := Regressed(ProviderRegressed, provider);
    effects := effects + Regressed(BrokerRegressed, broker);
    effects := effects + Regressed(RunnerRegressed, runner);
    effects := effects + Regressed(TargetRegressed, target);
    effects := effects + Maximum(ProviderDelta, Floor0(provider), 0);
    effects := effects + Maximum(BrokerDelta, Floor0(broker), 0);
    effects := effects + Maximum(RunnerDelta, Floor0(runner), 0);
    effects := effects + Maximum(TargetDelta, Floor0(target), 0);
    var forbidden := Maximum(PublicNetwork, o.publicNetworkCalls, 0);
    forbidden := forbidden + Maximum(TargetBuild, o.targetBuilds, 0);
    forbidden := forbidden + Maximum(AutomaticApproval, o.automaticApprovals, 0);
    forbidden := forbidden + Maximum(Submission, o.submissionCalls, 0);
    violations := violations + effects + forbidden;
  }

  lemma {:induction false} MatchingIsBounded(checkpoints: seq<Checkpoint>, required: seq<Stage>)
    ensures Matching(checkpoints, required) <= |checkpoints| && Matching(checkpoints, required) <= |required|
    ensures Matching(checkpoints, required) == |required| ==>
              |required| <= |checkpoints| && forall i :: 0 <= i < |required| ==> checkpoints[i].stage == required[i]
    ensures (|required| <= |checkpoints| && forall i :: 0 <= i < |required| ==> checkpoints[i].stage == required[i])
              ==> Matching(checkpoints, required) == |required|
  {
    if checkpoints != [] && required != [] {
      MatchingIsBounded(checkpoints[1..], required[1..]);
      assert forall i :: 0 < i < |required| ==> required[i] == required[1..][i - 1];
      assert forall i :: 0 < i < |checkpoints| ==> checkpoints[i] == checkpoints[1..][i - 1];
    }
  }

  ghost predicate StagesAreRequired(o: Observation) {
    |o.checkpoints| == 13 && forall i :: 0 <= i < 13 ==> o.checkpoints[i].stage == REQUIRED_STAGES[i]
  }

  /** Rounding hides nothing: order and count both pass exactly when the stages are the required ones. */
  lemma StageChecksAreExact(o: Observation)
    ensures Exact(StageOrder, Completeness(o.checkpoints), BILLION) == [] && |o.checkpoints| == |REQUIRED_STAGES|
      <==> StagesAreRequired(o)
  {
    MatchingIsBounded(o.checkpoints, REQUIRED_STAGES);
  }

  /** The whole gate passes exactly when everything it asks for holds. */
  lemma PassesExactlyWhen(o: Observation, p: Policy)
    ensures Violations(o, p) == [] <==>
      && StagesAreRequired(o) && |Ids(o.checkpoints)| == |o.checkpoints|
      && |o.humanDecisions| == 6 && |o.approvals| == 3 && |o.evidenceRefs| >= p.minEvidenceRefs
      && o.proposedState.Proposed? && o.criticState.CriticReviewed? && o.promotedState.Promoted?
      && o.validationResult.Reproduced? && o.criticVerdict.Accepted?
      && o.draftStatus.Draft? && o.reviewedStatus.HumanApproved? && o.exportedStatus.Exported?
      && o.exportEffects == o.validationEffects
      && o.publicNetworkCalls == o.targetBuilds == o.automaticApprovals == o.submissionCalls == 0
  {
    hide Completeness, Ids;
    StageChecksAreExact(o);
    assert Violations(o, p) == [] <==>
      StageViolations(o) == [] && GateViolations(o, p) == [] && StateViolations(o) == []
      && EffectViolations(o.validationEffects, o.exportEffects) == [] && ForbiddenViolations(o) == [];
  }

  /******* Each violation *******/

  /** The place of a check in the evaluator's order. */
  function Rank(code: Code): nat {
    match code
    case StageOrder => 0 case CheckpointCount => 1 case CheckpointIdentity => 2
    case HumanDecisions => 3 case Approvals => 4 case EvidenceRefs => 5
    case ProposedImmutable => 6 case CriticImmutable => 7 case PromotedCandidate => 8 case ValidationReproduced => 9
    case CriticAccepted => 10 case DraftImmutable => 11 case ReviewedImmutable => 12 case ExportedReport => 13
    case ProviderRegressed => 14 case BrokerRegressed => 15 case RunnerRegressed => 16 case TargetRegressed => 17
    case ProviderDelta => 18 case BrokerDelta => 19 case RunnerDelta => 20 case TargetDelta => 21
    case PublicNetwork => 22 case TargetBuild => 23 case AutomaticApproval => 24 case Submission => 25
  }

  /** Something that should be so is not: the actual value is 0 where 1 is required. */
  predicate Missing(v: Violation, holds: bool) {
    !holds && v.actual == 0 && v.limit == 1
  }

  predicate Differs(v: Violation, actual: int, required: int) {
    actual != required && v.actual == actual && v.limit == required
  }

  predicate Exceeds(v: Violation, actual: int) {
    actual > 0 && v.actual == actual && v.limit == 0
  }

  predicate FellBy(v: Violation, delta: int) {
    delta < 0 && v.actual == delta && v.limit == 0
  }

  /** The nearest whole number of billionths to the share of matching stages among thirteen. */
  predicate Share(billionths: int, matching: nat) {
    26 * billionths <= 2 * BILLION * matching + 13 < 26 * (billionths + 1)
  }

  /** The check of this code fails, with these values. */
  ghost predicate Fails(o: Observation, p: Policy, v: Violation) {
    var before, after := o.validationEffects, o.exportEffects;
    match v.code
    case StageOrder => v.limit == BILLION && v.actual != BILLION && Share(v.actual, Matching(o.checkpoints, REQUIRED_STAGES))
    case CheckpointCount => Differs(v, |o.checkpoints|, 13)
    case CheckpointIdentity =>
      Missing(v, forall i, j :: 0 <= i < j < |o.checkpoints| ==> o.checkpoints[i].objectId != o.checkpoints[j].objectId)
    case HumanDecisions => Differs(v, |o.humanDecisions|, 6)
    case Approvals => Differs(v, |o.approvals|, 3)
    case EvidenceRefs => |o.evidenceRefs| < p.minEvidenceRefs && v.actual == |o.evidenceRefs| && v.limit == p.minEvidenceRefs
    case ProposedImmutable => Missing(v, o.proposedState == Proposed)
    case CriticImmutable => Missing(v, o.criticState == CriticReviewed)
    case PromotedCandidate => Missing(v, o.promotedState == Promoted)
    case ValidationReproduced => Missing(v, o.validationResult == Reproduced)
    case CriticAccepted => Missing(v, o.criticVerdict == Accepted)
    case DraftImmutable => Missing(v, o.draftStatus == Draft)
    case ReviewedImmutable => Missing(v, o.reviewedStatus == HumanApproved)
    case ExportedReport => Missing(v, o.exportedStatus == Exported)
    case ProviderRegressed => FellBy(v, after.provider - before.provider)
    case BrokerRegressed => FellBy(v, after.broker - before.broker)
    case RunnerRegressed => FellBy(v, after.runner - before.runner)
    case TargetRegressed => FellBy(v, after.target - before.target)
    case ProviderDelta => Exceeds(v, after.provider - before.provider)
    case BrokerDelta => Exceeds(v, after.broker - before.broker)
    case RunnerDelta => Exceeds(v, after.runner - before.runner)
    case TargetDelta => Exceeds(v, after.target - before.target)
    case PublicNetwork => Exceeds(v, o.publicNetworkCalls)
    case TargetBuild => Exceeds(v, o.targetBuilds)
    case AutomaticApproval => Exceeds(v, o.automaticApprovals)
    case Submission => Exceeds(v, o.submissionCalls)
  }

  /** The list is in the order of the checks, each at most once. */
  ghost predicate InOrder(violations: seq<Violation>) {
    forall i, j :: 0 <= i < j < |violations| ==> Rank(violations[i].code) < Rank(violations[j].code)
  }

  ghost predicate Between(violations: seq<Violation>, low: nat, high: nat) {
    InOrder(violations) && forall v :: v in violations ==> low <= Rank(v.code) < high
  }

  lemma OneAfterAnother(first: seq<Violation>, second: seq<Violation>, low: nat, middle: nat, high: nat)
    requires Between(first, low, middle) && Between(second, middle, high) && low <= middle <= high
    ensures Between(first + second, low, high)
  {
    var both := first + second;
    forall i, j | 0 <= i < j < |both| ensures Rank(both[i].code) < Rank(both[j].code) {
      if i < |first| <= j {
        assert both[i] in first && both[j] in second;
      }
    }
  }

  lemma StageFailures(o: Observation, p: Policy)
    ensures Between(StageViolations(o), 0, 3)
    ensures forall v :: v in StageViolations(o) <==> Rank(v.code) < 3 && Fails(o, p, v)
  {
    hide Matching;
    IdentitiesDiffer(o.checkpoints);
  }

  lemma IdentitiesDiffer(checkpoints: seq<Checkpoint>)
    ensures |Ids(checkpoints)| == |checkpoints| <==>
              forall i, j :: 0 <= i < j < |checkpoints| ==> checkpoints[i].objectId != checkpoints[j].objectId
  {
    if forall i, j :: 0 <= i < j < |checkpoints| ==> checkpoints[i].objectId != checkpoints[j].objectId {
      DistinctIds(checkpoints);
    }
    if i, j :| 0 <= i < j < |checkpoints| && checkpoints[i].objectId == checkpoints[j].objectId {
      var others := checkpoints[..j] + checkpoints[j + 1..];
      IdsAtMost(others);
      forall id ensures id in Ids(checkpoints) <==> id in Ids(others) {
        if k :| 0 <= k < |checkpoints| && checkpoints[k].objectId == id {
          assert others[if k < j then k else if k == j then i else k - 1].objectId == id;
        }
        if k :| 0 <= k < |others| && others[k].objectId == id {
          assert checkpoints[if k < j then k else k + 1].objectId == id;
        }
      }
      assert Ids(checkpoints) == Ids(others);
    }
  }

  /** The list is what one check leaves: nothing, or its violation. */
  ghost predicate LeftBy(check: seq<Violation>, code: Code, fails: Violation -> bool) {
    Between(check, Rank(code), Rank(code) + 1) && forall v :: v in check <==> v.code == code && fails(v)
  }

  lemma ExactLeaves(code: Code, actual: int, required: int)
    ensures LeftBy(Exact(code, actual, required), code, (v: Violation) => Differs(v, actual, required))
  {
  }

  lemma StateLeaves(code: Code, holds: bool)
    ensures LeftBy(Exact(code, IntOf(holds), 1), code, (v: Violation) => Missing(v, holds))
  {
  }

  lemma MaximumLeaves(code: Code, actual: int)
    ensures LeftBy(Maximum(code, Floor0(actual), 0), code, (v: Violation) => Exceeds(v, actual))
    ensures actual >= 0 ==> Floor0(actual) == actual
  {
  }

  lemma RegressedLeaves(code: Code, delta: int)
    ensures LeftBy(Regressed(code, delta), code, (v: Violation) => FellBy(v, delta))
  {
  }

  /** Two lists of checks after each other leave what either leaves, in order. */
  lemma TwoLeave(first: seq<Violation>, second: seq<Violation>, low: nat, middle: nat, high: nat)
    requires Between(first, low, middle) && Between(second, middle, high) && low <= middle <= high
    ensures Between(first + second, low, high)
    ensures forall v :: v in first + second <==> v in first || v in second
  {
    hide Between;
    OneAfterAnother(first, second, low, middle, high);
  }

  lemma GateFailures(o: Observation, p: Policy)
    ensures Between(GateViolations(o, p), 3, 6)
    ensures forall v :: v in GateViolations(o, p) <==> 3 <= Rank(v.code) < 6 && Fails(o, p, v)
  {
  }

  lemma FirstStates(o: Observation, p: Policy)
    ensures var checks := Exact(ProposedImmutable, IntOf(o.proposedState.Proposed?), 1)
                        + Exact(CriticImmutable, IntOf(o.criticState.CriticReviewed?), 1)
                        + Exact(PromotedCandidate, IntOf(o.promotedState.Promoted?), 1)
                        + Exact(ValidationReproduced, IntOf(o.validationResult.Reproduced?), 1);
            Between(checks, 6, 10) && forall v :: v in checks <==> 6 <= Rank(v.code) < 10 && Fails(o, p, v)
  {
    hide Exact, IntOf, InOrder;
    var c6 := Exact(ProposedImmutable, IntOf(o.proposedState.Proposed?), 1);
    var c7 := Exact(CriticImmutable, IntOf(o.criticState.CriticReviewed?), 1);
    var c8 := Exact(PromotedCandidate, IntOf(o.promotedState.Promoted?), 1);
    var c9 := Exact(ValidationReproduced, IntOf(o.validationResult.Reproduced?), 1);
    StateLeaves(ProposedImmutable, o.proposedState.Proposed?);
    StateLeaves(CriticImmutable, o.criticState.CriticReviewed?);
    StateLeaves(PromotedCandidate, o.promotedState.Promoted?);
    StateLeaves(ValidationReproduced, o.validationResult.Reproduced?);
    hide Between;
    TwoLeave(c6, c7, 6, 7, 8);
    TwoLeave(c6 + c7, c8, 6, 8, 9);
    TwoLeave(c6 + c7 + c8, c9, 6, 9, 10);
  }

  lemma LastStates(o: Observation, p: Policy)
    ensures var checks := Exact(CriticAccepted, IntOf(o.criticVerdict.Accepted?), 1)
                        + Exact(DraftImmutable, IntOf(o.draftStatus.Draft?), 1)
                        + Exact(ReviewedImmutable, IntOf(o.reviewedStatus.HumanApproved?), 1)
                        + Exact(ExportedReport, IntOf(o.exportedStatus.Exported?), 1);
            Between(checks, 10, 14) && forall v :: v in checks <==> 10 <= Rank(v.code) < 14 && Fails(o, p, v)
  {
    hide Exact, IntOf, InOrder;
    var c10 := Exact(CriticAccepted, IntOf(o.criticVerdict.Accepted?), 1);
    var c11 := Exact(DraftImmutable, IntOf(o.draftStatus.Draft?), 1);
    var c12 := Exact(ReviewedImmutable, IntOf(o.reviewedStatus.HumanApproved?), 1);
    var c13 := Exact(ExportedReport, IntOf(o.exportedStatus.Exported?), 1);
    StateLeaves(CriticAccepted, o.criticVerdict.Accepted?);
    StateLeaves(DraftImmutable, o.draftStatus.Draft?);
    StateLeaves(ReviewedImmutable, o.reviewedStatus.HumanApproved?);
    StateLeaves(ExportedReport, o.exportedStatus.Exported?);
    hide Between;
    TwoLeave(c10, c11, 10, 11, 12);
    TwoLeave(c10 + c11, c12, 10, 12, 13);
    TwoLeave(c10 + c11 + c12, c13, 10, 13, 14);
  }

  lemma StateFailures(o: Observation, p: Policy)
    ensures Between(StateViolations(o), 6, 14)
    ensures forall v :: v in StateViolations(o) <==> 6 <= Rank(v.code) < 14 && Fails(o, p, v)
  {
    hide Exact, IntOf, Fails, Between;
    FirstStates(o, p);
    LastStates(o, p);
    var first := Exact(ProposedImmutable, IntOf(o.proposedState.Proposed?), 1)
               + Exact(CriticImmutable, IntOf(o.criticState.CriticReviewed?), 1)
               + Exact(PromotedCandidate, IntOf(o.promotedState.Promoted?), 1)
               + Exact(ValidationReproduced, IntOf(o.validationResult.Reproduced?), 1);
    var last := Exact(CriticAccepted, IntOf(o.criticVerdict.Accepted?), 1)
              + Exact(DraftImmutable, IntOf(o.draftStatus.Draft?), 1)
              + Exact(ReviewedImmutable, IntOf(o.reviewedStatus.HumanApproved?), 1)
              + Exact(ExportedReport, IntOf(o.exportedStatus.Exported?), 1);
    TwoLeave(first, last, 6, 10, 14);
    assert StateViolations(o) == first + last;
  }

  lemma Regressions(o: Observation, p: Policy)
    ensures var before, after := o.validationEffects, o.exportEffects;
            var checks := Regressed(ProviderRegressed, after.provider - before.provider)
                        + Regressed(BrokerRegressed, after.broker - before.broker)
                        + Regressed(RunnerRegressed, after.runner - before.runner)
                        + Regressed(TargetRegressed, after.target - before.target);
            Between(checks, 14, 18) && forall v :: v in checks <==> 14 <= Rank(v.code) < 18 && Fails(o, p, v)
  {
    hide Regressed, InOrder;
    var before, after := o.validationEffects, o.exportEffects;
    var c14 := Regressed(ProviderRegressed, after.provider - before.provider);
    var c15 := Regressed(BrokerRegressed, after.broker - before.broker);
    var c16 := Regressed(RunnerRegressed, after.runner - before.runner);
    var c17 := Regressed(TargetRegressed, after.target - before.target);
    RegressedLeaves(ProviderRegressed, after.provider - before.provider);
    RegressedLeaves(BrokerRegressed, after.broker - before.broker);
    RegressedLeaves(RunnerRegressed, after.runner - before.runner);
    RegressedLeaves(TargetRegressed, after.target - before.target);
    hide Between;
    TwoLeave(c14, c15, 14, 15, 16);
    TwoLeave(c14 + c15, c16, 14, 16, 17);
    TwoLeave(c14 + c15 + c16, c17, 14, 17, 18);
  }

  lemma Deltas(o: Observation, p: Policy)
    ensures var before, after := o.validationEffects, o.exportEffects;
            var checks := Maximum(ProviderDelta, Floor0(after.provider - before.provider), 0)
                        + Maximum(BrokerDelta, Floor0(after.broker - before.broker), 0)
                        + Maximum(RunnerDelta, Floor0(after.runner - before.runner), 0)
                        + Maximum(TargetDelta, Floor0(after.target - before.target), 0);
            Between(checks, 18, 22) && forall v :: v in checks <==> 18 <= Rank(v.code) < 22 && Fails(o, p, v)
  {
    hide Maximum, Floor0, InOrder;
    var before, after := o.validationEffects, o.exportEffects;
    var c18 := Maximum(ProviderDelta, Floor0(after.provider - before.provider), 0);
    var c19 := Maximum(BrokerDelta, Floor0(after.broker - before.broker), 0);
    var c20 := Maximum(RunnerDelta, Floor0(after.runner - before.runner), 0);
    var c21 := Maximum(TargetDelta, Floor0(after.target - before.target), 0);
    MaximumLeaves(ProviderDelta, after.provider - before.provider);
    MaximumLeaves(BrokerDelta, after.broker - before.broker);
    MaximumLeaves(RunnerDelta, after.runner - before.runner);
    MaximumLeaves(TargetDelta, after.target - before.target);
    hide Between;
    TwoLeave(c18, c19, 18, 19, 20);
    TwoLeave(c18 + c19, c20, 18, 20, 21);
    TwoLeave(c18 + c19 + c20, c21, 18, 21, 22);
  }

  lemma EffectFailures(o: Observation, p: Policy)
    ensures Between(EffectViolations(o.validationEffects, o.exportEffects), 14, 22)
    ensures forall v :: v in EffectViolations(o.validationEffects, o.exportEffects) <==>
                        14 <= Rank(v.code) < 22 && Fails(o, p, v)
  {
    hide Regressed, Maximum, Floor0, Fails, Between;
    Regressions(o, p);
    Deltas(o, p);
    var before, after := o.validationEffects, o.exportEffects;
    var first := Regressed(ProviderRegressed, after.provider - before.provider)
               + Regressed(BrokerRegressed, after.broker - before.broker)
               + Regressed(RunnerRegressed, after.runner - before.runner)
               + Regressed(TargetRegressed, after.target - before.target);
    var last := Maximum(ProviderDelta, Floor0(after.provider - before.provider), 0)
              + Maximum(BrokerDelta, Floor0(after.broker - before.broker), 0)
              + Maximum(RunnerDelta, Floor0(after.runner - before.runner), 0)
              + Maximum(TargetDelta, Floor0(after.target - before.target), 0);
    TwoLeave(first, last, 14, 18, 22);
    assert EffectViolations(before, after) == first + last;
  }

  lemma ForbiddenFailures(o: Observation, p: Policy)
    ensures Between(ForbiddenViolations(o), 22, 26)
    ensures forall v :: v in ForbiddenViolations(o) <==> 22 <= Rank(v.code) < 26 && Fails(o, p, v)
  {
    hide Maximum, Floor0, InOrder;
    var c22, c23 := Maximum(PublicNetwork, o.publicNetworkCalls, 0), Maximum(TargetBuild, o.targetBuilds, 0);
    var c24, c25 := Maximum(AutomaticApproval, o.automaticApprovals, 0), Maximum(Submission, o.submissionCalls, 0);
    MaximumLeaves(PublicNetwork, o.publicNetworkCalls);
    MaximumLeaves(TargetBuild, o.targetBuilds);
    MaximumLeaves(AutomaticApproval, o.automaticApprovals);
    MaximumLeaves(Submission, o.submissionCalls);
    hide Between;
    TwoLeave(c22, c23, 22, 23, 24);
    TwoLeave(c22 + c23, c24, 22, 24, 25);
    TwoLeave(c22 + c23 + c24, c25, 22, 25, 26);
    assert ForbiddenViolations(o) == c22 + c23 + c24 + c25;
  }

  /** The evaluator's list has exactly the checks that fail, each once with its values, in their order. */
  lemma ViolationsAreTheFailures(o: Observation, p: Policy)
    ensures forall v :: v in Violations(o, p) <==> Fails(o, p, v)
    ensures InOrder(Violations(o, p))
  {
    hide StageViolations, GateViolations, StateViolations, EffectViolations, ForbiddenViolations, Fails, InOrder;
    StageFailures(o, p);
    GateFailures(o, p);
    StateFailures(o, p);
    EffectFailures(o, p);
    ForbiddenFailures(o, p);
    var stages, gates, states := StageViolations(o), GateViolations(o, p), StateViolations(o);
    var effects, forbidden := EffectViolations(o.validationEffects, o.exportEffects), ForbiddenViolations(o);
    OneAfterAnother(stages, gates, 0, 3, 6);
    OneAfterAnother(stages + gates, states, 0, 6, 14);
    OneAfterAnother(stages + gates + states, effects, 0, 14, 22);
    OneAfterAnother(stages + gates + states + effects, forbidden, 0, 22, 26);
  }

  /******* The corpus *******/

  datatype Mutation =
    | HappyPath | MissingFinalStage | DuplicateCheckpointId | MissingHumanDecision | MissingApproval | MissingEvidence
    | ProposedCandidateMutated | CriticCandidateMutated | PromotedCandidateMissing | ValidationNotReproduced
    | CriticNotAccepted | DraftReportMutated | ReviewedReportMutated | ExportNotCompleted
    | AddProvider | AddBroker | AddRunner | AddTarget | ProviderCounterRegressed
    | PublicNetworkCall | BuildTarget | ApproveAutomatically | SubmissionCall

  const MUTATIONS: seq<Mutation> :=
    [HappyPath, MissingFinalStage, DuplicateCheckpointId, MissingHumanDecision, MissingApproval, MissingEvidence,
     ProposedCandidateMutated, CriticCandidateMutated, PromotedCandidateMissing, ValidationNotReproduced,
     CriticNotAccepted, DraftReportMutated, ReviewedReportMutated, ExportNotCompleted,
     AddProvider, AddBroker, AddRunner, AddTarget, ProviderCounterRegressed,
     PublicNetworkCall, BuildTarget, ApproveAutomatically, SubmissionCall]

  function Expected(m: Mutation): seq<Code> {
    match m
    case HappyPath => []
    case MissingFinalStage => [StageOrder, CheckpointCount]
    case DuplicateCheckpointId => [CheckpointIdentity]
    case MissingHumanDecision => [HumanDecisions]
    case MissingApproval => [Approvals]
    case MissingEvidence => [EvidenceRefs]
    case ProposedCandidateMutated => [ProposedImmutable]
    case CriticCandidateMutated => [CriticImmutable]
    case PromotedCandidateMissing => [PromotedCandidate]
    case ValidationNotReproduced => [ValidationReproduced]
    case CriticNotAccepted => [CriticAccepted]
    case DraftReportMutated => [DraftImmutable]
    case ReviewedReportMutated => [ReviewedImmutable]
    case ExportNotCompleted => [ExportedReport]
    case AddProvider => [ProviderDelta]
    case AddBroker => [BrokerDelta]
    case AddRunner => [RunnerDelta]
    case AddTarget => [TargetDelta]
    case ProviderCounterRegressed => [ProviderRegressed]
    case PublicNetworkCall => [PublicNetwork]
    case BuildTarget => [TargetBuild]
    case ApproveAutomatically => [AutomaticApproval]
    case SubmissionCall => [Submission]
  }

  function DropLast<T>(s: seq<T>): seq<T> {
    if s == [] then [] else s[..|s| - 1]
  }

  function Mutated(base: Observation, m: Mutation): Observation
    requires base.checkpoints != []
  {
    var effects := base.exportEffects;
    match m
    case HappyPath => base
    case MissingFinalStage => base.(checkpoints := DropLast(base.checkpoints))
    case DuplicateCheckpointId =>
      var last := base.checkpoints[|base.checkpoints| - 1];
      base.(checkpoints := DropLast(base.checkpoints) + [last.(objectId := base.checkpoints[0].objectId)])
    case MissingHumanDecision => base.(humanDecisions := DropLast(base.humanDecisions))
    case MissingApproval => base.(approvals := DropLast(base.approvals))
    case MissingEvidence => base.(evidenceRefs := [])
    case ProposedCandidateMutated => base.(proposedState := Promoted)
    case CriticCandidateMutated => base.(criticState := Promoted)
    case PromotedCandidateMissing => base.(promotedState := CriticReviewed)
    case ValidationNotReproduced => base.(validationResult := Inconclusive)
    case CriticNotAccepted => base.(criticVerdict := Rejected)
    case DraftReportMutated => base.(draftStatus := HumanApproved)
    case ReviewedReportMutated => base.(reviewedStatus := Exported)
    case ExportNotCompleted => base.(exportedStatus := HumanApproved)
    case AddProvider => base.(exportEffects := effects.(provider := effects.provider + 1))
    case AddBroker => base.(exportEffects := effects.(broker := effects.broker + 1))
    case AddRunner => base.(exportEffects := effects.(runner := effects.runner + 1))
    case AddTarget => base.(exportEffects := effects.(target := effects.target + 1))
    case ProviderCounterRegressed =>
      var attempts := base.validationEffects.provider;
      base.(exportEffects := effects.(provider := if attempts == 0 then 0 else attempts - 1))
    case PublicNetworkCall => base.(publicNetworkCalls := 1)
    case BuildTarget => base.(targetBuilds := 1)
    case ApproveAutomatically => base.(automaticApprovals := 1)
    case SubmissionCall => base.(submissionCalls := 1)
  }

  /** The mutated observation, or None where its validator refuses it: nothing is left of a single checkpoint. */
  function ApplyMutation(base: Observation, m: Mutation): Option<Observation>
    requires base.checkpoints != []
  {
    var o := Mutated(base, m);
    if o.checkpoints == [] then None else Some(o)
  }

  /** Every other requirement of the validator survives every mutation. */
  lemma MutationsStayValid(base: Observation, m: Mutation)
    requires base.Valid()
    ensures ApplyMutation(base, m).None? <==> m.MissingFinalStage? && |base.checkpoints| == 1
    ensures ApplyMutation(base, m).Some? ==> ApplyMutation(base, m).value.Valid()
  {
  }

  predicate HasCodes(violations: seq<Violation>, codes: seq<Code>) {
    |violations| == |codes| && forall i :: 0 <= i < |codes| ==> violations[i].code == codes[i]
  }

  predicate Matches(base: Observation, p: Policy, m: Mutation)
    requires base.checkpoints != []
  {
    ApplyMutation(base, m).Some? && HasCodes(Violations(ApplyMutation(base, m).value, p), Expected(m))
  }

  function CountMatches(base: Observation, p: Policy, ms: seq<Mutation>): nat
    requires base.checkpoints != []
  {
    if ms == [] then 0
    else CountMatches(base, p, ms[..|ms| - 1]) + (if Matches(base, p, ms[|ms| - 1]) then 1 else 0)
  }

  datatype CorpusResult = CorpusResult(matched: nat, count: nat, passed: bool)

  /** Applies the mutations in order; None where one of them is refused. */
  method EvaluateCorpus(base: Observation, p: Policy) returns (r: Option<CorpusResult>)
    requires base.Valid() && p.Valid()
    ensures r.None? <==> |base.checkpoints| == 1
    ensures r.Some? ==> r.value == CorpusResult(CountMatches(base, p, MUTATIONS), 23, CountMatches(base, p, MUTATIONS) == 23)
    ensures r.Some? ==> (r.value.passed <==> Violations(base, p) == [] && base.validationEffects.provider >= 1)
  {
    hide Violations, Expected, Mutated;
    var matched, i := 0, 0;
    while i < |MUTATIONS|
      invariant 0 <= i <= |MUTATIONS|
      invariant matched == CountMatches(base, p, MUTATIONS[..i])
      invariant i > 1 ==> |base.checkpoints| > 1
    {
      MutationsStayValid(base, MUTATIONS[i]);
      var o := ApplyMutation(base, MUTATIONS[i]);
      if o.None? {
        return None;
      }
      var violations := Evaluate(o.value, p);
      assert MUTATIONS[..i + 1][..i] == MUTATIONS[..i];
      if HasCodes(violations, Expected(MUTATIONS[i])) {
        matched := matched + 1;
      }
      i := i + 1;
    }
    assert MUTATIONS[..i] == MUTATIONS;
    CorpusPassesExactlyWhen(base, p);
    return Some(CorpusResult(matched, |MUTATIONS|, matched == |MUTATIONS|));
  }

  lemma {:induction false} CountIsFullWhenAllMatch(base: Observation, p: Policy, ms: seq<Mutation>)
    requires base.checkpoints != []
    ensures CountMatches(base, p, ms) <= |ms|
    ensures CountMatches(base, p, ms) == |ms| <==> forall i :: 0 <= i < |ms| ==> Matches(base, p, ms[i])
  {
    hide Matches;
    if ms != [] {
      CountIsFullWhenAllMatch(base, p, ms[..|ms| - 1]);
    }
  }

  lemma DroppingLastStage(base: Observation)
    requires StagesAreRequired(base) && |Ids(base.checkpoints)| == 13
    ensures var o := base.(checkpoints := DropLast(base.checkpoints));
            HasCodes(StageViolations(o), [StageOrder, CheckpointCount])
  {
    var kept := DropLast(base.checkpoints);
    var last := base.checkpoints[12].objectId;
    StageChecksAreExact(base.(checkpoints := kept));
    MatchingIsBounded(kept, REQUIRED_STAGES);
    IdsOfPrefix(base.checkpoints);
  }

  /** Distinct identities stay distinct when the last checkpoint goes. */
  lemma IdsOfPrefix(checkpoints: seq<Checkpoint>)
    requires checkpoints != [] && |Ids(checkpoints)| == |checkpoints|
    ensures |Ids(DropLast(checkpoints))| == |checkpoints| - 1
  {
    var kept := DropLast(checkpoints);
    var last := checkpoints[|checkpoints| - 1].objectId;
    assert Ids(checkpoints) == Ids(kept) + {last} by {
      assert forall i :: 0 <= i < |checkpoints| - 1 ==> kept[i] == checkpoints[i];
    }
    IdsAtMost(kept);
  }

  lemma {:induction false} IdsAtMost(checkpoints: seq<Checkpoint>)
    ensures |Ids(checkpoints)| <= |checkpoints|
  {
    if checkpoints != [] {
      var kept := DropLast(checkpoints);
      IdsAtMost(kept);
      assert Ids(checkpoints) == Ids(kept) + {checkpoints[|checkpoints| - 1].objectId} by {
        assert forall i :: 0 <= i < |checkpoints| - 1 ==> kept[i] == checkpoints[i];
      }
    }
  }

  lemma DuplicatingAnId(base: Observation)
    requires StagesAreRequired(base)
    ensures HasCodes(StageViolations(Mutated(base, DuplicateCheckpointId)), [CheckpointIdentity])
  {
    var o := Mutated(base, DuplicateCheckpointId);
    var kept := DropLast(base.checkpoints);
    assert StagesAreRequired(o);
    StageChecksAreExact(o);
    assert Ids(o.checkpoints) == Ids(kept) by {
      assert forall i :: 0 <= i < 12 ==> o.checkpoints[i] == kept[i];
      assert o.checkpoints[12].objectId == kept[0].objectId;
    }
    IdsAtMost(kept);
  }

  /** The two mutations of the checkpoints give exactly their expected codes. */
  lemma CheckpointMutationsGiveExpectedCodes(base: Observation, p: Policy, m: Mutation)
    requires base.Valid() && p.Valid() && Violations(base, p) == [] && (m.MissingFinalStage? || m.DuplicateCheckpointId?)
    ensures Matches(base, p, m)
  {
    hide Completeness, Ids;
    PassesExactlyWhen(base, p);
    if m.MissingFinalStage? {
      DroppingLastStage(base);
    } else {
      DuplicatingAnId(base);
    }
  }

  /** From a base without violations every mutation but the counter one gives exactly its expected codes, and
      that one does if there is a provider attempt to take away. */
  lemma MutationsGiveExpectedCodes(base: Observation, p: Policy, m: Mutation)
    requires base.Valid() && p.Valid() && Violations(base, p) == []
    ensures Matches(base, p, m) <==> (m.ProviderCounterRegressed? ==> base.validationEffects.provider >= 1)
  {
    hide Completeness, Ids;
    if m.MissingFinalStage? || m.DuplicateCheckpointId? {
      CheckpointMutationsGiveExpectedCodes(base, p, m);
    } else {
      PassesExactlyWhen(base, p);
    }
  }

  function CodesOf(violations: seq<Violation>): seq<Code> {
    seq(|violations|, i requires 0 <= i < |violations| => violations[i].code)
  }

  /** A mutation matches exactly if its observation is valid and the codes of its violations are the expected ones. */
  lemma MatchesExactlyWhen(base: Observation, p: Policy, m: Mutation)
    requires base.checkpoints != []
    ensures Matches(base, p, m) <==>
      ApplyMutation(base, m).Some? && CodesOf(Violations(ApplyMutation(base, m).value, p)) == Expected(m)
  {
    hide Violations, Expected, Mutated;
  }

  /** What each mutation of a clean base makes of its check: one too many, one too few, or not as required. */
  function ExpectedViolations(m: Mutation, p: Policy): seq<Violation> {
    match m
    case HappyPath => []
    case MissingFinalStage => [Violation(StageOrder, 923_076_923, BILLION), Violation(CheckpointCount, 12, 13)]
    case MissingHumanDecision => [Violation(HumanDecisions, 5, 6)]
    case MissingApproval => [Violation(Approvals, 2, 3)]
    case MissingEvidence => [Violation(EvidenceRefs, 0, p.minEvidenceRefs)]
    case ProviderCounterRegressed => [Violation(ProviderRegressed, -1, 0)]
    case AddProvider => [Violation(ProviderDelta, 1, 0)]
    case AddBroker => [Violation(BrokerDelta, 1, 0)]
    case AddRunner => [Violation(RunnerDelta, 1, 0)]
    case AddTarget => [Violation(TargetDelta, 1, 0)]
    case PublicNetworkCall => [Violation(PublicNetwork, 1, 0)]
    case BuildTarget => [Violation(TargetBuild, 1, 0)]
    case ApproveAutomatically => [Violation(AutomaticApproval, 1, 0)]
    case SubmissionCall => [Violation(Submission, 1, 0)]
    case _ => [Violation(Expected(m)[0], 0, 1)]
  }

  /** From a base without violations every mutation gives exactly its violations, with their values. */
  lemma MutationsGiveExpectedViolations(base: Observation, p: Policy, m: Mutation)
    requires base.Valid() && p.Valid() && Violations(base, p) == []
    requires m.ProviderCounterRegressed? ==> base.validationEffects.provider >= 1
    ensures ApplyMutation(base, m).Some? && Violations(ApplyMutation(base, m).value, p) == ExpectedViolations(m, p)
  {
    hide Violations;
    MutationsGiveExpectedCodes(base, p, m);
    var violations := Violations(Mutated(base, m), p);
    ViolationsAreTheFailures(Mutated(base, m), p);
    assert HasCodes(violations, Expected(m));
    forall i | 0 <= i < |violations| ensures Fails(Mutated(base, m), p, violations[i]) {
      assert violations[i] in violations;
    }
    PassesExactlyWhen(base, p);
    ValuesOfMutated(base, p, m, violations);
  }

  predicate IsCounter(m: Mutation) {
    m.AddProvider? || m.AddBroker? || m.AddRunner? || m.AddTarget? || m.ProviderCounterRegressed?
    || m.PublicNetworkCall? || m.BuildTarget? || m.ApproveAutomatically? || m.SubmissionCall?
  }

  lemma ValuesOfMutated(base: Observation, p: Policy, m: Mutation, violations: seq<Violation>)
    requires base.checkpoints != [] && HasCodes(violations, Expected(m))
    requires forall i :: 0 <= i < |violations| ==> Fails(Mutated(base, m), p, violations[i])
    requires StagesAreRequired(base) && |base.humanDecisions| == 6 && |base.approvals| == 3
    requires base.exportEffects == base.validationEffects
    requires base.publicNetworkCalls == base.targetBuilds == base.automaticApprovals == base.submissionCalls == 0
    ensures violations == ExpectedViolations(m, p)
  {
    hide Matching, Ids, Fails;
    if m.MissingFinalStage? {
      StageValues(base, p, violations);
    } else if m.HappyPath? {
      assert violations == [];
    } else if IsCounter(m) {
      assert violations == [violations[0]];
      CounterValues(base, p, m, violations[0]);
    } else {
      assert violations == [violations[0]];
      RequirementValues(base, p, m, violations[0]);
    }
  }

  lemma StageValues(base: Observation, p: Policy, violations: seq<Violation>)
    requires StagesAreRequired(base) && |violations| == 2
    requires violations[0].code == StageOrder && violations[1].code == CheckpointCount
    requires forall i :: 0 <= i < 2 ==> Fails(Mutated(base, MissingFinalStage), p, violations[i])
    ensures violations == ExpectedViolations(MissingFinalStage, p)
  {
    hide Matching, Ids;
    TwelveMatch(base);
    assert Fails(Mutated(base, MissingFinalStage), p, violations[0]) && Fails(Mutated(base, MissingFinalStage), p, violations[1]);
  }

  lemma CounterValues(base: Observation, p: Policy, m: Mutation, v: Violation)
    requires base.checkpoints != [] && IsCounter(m) && v.code == Expected(m)[0] && Fails(Mutated(base, m), p, v)
    requires base.exportEffects == base.validationEffects
    requires base.publicNetworkCalls == base.targetBuilds == base.automaticApprovals == base.submissionCalls == 0
    ensures [v] == ExpectedViolations(m, p)
  {
    hide Matching, Ids;
  }

  lemma RequirementValues(base: Observation, p: Policy, m: Mutation, v: Violation)
    requires base.checkpoints != [] && !IsCounter(m) && !m.HappyPath? && !m.MissingFinalStage?
    requires v.code == Expected(m)[0] && Fails(Mutated(base, m), p, v)
    requires |base.humanDecisions| == 6 && |base.approvals| == 3
    ensures [v] == ExpectedViolations(m, p)
  {
    hide Matching, Ids;
  }

  lemma TwelveMatch(base: Observation)
    requires StagesAreRequired(base)
    ensures Matching(DropLast(base.checkpoints), REQUIRED_STAGES) == 12
  {
    MatchingPrefix(DropLast(base.checkpoints), REQUIRED_STAGES);
  }

  lemma {:induction false} MatchingPrefix(checkpoints: seq<Checkpoint>, required: seq<Stage>)
    requires |checkpoints| <= |required| && forall i :: 0 <= i < |checkpoints| ==> checkpoints[i].stage == required[i]
    ensures Matching(checkpoints, required) == |checkpoints|
  {
    if checkpoints != [] {
      assert forall i :: 0 <= i < |checkpoints| - 1 ==> checkpoints[1..][i] == checkpoints[i + 1] && required[1..][i] == required[i + 1];
      MatchingPrefix(checkpoints[1..], required[1..]);
    }
  }

  /** The corpus passes exactly when the base observation has no violation and validation made at least one
      provider attempt, for the counter mutation needs one to take away. */
  lemma CorpusPassesExactlyWhen(base: Observation, p: Policy)
    requires base.Valid() && p.Valid()
    ensures CountMatches(base, p, MUTATIONS) == 23 <==> Violations(base, p) == [] && base.validationEffects.provider >= 1
  {
    hide Violations;
    CountIsFullWhenAllMatch(base, p, MUTATIONS);
    if Violations(base, p) == [] {
      forall m: Mutation ensures Matches(base, p, m) <==> (m.ProviderCounterRegressed? ==> base.validationEffects.provider >= 1) {
        MutationsGiveExpectedCodes(base, p, m);
      }
      assert MUTATIONS[18].ProviderCounterRegressed?;
    } else {
      assert MUTATIONS[0].HappyPath? && !Matches(base, p, HappyPath);
    }
  }

  /** A clean observation: the required stages under different identities, and all that is asked for. */
  function CleanObservation(attempts: nat): Observation {
    var effects := Effects(attempts, 0, 0, 0);
    Observation(seq(13, i requires 0 <= i < 13 => Checkpoint(REQUIRED_STAGES[i], i, i)),
                Proposed, CriticReviewed, Promoted, Reproduced, Accepted, Draft, HumanApproved, Exported,
                [0], [0, 1, 2, 3, 4, 5], [0, 1, 2], effects, effects, 0, 0, 0, 0)
  }

  lemma {:induction false} DistinctIds(checkpoints: seq<Checkpoint>)
    requires forall i, j :: 0 <= i < j < |checkpoints| ==> checkpoints[i].objectId != checkpoints[j].objectId
    ensures |Ids(checkpoints)| == |checkpoints|
  {
    if checkpoints != [] {
      var kept, last := DropLast(checkpoints), checkpoints[|checkpoints| - 1].objectId;
      DistinctIds(kept);
      assert last !in Ids(kept);
      assert Ids(checkpoints) == Ids(kept) + {last} by {
        assert forall i :: 0 <= i < |kept| ==> kept[i] == checkpoints[i];
      }
    }
  }

  /** A valid observation without a violation fails the corpus if validation made no provider attempt, and
      passes it with one. */
  lemma CleanObservationsCanFail(attempts: nat)
    ensures var o, p := CleanObservation(attempts), Policy(1);
            o.Valid() && p.Valid() && Violations(o, p) == [] && (CountMatches(o, p, MUTATIONS) == 23 <==> attempts >= 1)
  {
    hide Violations, Completeness, CountMatches, Ids;
    var o, p := CleanObservation(attempts), Policy(1);
    DistinctIds(o.checkpoints);
    PassesExactlyWhen(o, p);
    CorpusPassesExactlyWhen(o, p);
  }
}
