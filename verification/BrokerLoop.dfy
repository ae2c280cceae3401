/** The Broker's redirect-following loop, which is what the handoff ledger's results come from. */
module BrokerLoop {
  import opened Options
  import opened AgentRecords

  datatype Admission = Allowed | Denied | ApprovalRequired

  datatype Hop =
    | PeerMismatch | TooLarge | TransportTimedOut | TransportFailed
    | Response(peerMatches: bool, elapsed: nat, bytes: nat, evidenceRef: string, redirect: Option<RedirectTarget>)

  datatype RedirectTarget = SafeTarget | UnsafeTarget

  /** What policy, sandbox grants, resolver and target do at each turn of the loop. */
  datatype Turn = Turn(admission: Admission, granted: bool, resolved: bool, hop: Hop)

  datatype HttpLimits = HttpLimits(
    maxRequests: nat, maxRedirects: nat, maxBytes: nat, total: nat, followRedirects: bool, credentialed: bool)

  function Result(call: BrokerCall, status: BrokerStatus, used: nat, evidence: set<string>): BrokerResult {
    BrokerResult(call, status, used, if status.Completed? then evidence else {})
  }

  /** The status a response ends the call with, or None if the redirect is followed. */
  function Settle(limits: HttpLimits, hop: Hop, elapsed: nat, bytes: nat, redirects: nat, untilDeadline: int)
    : Option<BrokerStatus>
    requires hop.Response?
  {
    if !hop.peerMatches then Some(BrokerStatus.Denied)
    else if elapsed > limits.total || elapsed >= untilDeadline then Some(TimedOut)
    else if bytes > limits.maxBytes then Some(Failed_)
    else if hop.redirect.None? then Some(Completed)
    else if limits.credentialed || !limits.followRedirects || redirects >= limits.maxRedirects then Some(BrokerStatus.Denied)
    else if hop.redirect.value.UnsafeTarget? then Some(BrokerStatus.Denied)
    else None
  }

  type Turns = nat -> Turn

  /** Time and bytes the responses of the first `n` turns took. */
  function Elapsed(turns: Turns, n: nat): nat {
    if n == 0 then 0
    else Elapsed(turns, n - 1) + (if turns(n - 1).hop.Response? then turns(n - 1).hop.elapsed else 0)
  }

  function Received(turns: Turns, n: nat): nat {
    if n == 0 then 0
    else Received(turns, n - 1) + (if turns(n - 1).hop.Response? then turns(n - 1).hop.bytes else 0)
  }

  /** How turn `k` ends the call, with the requests then made; None if it is redirected to another turn. */
  function EndOf(call: BrokerCall, limits: HttpLimits, turns: Turns, k: nat, untilDeadline: int): Option<(BrokerStatus, nat)> {
    var turn := turns(k);
    if k >= limits.maxRequests || k >= call.task.budget.toolCalls then Some((Failed_, k))
    else if turn.admission.ApprovalRequired? then Some((BrokerStatus.ApprovalRequired, k))
    else if turn.admission.Denied? || !turn.granted || !turn.resolved then Some((BrokerStatus.Denied, k))
    else
      match turn.hop
      case PeerMismatch => Some((BrokerStatus.Denied, k + 1))
      case TooLarge => Some((Failed_, k + 1))
      case TransportTimedOut => Some((TimedOut, k + 1))
      case TransportFailed => Some((Failed_, k + 1))
      case Response(_, _, _, _, _) =>
        var settled := Settle(limits, turn.hop, Elapsed(turns, k + 1), Received(turns, k + 1), k, untilDeadline);
        if settled.Some? then Some((settled.value, k + 1)) else None
  }

  /******* What each status means *******/

  /** A turn may be asked for while both request budgets last. */
  predicate MayAsk(call: BrokerCall, limits: HttpLimits, k: nat) {
    k < limits.maxRequests && k < call.task.budget.toolCalls
  }

  /** The request of the turn goes out. */
  predicate Sent(call: BrokerCall, limits: HttpLimits, turns: Turns, k: nat) {
    MayAsk(call, limits, k) && turns(k) == Turn(Admission.Allowed, true, true, turns(k).hop)
  }

  /** A response from the right peer, in time and within the bytes for all responses so far. */
  predicate Arrived(call: BrokerCall, limits: HttpLimits, turns: Turns, k: nat, untilDeadline: int) {
    && Sent(call, limits, turns, k) && turns(k).hop.Response? && turns(k).hop.peerMatches
    && Elapsed(turns, k + 1) <= limits.total && Elapsed(turns, k + 1) < untilDeadline
    && Received(turns, k + 1) <= limits.maxBytes
  }

  /** A redirect is followed to a safe target, without credentials, and while redirects last. */
  predicate Follows(limits: HttpLimits, k: nat, target: RedirectTarget) {
    limits.followRedirects && !limits.credentialed && k < limits.maxRedirects && target == SafeTarget
  }

  predicate EndsTurn(call: BrokerCall, limits: HttpLimits, turns: Turns, k: nat, untilDeadline: int, status: BrokerStatus,
                     used: nat)
  {
    var hop := turns(k).hop;
    var sent := Sent(call, limits, turns, k);
    if used == k then
      match status
      case Failed_ => !MayAsk(call, limits, k)
      case ApprovalRequired => MayAsk(call, limits, k) && turns(k).admission == Admission.ApprovalRequired
      case Denied => MayAsk(call, limits, k) && !sent && turns(k).admission != Admission.ApprovalRequired
      case _ => false
    else
      && used == k + 1 && sent
      && match status
         case Completed => Arrived(call, limits, turns, k, untilDeadline) && hop.redirect == None
         case TimedOut =>
           || hop == TransportTimedOut
           || (hop.Response? && hop.peerMatches
               && (Elapsed(turns, k + 1) > limits.total || Elapsed(turns, k + 1) >= untilDeadline))
         case Failed_ =>
           || hop == TooLarge || hop == TransportFailed
           || (hop.Response? && hop.peerMatches && Elapsed(turns, k + 1) <= limits.total
               && Elapsed(turns, k + 1) < untilDeadline && Received(turns, k + 1) > limits.maxBytes)
         case Denied =>
           || hop == PeerMismatch || (hop.Response? && !hop.peerMatches)
           || (Arrived(call, limits, turns, k, untilDeadline) && hop.redirect.Some? && !Follows(limits, k, hop.redirect.value))
         case ApprovalRequired => false
  }

  lemma TurnEndsExactlyWhen(call: BrokerCall, limits: HttpLimits, turns: Turns, k: nat, untilDeadline: int,
                            status: BrokerStatus, used: nat)
    ensures EndOf(call, limits, turns, k, untilDeadline) == Some((status, used)) <==>
              EndsTurn(call, limits, turns, k, untilDeadline, status, used)
  {
    hide Elapsed, Received;
  }

  function EvidenceOf(turns: Turns, n: nat): set<string> {
    set k | 0 <= k < n && turns(k).hop.Response? :: turns(k).hop.evidenceRef
  }

  /** What comes of a call: the status of the first turn that ends it, and the evidence of every request if that
      is a completion. */
  ghost predicate CallGives(call: BrokerCall, limits: HttpLimits, turns: Turns, untilDeadline: int, r: BrokerResult) {
    && r.callDigest == call
    && r.evidenceRefs == (if r.status == Completed then EvidenceOf(turns, r.toolCallsUsed) else {})
    && exists last: nat ::
         && EndsTurn(call, limits, turns, last, untilDeadline, r.status, r.toolCallsUsed)
         && forall j: nat, status, used :: j < last ==> !EndsTurn(call, limits, turns, j, untilDeadline, status, used)
  }

  lemma CallGivesOneResult(call: BrokerCall, limits: HttpLimits, turns: Turns, untilDeadline: int, r: BrokerResult,
                           other: BrokerResult)
    requires CallGives(call, limits, turns, untilDeadline, r) && CallGives(call, limits, turns, untilDeadline, other)
    ensures r == other
  {
    hide EndsTurn, EvidenceOf;
    var last: nat :| EndsTurn(call, limits, turns, last, untilDeadline, r.status, r.toolCallsUsed)
      && forall j: nat, status, used :: j < last ==> !EndsTurn(call, limits, turns, j, untilDeadline, status, used);
    var otherLast: nat :| EndsTurn(call, limits, turns, otherLast, untilDeadline, other.status, other.toolCallsUsed)
      && forall j: nat, status, used :: j < otherLast ==> !EndsTurn(call, limits, turns, j, untilDeadline, status, used);
    assert last == otherLast;
    TurnEndsExactlyWhen(call, limits, turns, last, untilDeadline, r.status, r.toolCallsUsed);
    TurnEndsExactlyWhen(call, limits, turns, last, untilDeadline, other.status, other.toolCallsUsed);
  }

  lemma FirstEndGives(call: BrokerCall, limits: HttpLimits, turns: Turns, untilDeadline: int, r: BrokerResult, last: nat)
    requires forall j :: 0 <= j < last ==> EndOf(call, limits, turns, j, untilDeadline).None?
    requires EndOf(call, limits, turns, last, untilDeadline) == Some((r.status, r.toolCallsUsed))
    requires r.callDigest == call
    requires r.evidenceRefs == if r.status == Completed then EvidenceOf(turns, r.toolCallsUsed) else {}
    ensures CallGives(call, limits, turns, untilDeadline, r)
  {
    hide EndsTurn, EvidenceOf, EndOf;
    TurnEndsExactlyWhen(call, limits, turns, last, untilDeadline, r.status, r.toolCallsUsed);
    forall j: nat, status, used | j < last ensures !EndsTurn(call, limits, turns, j, untilDeadline, status, used) {
      TurnEndsExactlyWhen(call, limits, turns, j, untilDeadline, status, used);
    }
  }

  /** The loop itself: it stops at the first turn that is not redirected. */
  method Follow(call: BrokerCall, limits: HttpLimits, turns: Turns, untilDeadline: int)
    returns (r: BrokerResult, last: nat)
    ensures forall j :: 0 <= j < last ==> EndOf(call, limits, turns, j, untilDeadline).None?
    ensures EndOf(call, limits, turns, last, untilDeadline) == Some((r.status, r.toolCallsUsed))
    ensures r.callDigest == call && BrokerResultOk(call.task.budget.toolCalls, r)
    ensures r.toolCallsUsed <= limits.maxRequests && r.toolCallsUsed <= limits.maxRedirects + 1
    ensures r.status.Completed? ==> forall k | 0 <= k < r.toolCallsUsed :: turns(k).hop.Response?
    ensures r.evidenceRefs == if r.status.Completed? then EvidenceOf(turns, r.toolCallsUsed) else {}
  {
    var requests, redirects, elapsed, bytes := 0, 0, 0, 0;
    var evidence := {};
    while true
      invariant requests <= limits.maxRequests && requests <= call.task.budget.toolCalls
      invariant redirects == requests <= limits.maxRedirects
      invariant elapsed == Elapsed(turns, requests) && bytes == Received(turns, requests)
      invariant forall j :: 0 <= j < requests ==> EndOf(call, limits, turns, j, untilDeadline).None?
      invariant forall k | 0 <= k < requests :: turns(k).hop.Response?
      invariant evidence == EvidenceOf(turns, requests)
      decreases limits.maxRequests - requests
    {
      last := requests;
      if requests >= limits.maxRequests || requests >= call.task.budget.toolCalls {
        return Result(call, Failed_, requests, evidence), last;
      }
      var turn := turns(requests);
      if turn.admission.ApprovalRequired? {
        return Result(call, BrokerStatus.ApprovalRequired, requests, evidence), last;
      }
      if turn.admission.Denied? || !turn.granted || !turn.resolved {
        return Result(call, BrokerStatus.Denied, requests, evidence), last;
      }
      requests := requests + 1;
      var hop := turn.hop;
      match hop {
        case PeerMismatch => return Result(call, BrokerStatus.Denied, requests, evidence), last;
        case TooLarge => return Result(call, Failed_, requests, evidence), last;
        case TransportTimedOut => return Result(call, TimedOut, requests, evidence), last;
        case TransportFailed => return Result(call, Failed_, requests, evidence), last;
        case Response(_, took, size, evidenceRef, _) =>
          elapsed, bytes := elapsed + took, bytes + size;
          var settled := Settle(limits, hop, elapsed, bytes, redirects, untilDeadline);
          evidence := evidence + {evidenceRef};
          if settled.Some? {
            return Result(call, settled.value, requests, evidence), last;
          }
          redirects := redirects + 1;
      }
    }
  }

  /** Whatever the network does, the first turn that is not redirected ends the call. A call stays within its
      tool budget and its redirects, a completed call made a request and kept the evidence of every one, and a
      call that needs Approval left part of the budget unused. `last` is the deciding turn. */
  method ExecuteHttp(call: BrokerCall, limits: HttpLimits, turns: Turns, untilDeadline: int)
    returns (r: BrokerResult, last: nat)
    ensures forall j :: 0 <= j < last ==> EndOf(call, limits, turns, j, untilDeadline).None?
    ensures EndOf(call, limits, turns, last, untilDeadline) == Some((r.status, r.toolCallsUsed))
    ensures CallGives(call, limits, turns, untilDeadline, r)
    ensures r.callDigest == call && BrokerResultOk(call.task.budget.toolCalls, r)
    ensures r.toolCallsUsed <= limits.maxRequests && r.toolCallsUsed <= limits.maxRedirects + 1
    ensures r.status.Completed? ==> forall k | 0 <= k < r.toolCallsUsed ::
              turns(k).hop.Response? && turns(k).hop.evidenceRef in r.evidenceRefs
  {
    r, last := Follow(call, limits, turns, untilDeadline);
    FirstEndGives(call, limits, turns, untilDeadline, r, last);
  }
}
