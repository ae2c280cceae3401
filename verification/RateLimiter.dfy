/** The sliding-window rate limit of the live provider adapter. */
module RateLimiter {
  const WINDOW := 60.0

  /** Times of the last minute before `now`. */
  function Recent(times: seq<real>, now: real): seq<real> {
    if times == [] then []
    else (if now - times[0] < WINDOW then [times[0]] else []) + Recent(times[1..], now)
  }

  /** Times in the half-open minute that starts at `from`. */
  function Within(times: seq<real>, from: real): seq<real> {
    if times == [] then []
    else
      var last := |times| - 1;
      Within(times[..last], from) + (if from <= times[last] < from + WINDOW then [times[last]] else [])
  }

  ghost predicate Ascending(times: seq<real>) {
    forall i, j :: 0 <= i < j < |times| ==> times[i] <= times[j]
  }

  /** Any `limit` + 1 consecutive times span at least a minute. */
  ghost predicate Spaced(times: seq<real>, limit: nat) {
    forall i :: 0 <= i && i + limit < |times| ==> times[i + limit] - times[i] >= WINDOW
  }

  lemma {:induction false} RecentAppends(a: seq<real>, b: seq<real>, now: real)
    ensures Recent(a + b, now) == Recent(a, now) + Recent(b, now)
  {
    if a == [] {
      assert a + b == b;
    } else {
      assert (a + b)[1..] == a[1..] + b;
      RecentAppends(a[1..], b, now);
    }
  }

  /** Pruning what was pruned before gives the same as pruning the whole history. */
  lemma {:induction false} PruningTwice(times: seq<real>, before: real, now: real)
    requires before <= now
    ensures Recent(Recent(times, before), now) == Recent(times, now)
  {
    if times != [] {
      var rest := Recent(times[1..], before);
      PruningTwice(times[1..], before, now);
      if before - times[0] < WINDOW {
        assert ([times[0]] + rest)[1..] == rest;
      } else {
        assert [] + rest == rest;
      }
    }
  }

  /** In an ascending history the recent times are its tail. */
  lemma {:induction false} RecentIsTail(times: seq<real>, now: real)
    requires Ascending(times)
    ensures |Recent(times, now)| <= |times|
    ensures var kept := |Recent(times, now)|;
            && (forall i :: 0 <= i < |times| - kept ==> now - times[i] >= WINDOW)
            && (forall i :: |times| - kept <= i < |times| ==> now - times[i] < WINDOW)
  {
    if times != [] {
      RecentIsTail(times[1..], now);
      var kept := |Recent(times[1..], now)|;
      assert forall i :: 0 <= i < |times| - 1 ==> times[1..][i] == times[i + 1];
      assert kept < |times| - 1 ==> now - times[1] >= WINDOW;
    }
  }

  /** The times of a window stand next to each other. */
  lemma {:induction false} WindowIsContiguous(times: seq<real>, from: real) returns (i: nat, j: nat)
    requires Ascending(times)
    ensures Within(times, from) != [] ==>
              && i <= j < |times| && j - i + 1 == |Within(times, from)|
              && from <= times[i] && times[j] < from + WINDOW
    ensures Within(times, from) != [] ==> forall k :: j < k < |times| ==> times[k] >= from + WINDOW
    ensures Within(times, from) == [] ==> forall k :: 0 <= k < |times| ==> !(from <= times[k] < from + WINDOW)
  {
    if times == [] {
      return 0, 0;
    }
    var last := |times| - 1;
    i, j := WindowIsContiguous(times[..last], from);
    var earlier := Within(times[..last], from);
    if from <= times[last] < from + WINDOW {
      assert last > 0 ==> times[..last][last - 1] <= times[last];
      if earlier == [] {
        i := last;
      }
      j := last;
    } else if earlier != [] {
      assert times[last] >= times[j];
    }
  }

  /** No half-open minute holds more accepted requests than the limit. */
  lemma EveryWindowIsBounded(times: seq<real>, limit: nat, from: real)
    requires Ascending(times) && Spaced(times, limit)
    ensures |Within(times, from)| <= limit
  {
    var i, j := WindowIsContiguous(times, from);
    if Within(times, from) != [] {
      assert forall k :: i <= k <= j ==> times[k] - times[i] < WINDOW;
    }
  }

  lemma AcceptingKeepsSpaced(times: seq<real>, now: real, limit: nat)
    requires Ascending(times) && Spaced(times, limit) && forall i :: 0 <= i < |times| ==> times[i] <= now
    requires |Recent(times, now)| < limit
    ensures Ascending(times + [now]) && Spaced(times + [now], limit)
    ensures Recent(times + [now], now) == Recent(times, now) + [now]
  {
    RecentIsTail(times, now);
    RecentAppends(times, [now], now);
    NowIsRecent(now);
    hide Recent;
    var after := times + [now];
    forall i | 0 <= i && i + limit < |after| ensures after[i + limit] - after[i] >= WINDOW {
      if i + limit == |times| {
        assert after[i] == times[i] && i < |times| - |Recent(times, now)|;
      } else {
        assert after[i] == times[i] && after[i + limit] == times[i + limit];
      }
    }
  }

  lemma NowIsRecent(now: real)
    ensures Recent([now], now) == [now]
  {
    assert [now][1..] == [];
  }

  lemma AllWindowsAreBounded(times: seq<real>, limit: nat)
    requires Ascending(times) && Spaced(times, limit)
    ensures forall from :: |Within(times, from)| <= limit
  {
    forall from ensures |Within(times, from)| <= limit {
      EveryWindowIsBounded(times, limit, from);
    }
  }

  class Limiter {
    const maxRequestsPerMinute: nat
    var requestTimes: seq<real>
    /** Every accepted request, and the time of the last call. */
    ghost var accepted: seq<real>
    ghost var last: real

    ghost predicate Valid()
      reads this
    {
      && Ascending(accepted) && Spaced(accepted, maxRequestsPerMinute)
      && (forall i :: 0 <= i < |accepted| ==> accepted[i] <= last)
      && requestTimes == Recent(accepted, last)
    }

    constructor (limit: nat, start: real)
      requires limit >= 1
      ensures Valid() && accepted == [] && last == start && maxRequestsPerMinute == limit
    {
      maxRequestsPerMinute := limit;
      requestTimes, accepted, last := [], [], start;
    }

    /** Accepts a request exactly if the minute up to `now` is not full, looking at the pruned list only. */
    method ConsumeRateSlot(now: real) returns (ok: bool)
      requires Valid() && last <= now && maxRequestsPerMinute >= 1
      modifies this
      ensures Valid() && last == now
      ensures ok <==> |Recent(old(accepted), now)| < maxRequestsPerMinute
      ensures accepted == if ok then old(accepted) + [now] else old(accepted)
      ensures requestTimes == Recent(accepted, now)
      ensures forall from :: |Within(accepted, from)| <= maxRequestsPerMinute
    {
      hide Recent, Within, Spaced;
      PruningTwice(accepted, last, now);
      requestTimes := Recent(requestTimes, now);
      ghost var history := accepted;
      last := now;
      if |requestTimes| >= maxRequestsPerMinute {
        AllWindowsAreBounded(accepted, maxRequestsPerMinute);
        return false;
      }
      AcceptingKeepsSpaced(history, now, maxRequestsPerMinute);
      accepted := history + [now];
      requestTimes := requestTimes + [now];
      AllWindowsAreBounded(accepted, maxRequestsPerMinute);
      return true;
    }
  }
}
