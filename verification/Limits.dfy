/**
 The sliding-window rate limiter: app/api/limits.py.

 The reference is the history: a request is admitted when fewer than `limit` admissions of the same client lie in
 the half-open interval (now - window, now]. The deques of the limiter refine it.
 */
module Limits {

  /** Drops the leading hits at or before `cutoff`, as the `popleft` loop does. */
  function Expire(hits: seq<real>, cutoff: real): seq<real> {
    if hits != [] && hits[0] <= cutoff then Expire(hits[1..], cutoff) else hits
  }

  function Hits(seen: map<string, seq<real>>, client: string): seq<real> {
    if client in seen then seen[client] else []
  }

  class SlidingWindow {
    const limit: nat
    const window: real
    var seen: map<string, seq<real>>

    constructor (limit: nat, window: real)
      ensures this.limit == limit && this.window == window && seen == map[]
    {
      this.limit, this.window, seen := limit, window, map[];
    }

    method Allows(client: string, moment: real) returns (allowed: bool)
      modifies this
      ensures allowed <==> |Expire(Hits(old(seen), client), moment - window)| < limit
      ensures seen == After(old(seen), limit, window, Request(client, moment))
    {
      var hits := Hits(seen, client);
      seen := seen[client := hits];
      while hits != [] && hits[0] <= moment - window
        invariant Expire(hits, moment - window) == Expire(Hits(old(seen), client), moment - window)
        invariant seen == old(seen)[client := hits]
        decreases |hits|
      {
        hits := hits[1..];
        seen := seen[client := hits];
      }
      if |hits| >= limit {
        return false;
      }
      seen := seen[client := hits + [moment]];
      return true;
    }
  }

  datatype Request = Request(client: string, moment: real)

  /** The limiter's answer and its next state. */
  predicate Admits(seen: map<string, seq<real>>, limit: nat, window: real, r: Request) {
    |Expire(Hits(seen, r.client), r.moment - window)| < limit
  }

  function After(seen: map<string, seq<real>>, limit: nat, window: real, r: Request): map<string, seq<real>> {
    var live := Expire(Hits(seen, r.client), r.moment - window);
    seen[r.client := if |live| < limit then live + [r.moment] else live]
  }

  function Run(limit: nat, window: real, requests: seq<Request>): map<string, seq<real>> {
    if requests == [] then map[]
    else After(Run(limit, window, requests[..|requests| - 1]), limit, window, requests[|requests| - 1])
  }

  /** The moments of the client's requests that the limiter lets through. */
  function LetThrough(limit: nat, window: real, requests: seq<Request>, client: string): seq<real> {
    if requests == [] then []
    else
      var r, before := requests[|requests| - 1], requests[..|requests| - 1];
      LetThrough(limit, window, before, client)
      + if r.client == client && Admits(Run(limit, window, before), limit, window, r) then [r.moment] else []
  }

  // ---------- The history ----------

  /** How many of the moments lie in (lo, hi]. */
  function Count(moments: seq<real>, lo: real, hi: real): nat {
    if moments == [] then 0
    else Count(moments[..|moments| - 1], lo, hi) + if lo < moments[|moments| - 1] <= hi then 1 else 0
  }

  /** As many as there are positions that hold such a moment: after `lo`, and `hi` itself included. */
  lemma {:induction false} CountCounts(moments: seq<real>, lo: real, hi: real)
    ensures Count(moments, lo, hi) == |set i | 0 <= i < |moments| && moments[i] > lo && moments[i] <= hi|
  {
    if moments != [] {
      var n := |moments| - 1;
      CountCounts(moments[..n], lo, hi);
      var before := set i | 0 <= i < n && moments[..n][i] > lo && moments[..n][i] <= hi;
      var all := set i | 0 <= i < |moments| && moments[i] > lo && moments[i] <= hi;
      assert all == if moments[n] > lo && moments[n] <= hi then before + {n} else before;
    }
  }

  /** The admitted moments of a client, by the rule on the history. */
  function Admitted(limit: nat, window: real, requests: seq<Request>, client: string): seq<real> {
    if requests == [] then []
    else
      var r := requests[|requests| - 1];
      var earlier := Admitted(limit, window, requests[..|requests| - 1], client);
      if r.client == client && Count(earlier, r.moment - window, r.moment) < limit then earlier + [r.moment]
      else earlier
  }

  /** `time.monotonic`: a later request carries no earlier moment. */
  predicate Monotone(requests: seq<Request>) {
    forall i, j :: 0 <= i < j < |requests| ==> requests[i].moment <= requests[j].moment
  }

  predicate Ascending(moments: seq<real>) {
    forall i, j :: 0 <= i < j < |moments| ==> moments[i] <= moments[j]
  }

  lemma {:induction false} AdmittedBound(limit: nat, window: real, requests: seq<Request>, client: string, bound: real)
    requires forall r <- requests :: r.moment <= bound
    ensures forall m <- Admitted(limit, window, requests, client) :: m <= bound
  {
    if requests != [] {
      assert forall r <- requests[..|requests| - 1] :: r in requests;
      AdmittedBound(limit, window, requests[..|requests| - 1], client, bound);
      assert requests[|requests| - 1] in requests;
    }
  }

  lemma {:induction false} AdmittedAscend(limit: nat, window: real, requests: seq<Request>, client: string)
    requires Monotone(requests)
    ensures Ascending(Admitted(limit, window, requests, client))
  {
    if requests != [] {
      var n := |requests| - 1;
      var earlier := Admitted(limit, window, requests[..n], client);
      AdmittedAscend(limit, window, requests[..n], client);
      AdmittedBound(limit, window, requests[..n], client, requests[n].moment);
      assert forall i :: 0 <= i < |earlier| ==> earlier[i] in earlier;
    }
  }

  lemma {:induction false} ExpireAppend(hits: seq<real>, m: real, cutoff: real)
    ensures Expire(hits + [m], cutoff) ==
            if Expire(hits, cutoff) == [] then Expire([m], cutoff) else Expire(hits, cutoff) + [m]
  {
    if hits == [] {
      assert hits + [m] == [m];
    } else {
      assert (hits + [m])[1..] == hits[1..] + [m];
      ExpireAppend(hits[1..], m, cutoff);
    }
  }

  lemma {:induction false} ExpireTwice(hits: seq<real>, first: real, second: real)
    requires first <= second
    ensures Expire(Expire(hits, first), second) == Expire(hits, second)
  {
    if hits != [] && hits[0] <= first {
      ExpireTwice(hits[1..], first, second);
    }
  }

  lemma {:induction false} CountIsExpire(moments: seq<real>, lo: real, hi: real)
    requires Ascending(moments) && forall m <- moments :: m <= hi
    ensures Count(moments, lo, hi) == |Expire(moments, lo)|
  {
    if moments != [] {
      var n := |moments| - 1;
      assert moments == moments[..n] + [moments[n]] && moments[n] in moments;
      CountIsExpire(moments[..n], lo, hi);
      ExpireAppend(moments[..n], moments[n], lo);
      if moments[n] <= lo && Expire(moments[..n], lo) != [] {
        ExpireKeepsLater(moments[..n], lo);
      }
    }
  }

  lemma {:induction false} ExpireKeepsLater(moments: seq<real>, cutoff: real)
    requires Expire(moments, cutoff) != []
    ensures exists m <- moments :: m > cutoff
  {
    if moments[0] <= cutoff {
      ExpireKeepsLater(moments[1..], cutoff);
      var m :| m in moments[1..] && m > cutoff;
      assert m in moments;
    } else {
      assert moments[0] in moments;
    }
  }

  /** The deque of a client agrees with its admissions, as far as any later request will look. */
  ghost predicate Agrees(limit: nat, window: real, requests: seq<Request>, client: string, from: real) {
    forall cutoff: real :: cutoff >= from - window ==>
      Expire(Hits(Run(limit, window, requests), client), cutoff)
      == Expire(Admitted(limit, window, requests, client), cutoff)
  }

  lemma AdmittedStep(limit: nat, window: real, requests: seq<Request>, client: string)
    requires requests != []
    ensures var n := |requests| - 1;
            var r, earlier := requests[n], Admitted(limit, window, requests[..n], client);
            Admitted(limit, window, requests, client) ==
            if r.client == client && Count(earlier, r.moment - window, r.moment) < limit then earlier + [r.moment]
            else earlier
  {
  }

  lemma AgreesStep(limit: nat, window: real, before: seq<Request>, requests: seq<Request>, r: Request)
    requires Monotone(before) && forall q <- before :: q.moment <= r.moment
    requires requests != [] && requests[..|requests| - 1] == before && requests[|requests| - 1] == r
    requires Agrees(limit, window, before, r.client, r.moment)
    ensures Agrees(limit, window, requests, r.client, r.moment)
  {
    hide Admitted, Monotone, Count;
    AnswerAgrees(limit, window, before, r);
    AdmittedStep(limit, window, requests, r.client);
    var hits := Hits(Run(limit, window, before), r.client);
    var admitted := Admitted(limit, window, before, r.client);
    var live := Expire(hits, r.moment - window);
    forall cutoff: real | cutoff >= r.moment - window
      ensures Expire(Hits(Run(limit, window, requests), r.client), cutoff)
              == Expire(Admitted(limit, window, requests, r.client), cutoff)
    {
      assert Expire(hits, cutoff) == Expire(admitted, cutoff);
      ExpireTwice(hits, r.moment - window, cutoff);
      ExpireAppend(live, r.moment, cutoff);
      ExpireAppend(admitted, r.moment, cutoff);
    }
  }

  lemma {:induction false} DequesAgree(limit: nat, window: real, requests: seq<Request>, client: string, from: real)
    requires Monotone(requests) && forall r <- requests :: r.moment <= from
    ensures Agrees(limit, window, requests, client, from)
  {
    if requests != [] {
      var n := |requests| - 1;
      var r, before := requests[n], requests[..n];
      assert r in requests;
      DequesAgree(limit, window, before, client, r.moment);
      if r.client == client {
        AgreesStep(limit, window, before, requests, r);
      } else {
        assert Hits(Run(limit, window, requests), client) == Hits(Run(limit, window, before), client);
        assert Admitted(limit, window, requests, client) == Admitted(limit, window, before, client);
      }
    }
  }

  lemma AnswerAgrees(limit: nat, window: real, before: seq<Request>, r: Request)
    requires Monotone(before) && forall q <- before :: q.moment <= r.moment
    requires Agrees(limit, window, before, r.client, r.moment)
    ensures Admits(Run(limit, window, before), limit, window, r) <==>
            Count(Admitted(limit, window, before, r.client), r.moment - window, r.moment) < limit
  {
    hide Admitted, Count, Run;
    AdmittedAscend(limit, window, before, r.client);
    AdmittedBound(limit, window, before, r.client, r.moment);
    CountIsExpire(Admitted(limit, window, before, r.client), r.moment - window, r.moment);
  }

  /** The limiter refines the history: after any requests, the next one is refused exactly when `limit` admissions
      of its client already lie in (now - window, now]. */
  lemma LimiterRefinesHistory(limit: nat, window: real, before: seq<Request>, r: Request)
    requires Monotone(before + [r])
    ensures Admits(Run(limit, window, before), limit, window, r) <==>
            Count(Admitted(limit, window, before, r.client), r.moment - window, r.moment) < limit
  {
    var all := before + [r];
    assert forall i :: 0 <= i < |before| ==> all[i] == before[i];
    assert all[|before|] == r;
    DequesAgree(limit, window, before, r.client, r.moment);
    AnswerAgrees(limit, window, before, r);
  }

  /** What the limiter lets through is what the rule on the history admits. */
  lemma {:induction false} LetThroughIsAdmitted(limit: nat, window: real, requests: seq<Request>, client: string)
    requires Monotone(requests)
    ensures LetThrough(limit, window, requests, client) == Admitted(limit, window, requests, client)
  {
    if requests != [] {
      hide Admits, Admitted, Count, Run;
      var r, before := requests[|requests| - 1], requests[..|requests| - 1];
      LetThroughIsAdmitted(limit, window, before, client);
      assert before + [r] == requests;
      LimiterRefinesHistory(limit, window, before, r);
      AdmittedStep(limit, window, requests, client);
    }
  }

  lemma {:induction false} CountMonotone(moments: seq<real>, lo: real, hi: real, lo': real, hi': real)
    requires lo' <= lo && forall m <- moments :: m <= hi'
    ensures Count(moments, lo, hi) <= Count(moments, lo', hi')
  {
    if moments != [] {
      var n := |moments| - 1;
      assert moments[n] in moments;
      forall m | m in moments[..n] ensures m <= hi' {
        assert m in moments;
      }
      CountMonotone(moments[..n], lo, hi, lo', hi');
    }
  }

  lemma CountOfOneMore(moments: seq<real>, m: real, lo: real, hi: real)
    ensures Count(moments + [m], lo, hi) == Count(moments, lo, hi) + if lo < m <= hi then 1 else 0
  {
    assert (moments + [m])[..|moments|] == moments;
  }

  /** No half-open interval of the window's length, wherever it ends, holds more than `limit` requests of a client
      that the limiter let through. */
  lemma {:induction false} EveryWindowHolds(limit: nat, window: real, requests: seq<Request>, client: string, t: real)
    requires Monotone(requests)
    ensures Count(LetThrough(limit, window, requests, client), t - window, t) <= limit
  {
    LetThroughIsAdmitted(limit, window, requests, client);
    EveryWindowAdmits(limit, window, requests, client, t);
  }

  lemma {:induction false} EveryWindowAdmits(limit: nat, window: real, requests: seq<Request>, client: string, t: real)
    requires Monotone(requests)
    ensures Count(Admitted(limit, window, requests, client), t - window, t) <= limit
  {
    if requests != [] {
      var n := |requests| - 1;
      var r, before := requests[n], requests[..n];
      EveryWindowAdmits(limit, window, before, client, t);
      hide Admitted, Count;
      var earlier := Admitted(limit, window, before, client);
      AdmittedStep(limit, window, requests, client);
      CountOfOneMore(earlier, r.moment, t - window, t);
      if t - window < r.moment <= t {
        AdmittedBound(limit, window, before, client, r.moment);
        CountMonotone(earlier, t - window, t, r.moment - window, r.moment);
      }
    }
  }

  function Of(requests: seq<Request>, client: string): seq<Request> {
    if requests == [] then []
    else
      var r := requests[|requests| - 1];
      Of(requests[..|requests| - 1], client) + if r.client == client then [r] else []
  }

  lemma HitsAfter(limit: nat, window: real, x: map<string, seq<real>>, y: map<string, seq<real>>, r: Request,
                  client: string)
    requires Hits(x, client) == Hits(y, client)
    ensures Hits(After(x, limit, window, r), client) ==
            if r.client == client then Hits(After(y, limit, window, r), client) else Hits(y, client)
  {
  }

  /** A request of the client is the last of its own, and another client's is not among them. */
  lemma OfStep(requests: seq<Request>, client: string)
    requires requests != []
    ensures var n, own := |requests| - 1, Of(requests, client);
            if requests[n].client == client then
              own != [] && own[..|own| - 1] == Of(requests[..n], client) && own[|own| - 1] == requests[n]
            else own == Of(requests[..n], client)
  {
  }

  lemma {:induction false} AdmissionsAreIndependent(limit: nat, window: real, requests: seq<Request>, client: string)
    ensures Admitted(limit, window, requests, client) == Admitted(limit, window, Of(requests, client), client)
  {
    if requests != [] {
      hide Of, Count;
      AdmissionsAreIndependent(limit, window, requests[..|requests| - 1], client);
      OfStep(requests, client);
    }
  }

  /** What a client is allowed depends on that client's requests alone. */
  lemma {:induction false} ClientsAreIndependent(limit: nat, window: real, requests: seq<Request>, client: string)
    ensures Admitted(limit, window, requests, client) == Admitted(limit, window, Of(requests, client), client)
    ensures Hits(Run(limit, window, requests), client) == Hits(Run(limit, window, Of(requests, client)), client)
  {
    AdmissionsAreIndependent(limit, window, requests, client);
    if requests != [] {
      var n := |requests| - 1;
      var r, before := requests[n], requests[..n];
      hide Of, Admitted, After, Hits;
      OfStep(requests, client);
      ClientsAreIndependent(limit, window, before, client);
      HitsAfter(limit, window, Run(limit, window, before), Run(limit, window, Of(before, client)), r, client);
    }
  }
}
