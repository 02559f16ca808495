/** The redirect follower as a function of the hop counter, the base URL
    and the response: what one call of `_followRedirects` decides, and
    where a whole chain of responses leads. */
module Redirects {
  import opened Http

  /** The range test of the follower: a status is followed unless it is
      below 300 or above 399. */
  predicate IsRedirectStatus(status: int)
  {
    !(status < 300 || status > 399)
  }

  /** What one call decides, once the timeout has not fired. */
  datatype Step =
    | Final           // the response goes to the final callback
    | TooMany         // "Max redirects exceeded"
    | Hop(target: Url) // a new transport request to `target`
    | Throws          // `url.resolve` is handed a non-string Location and throws

  /** One call of the follower with `n` hops made so far and a hop limit
      `max`. The second test is the one the code performs: the expression
      `!'location' in res.headers` reads `false in res.headers`, that is,
      a header whose name is "false" is present. */
  function FollowStep(max: int, n: int, base: Url, res: Response): (s: Step)
    ensures !IsRedirectStatus(res.statusCode) ==> s == Final
    ensures s.Hop? ==> n + 1 <= max && Get(res.headers, "location").Some?
                       && Get(res.headers, "location").value.One?
                       && s.target == Resolved(base, Get(res.headers, "location").value.text)
    ensures s == TooMany <==> IsRedirectStatus(res.statusCode) && Get(res.headers, "false").None? && n + 1 > max
  {
    if !IsRedirectStatus(res.statusCode) then Final
    else if Get(res.headers, "false").Some? then Final
    else if n + 1 > max then TooMany
    else match Get(res.headers, "location")
      case Some(One(location)) => Hop(Resolved(base, location))
      case _ => Throws
  }

  /** Where a chain stands. */
  datatype ChainState =
    | Awaiting(target: Url)        // waiting for the response of `target`
    | Delivered(response: Response) // a final response reached the callback
    | Exceeded                      // stopped with "Max redirects exceeded"
    | Threw                         // stopped by an exception

  /** The state a step leads to when it is applied to `res`. */
  function Resume(s: Step, res: Response): ChainState
  {
    match s
    case Final => Delivered(res)
    case TooMany => Exceeded
    case Throws => Threw
    case Hop(t) => Awaiting(t)
  }

  /** The state reached after the follower has seen the responses `rs` in
      turn, starting at `u` with `n` hops made. */
  function Chain(max: int, rs: seq<Response>, n: int, u: Url): ChainState
    decreases |rs|
  {
    if rs == [] then Awaiting(u)
    else match FollowStep(max, n, u, rs[0])
      case Hop(t) => Chain(max, rs[1..], n + 1, t)
      case s => Resume(s, rs[0])
  }

  /** A redirect the follower does follow when the limit allows it. */
  predicate Followable(res: Response)
  {
    && IsRedirectStatus(res.statusCode)
    && Get(res.headers, "false").None?
    && Get(res.headers, "location").Some?
    && Get(res.headers, "location").value.One?
  }

  /** Feeding one more response to a chain that is waiting for `v` is one
      more step taken from `v`, with the hop count the chain has reached. */
  lemma {:induction false} ChainSnoc(max: int, rs: seq<Response>, n: int, u: Url, v: Url, r: Response)
    requires Chain(max, rs, n, u) == Awaiting(v)
    ensures Chain(max, rs + [r], n, u) == Resume(FollowStep(max, n + |rs|, v, r), r)
    decreases |rs|
  {
    if rs == [] {
      assert [r][1..] == [];
    } else {
      assert (rs + [r])[0] == rs[0];
      assert (rs + [r])[1..] == rs[1..] + [r];
      var t := FollowStep(max, n, u, rs[0]).target;
      ChainSnoc(max, rs[1..], n + 1, t, v, r);
    }
  }

  /** Up to the limit, a run of followable redirects ending in a
      non-redirect status delivers that last response. */
  lemma {:induction false} ChainWithinLimit(max: int, rs: seq<Response>, n: int, u: Url, m: nat)
    requires m < |rs| && n + m <= max
    requires forall i :: 0 <= i < m ==> Followable(rs[i])
    requires !IsRedirectStatus(rs[m].statusCode)
    ensures Chain(max, rs, n, u) == Delivered(rs[m])
    decreases m
  {
    if m > 0 {
      assert Followable(rs[0]);
      var t := FollowStep(max, n, u, rs[0]).target;
      assert forall i :: 0 <= i < m - 1 ==> rs[1..][i] == rs[i + 1];
      ChainWithinLimit(max, rs[1..], n + 1, t, m - 1);
    }
  }

  /** One redirect beyond the limit stops the chain with the limit error,
      whatever the responses that would have followed. */
  lemma {:induction false} ChainBeyondLimit(max: int, rs: seq<Response>, n: int, u: Url)
    requires n <= max && max - n < |rs|
    requires forall i :: 0 <= i < max - n ==> Followable(rs[i])
    requires IsRedirectStatus(rs[max - n].statusCode) && Get(rs[max - n].headers, "false").None?
    ensures Chain(max, rs, n, u) == Exceeded
    decreases max - n
  {
    if n < max {
      assert Followable(rs[0]);
      var t := FollowStep(max, n, u, rs[0]).target;
      assert forall i :: 0 <= i < max - n ==> rs[1..][i] == rs[i + 1];
      ChainBeyondLimit(max, rs[1..], n + 1, t);
    }
  }

  /** With the client's limit of 5, a server that keeps redirecting makes
      the request fail: the sixth redirect is not followed. */
  lemma RedirectLoopFails(rs: seq<Response>, u: Url)
    requires |rs| >= 6
    requires forall i :: 0 <= i < 6 ==> Followable(rs[i])
    ensures Chain(5, rs, 0, u) == Exceeded
  {
    ChainBeyondLimit(5, rs, 0, u);
  }

  /** With the client's limit of 5, five redirects are still followed. */
  lemma FiveRedirectsDelivered(rs: seq<Response>, u: Url)
    requires |rs| >= 6
    requires forall i :: 0 <= i < 5 ==> Followable(rs[i])
    requires !IsRedirectStatus(rs[5].statusCode)
    ensures Chain(5, rs, 0, u) == Delivered(rs[5])
  {
    ChainWithinLimit(5, rs, 0, u, 5);
  }
}
