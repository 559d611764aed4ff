/** The per-route rate limit: a guard that counts each caller's requests to a route
    in a key-value store and refuses them once the route's limit is reached. */
module RateLimit {
  import opened Common

  /** The options a handler is decorated with: the window in seconds and the number
      of requests allowed in it. */
  datatype RateLimitOptions = RateLimitOptions(ttl: nat, limit: int)

  /** The parts of an HTTP request the guard reads; `userId` is absent for an
      unauthenticated caller. */
  datatype Request = Request(userId: Option<string>, ip: string, routePath: string)

  /** Whether the request may proceed; a refusal carries the body of the 429 error. */
  datatype Verdict =
    | Allowed
    | TooManyRequests(statusCode: nat, message: string, retryAfter: nat)

  const TooManyRequestsStatus: nat := 429
  const TooManyRequestsMessage: string := "Too many requests. Please try again later."
  const KeyPrefix: string := "rate_limit:"

  /** `getIdentifier`: the user id when it is a non-empty string, otherwise the IP. */
  function Identifier(request: Request): (r: string)
    ensures request.userId.Some? && request.userId.value != "" ==> r == request.userId.value
    ensures request.userId.None? || request.userId.value == "" ==> r == request.ip
  {
    if request.userId.Some? && request.userId.value != "" then request.userId.value else request.ip
  }

  /** The store key of a caller on a route. */
  function Key(request: Request): string {
    KeyPrefix + Identifier(request) + ":" + request.routePath
  }

  /** One caller's counters on two routes are the same counter only when the routes are. */
  lemma KeySeparatesRoutes(a: Request, b: Request)
    requires Identifier(a) == Identifier(b)
    ensures Key(a) == Key(b) <==> a.routePath == b.routePath
  {
    var head := KeyPrefix + Identifier(a) + ":";
    assert Key(a) == head + a.routePath && Key(b) == head + b.routePath;
    if Key(a) == Key(b) {
      assert a.routePath == Key(a)[|head|..];
    }
  }

  /** How many requests one window admits: the limit, but never fewer than the first. */
  function Capacity(limit: int): (r: nat)
    ensures r >= 1
  {
    if limit >= 1 then limit else 1
  }

  /** One request against the counters: the verdict and the counters afterwards. */
  function Decide(counters: map<string, nat>, options: Option<RateLimitOptions>, request: Request)
    : (r: (Verdict, map<string, nat>))
    ensures options.None? ==> r == (Allowed, counters)
    ensures r.0.TooManyRequests? ==>
      options.Some? && r.0 == TooManyRequests(TooManyRequestsStatus, TooManyRequestsMessage, options.value.ttl)
    ensures r.0.TooManyRequests? ==> r.1 == counters
    ensures forall k :: k in counters && k != Key(request) ==> k in r.1 && r.1[k] == counters[k]
    ensures forall k :: k in r.1 ==> k in counters || k == Key(request)
  {
    if options.None? then (Allowed, counters)
    else
      var key := Key(request);
      if key !in counters then (Allowed, counters[key := 1])
      else if counters[key] >= options.value.limit then
        (TooManyRequests(TooManyRequestsStatus, TooManyRequestsMessage, options.value.ttl), counters)
      else (Allowed, counters[key := counters[key] + 1])
  }

  /** A limited request is refused exactly when its caller's count has reached the
      limit; a refusal keeps the count, an admission starts it at 1 or adds one. */
  lemma DecideCounts(counters: map<string, nat>, options: RateLimitOptions, request: Request)
    ensures var (v, after) := Decide(counters, Some(options), request);
      var key := Key(request);
      (v.TooManyRequests? <==> key in counters && counters[key] >= options.limit) &&
      key in after &&
      after[key] == (if key !in counters then 1 else if v.TooManyRequests? then counters[key] else counters[key] + 1)
  {
  }

  /** The same caller making `n` requests in a row to the same route, within one window. */
  function Burst(counters: map<string, nat>, options: Option<RateLimitOptions>, request: Request, n: nat)
    : (r: (seq<Verdict>, map<string, nat>))
    ensures |r.0| == n
  {
    if n == 0 then ([], counters)
    else
      var (verdicts, mid) := Burst(counters, options, request, n - 1);
      var (v, after) := Decide(mid, options, request);
      (verdicts + [v], after)
  }

  /** Counter `key` holds `count` after some requests, or is still absent when there were none. */
  predicate CountIs(after: map<string, nat>, key: string, n: nat, count: nat) {
    if n == 0 then key !in after else key in after && after[key] == count
  }

  /** The count after `n` requests from a fresh start: it climbs by one per admitted
      request and stops at the capacity. */
  lemma {:induction false} BurstCount(counters: map<string, nat>, options: RateLimitOptions, request: Request, n: nat)
    requires Key(request) !in counters
    ensures CountIs(Burst(counters, Some(options), request, n).1, Key(request), n,
                    if n <= Capacity(options.limit) then n else Capacity(options.limit))
  {
    if n > 0 {
      BurstCount(counters, options, request, n - 1);
      var mid := Burst(counters, Some(options), request, n - 1).1;
      DecideCounts(mid, options, request);
    }
  }

  /** Exactly the first `cap` verdicts admit. */
  predicate AdmitsFirst(verdicts: seq<Verdict>, cap: nat) {
    forall i :: 0 <= i < |verdicts| ==> (verdicts[i].Allowed? <==> i < cap)
  }

  /** Within one window a fresh caller gets exactly `Capacity(limit)` requests through:
      `limit` of them when the limit is positive, and still the first one when it is not. */
  lemma {:induction false} BurstAdmitsCapacity(counters: map<string, nat>, options: RateLimitOptions, request: Request, n: nat)
    requires Key(request) !in counters
    ensures AdmitsFirst(Burst(counters, Some(options), request, n).0, Capacity(options.limit))
  {
    if n > 0 {
      BurstAdmitsCapacity(counters, options, request, n - 1);
      BurstCount(counters, options, request, n - 1);
      var before := Burst(counters, Some(options), request, n - 1).0;
      var mid := Burst(counters, Some(options), request, n - 1).1;
      DecideCounts(mid, options, request);
      var v := Decide(mid, Some(options), request).0;
      var verdicts := Burst(counters, Some(options), request, n).0;
      assert verdicts == before + [v];
      assert v.Allowed? <==> n - 1 < Capacity(options.limit);
      forall i | 0 <= i < n ensures verdicts[i].Allowed? <==> i < Capacity(options.limit) {
        if i < n - 1 {
          assert verdicts[i] == before[i];
        }
      }
    }
  }

  /** `RateLimitGuard` over its store of counters. */
  class RateLimitGuard {
    /** The counter of every caller and route seen in the current window. */
    var counters: map<string, nat>

    constructor()
      ensures counters == map[]
    {
      counters := map[];
    }

    /** `canActivate`: no options lets the request through; otherwise an absent
        counter is set to 1, a counter at the limit refuses with 429, and any other
        is incremented. */
    method CanActivate(options: Option<RateLimitOptions>, request: Request) returns (r: Verdict)
      modifies this
      ensures (r, counters) == Decide(old(counters), options, request)
    {
      if options.None? {
        return Allowed;
      }
      var key := KeyPrefix + Identifier(request) + ":" + request.routePath;
      if key !in counters {
        counters := counters[key := 1];
        return Allowed;
      }
      var count := counters[key];
      if count >= options.value.limit {
        return TooManyRequests(TooManyRequestsStatus, TooManyRequestsMessage, options.value.ttl);
      }
      counters := counters[key := count + 1];
      r := Allowed;
    }
  }
}
