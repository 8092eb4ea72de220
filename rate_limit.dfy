/** The per-client request counter of backend/middleware/rate_limit.py.
    Each request names a client key; a known key has its counter incremented
    (even when the request is then refused), an unseen key starts at 1 and is
    always let through, and a request is refused with 429 exactly when the
    incremented counter exceeds `max_requests`. The TTL cache's expiry is an
    explicit removal of keys chosen by the caller. */
module RateLimit {
  import opened Wrappers

  const RateLimitExceeded := "Rate limit exceeded"

  function Min(a: int, b: int): int { if a <= b then a else b }
  function Max(a: int, b: int): int { if a >= b then a else b }

  /** The counter key: the client's host, or "unknown" without a client. */
  function ClientKey(client: Option<string>): (k: string)
    ensures client.Some? ==> k == client.value
    ensures client.None? ==> k == "unknown"
  {
    if client.Some? then client.value else "unknown"
  }

  /** The counter map after one request for `key`, and whether it is forwarded. */
  datatype Decision = Decision(cache: map<string, nat>, forward: bool)

  function Decide(cache: map<string, nat>, key: string, maxRequests: int): (d: Decision)
    ensures key in d.cache
    ensures d.cache.Keys == cache.Keys + {key}
    ensures key !in cache ==> d.cache[key] == 1 && d.forward
    ensures key in cache ==> d.cache[key] == cache[key] + 1
    ensures key in cache ==> (d.forward <==> cache[key] + 1 <= maxRequests)
    ensures forall k :: k in cache && k != key ==> d.cache[k] == cache[k]
  {
    if key in cache then
      var c := cache[key] + 1;
      Decision(cache[key := c], c <= maxRequests)
    else
      Decision(cache[key := 1], true)
  }

  /** The first request for an unseen key is forwarded whatever the limit,
      even a limit of zero or less. */
  lemma FirstRequestForwarded(cache: map<string, nat>, key: string, maxRequests: int)
    requires key !in cache
    ensures Decide(cache, key, maxRequests).forward
    ensures Decide(cache, key, maxRequests).cache[key] == 1
  {
  }

  /** Replaying a sequence of request keys from a counter map: the final map
      and, per request, whether it was forwarded. */
  datatype Trace = Trace(cache: map<string, nat>, forwards: seq<bool>)

  function Replay(cache: map<string, nat>, keys: seq<string>, maxRequests: int): (t: Trace)
    ensures |t.forwards| == |keys|
    decreases |keys|
  {
    if keys == [] then Trace(cache, [])
    else
      var t := Replay(cache, keys[..|keys| - 1], maxRequests);
      var d := Decide(t.cache, keys[|keys| - 1], maxRequests);
      Trace(d.cache, t.forwards + [d.forward])
  }

  /** How many of `keys` are `k`. */
  function Occurrences(keys: seq<string>, k: string): nat
    decreases |keys|
  {
    if keys == [] then 0
    else Occurrences(keys[..|keys| - 1], k) + (if keys[|keys| - 1] == k then 1 else 0)
  }

  /** How many requests for `k` were forwarded. */
  function ForwardedFor(keys: seq<string>, forwards: seq<bool>, k: string): nat
    requires |forwards| == |keys|
    decreases |keys|
  {
    if keys == [] then 0
    else
      ForwardedFor(keys[..|keys| - 1], forwards[..|keys| - 1], k)
        + (if keys[|keys| - 1] == k && forwards[|keys| - 1] then 1 else 0)
  }

  /** For a key with no live entry, a run of requests leaves its counter at the
      number of its requests and forwards at most max(`max_requests`, 1) of them:
      exactly min(n, max(`max_requests`, 1)). */
  lemma {:induction false} ReplayForwardsAtMost(cache: map<string, nat>, keys: seq<string>, maxRequests: int, k: string)
    requires k !in cache
    ensures var t := Replay(cache, keys, maxRequests);
      (Occurrences(keys, k) == 0 <==> k !in t.cache)
      && (k in t.cache ==> t.cache[k] == Occurrences(keys, k))
      && ForwardedFor(keys, t.forwards, k) == Min(Occurrences(keys, k), Max(maxRequests, 1))
    decreases |keys|
  {
    if keys != [] {
      var init := keys[..|keys| - 1];
      var last := keys[|keys| - 1];
      ReplayForwardsAtMost(cache, init, maxRequests, k);
      var t := Replay(cache, init, maxRequests);
      var t' := Replay(cache, keys, maxRequests);
      assert t'.forwards[..|keys| - 1] == t.forwards;
      assert t'.forwards[|keys| - 1] == Decide(t.cache, last, maxRequests).forward;
    }
  }

  /** Requests for one key never change another key's counter. */
  lemma {:induction false} ReplayOtherKeys(cache: map<string, nat>, keys: seq<string>, maxRequests: int, k: string)
    requires forall i :: 0 <= i < |keys| ==> keys[i] != k
    ensures k in Replay(cache, keys, maxRequests).cache <==> k in cache
    ensures k in cache ==> Replay(cache, keys, maxRequests).cache[k] == cache[k]
    decreases |keys|
  {
    if keys != [] {
      ReplayOtherKeys(cache, keys[..|keys| - 1], maxRequests, k);
    }
  }

  /** A response: the downstream handler's, or the 429 refusal. */
  datatype Reply<R> = Forwarded(response: R) | Limited(status: int, content: string)

  class RateLimitMiddleware {
    const maxRequests: int
    const window: int
    var cache: map<string, nat>
    /** Per live key, how many of its requests reached the downstream handler. */
    ghost var forwarded: map<string, nat>

    ghost predicate Valid()
      reads this
    {
      forwarded.Keys == cache.Keys
      && forall k :: k in cache ==>
           cache[k] >= 1 && forwarded[k] == Min(cache[k], Max(maxRequests, 1))
    }

    constructor (maxRequests: int := 100, window: int := 60)
      ensures Valid()
      ensures this.maxRequests == maxRequests && this.window == window
      ensures cache == map[]
    {
      this.maxRequests := maxRequests;
      this.window := window;
      cache := map[];
      forwarded := map[];
    }

    /** `dispatch`: count the request and either refuse it or hand it on;
        `downstream` is what `call_next` would return. */
    method Dispatch<R>(client: Option<string>, downstream: R) returns (reply: Reply<R>)
      requires Valid()
      modifies this
      ensures Valid()
      ensures var d := Decide(old(cache), ClientKey(client), maxRequests);
        cache == d.cache
        && reply == (if d.forward then Forwarded(downstream) else Limited(429, RateLimitExceeded))
      ensures reply.Limited? <==>
        ClientKey(client) in old(cache) && old(cache)[ClientKey(client)] + 1 > maxRequests
      ensures forall k :: k != ClientKey(client) && k in old(cache) ==>
        k in cache && cache[k] == old(cache)[k] && forwarded[k] == old(forwarded)[k]
      ensures forwarded[ClientKey(client)] <= Max(maxRequests, 1)
    {
      var key := ClientKey(client);
      if key in cache {
        cache := cache[key := cache[key] + 1];
        if cache[key] > maxRequests {
          return Limited(429, RateLimitExceeded);
        }
        forwarded := forwarded[key := forwarded[key] + 1];
      } else {
        cache := cache[key := 1];
        forwarded := forwarded[key := 1];
      }
      reply := Forwarded(downstream);
    }

    /** The TTL cache dropping entries whose time is up; which ones is not modelled. */
    method Expire(expired: set<string>)
      requires Valid()
      modifies this
      ensures Valid()
      ensures cache == old(cache) - expired
      ensures forwarded == old(forwarded) - expired
    {
      cache := cache - expired;
      forwarded := forwarded - expired;
    }
  }
}
