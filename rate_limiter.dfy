/** The sliding-window rate limiter of the backend: a per-key queue of
    request timestamps, pruned from the front and then admitted or rejected.
    The wall clock read by the source is passed in as `now`. */
module RateLimiter {

  /** Outcome of one `check`: admitted, or the HTTP error it raises. */
  datatype Verdict = Admitted | Rejected(status: int, detail: string)

  const TooManyRequests: int := 429
  const LimitExceededDetail: string := "Rate limit exceeded. Please wait a moment and try again."

  ghost predicate Ascending(q: seq<real>) {
    forall i, j :: 0 <= i < j < |q| ==> q[i] <= q[j]
  }

  /** How many entries the `popleft` loop drops: the length of the run of
      entries at or before `cutoff` at the front of the queue. */
  function ExpiredCount(q: seq<real>, cutoff: real): (n: nat)
    ensures n <= |q|
    ensures n < |q| ==> q[n] > cutoff
    ensures forall i :: 0 <= i < n ==> q[i] <= cutoff
  {
    if q != [] && q[0] <= cutoff then 1 + ExpiredCount(q[1..], cutoff) else 0
  }

  /** The queue left by front-only pruning. */
  function Prune(q: seq<real>, cutoff: real): seq<real> {
    q[ExpiredCount(q, cutoff)..]
  }

  /** On an ascending queue, front-only pruning removes every expired entry:
      exactly the entries later than the cutoff survive. */
  lemma PruneKeepsExactlyLive(q: seq<real>, cutoff: real)
    requires Ascending(q)
    ensures forall x :: x in Prune(q, cutoff) <==> x in q && x > cutoff
  {
    var n := ExpiredCount(q, cutoff);
    if n < |q| {
      assert forall i :: n <= i < |q| ==> q[n] <= q[i];
    }
    assert q == q[..n] + q[n..];
  }

  /** The queue is ascending and holds nothing later than `now`: what a
      queue looks like when the clock never runs backwards. */
  ghost predicate InOrderUpTo(q: seq<real>, now: real) {
    Ascending(q) && forall i :: 0 <= i < |q| ==> q[i] <= now
  }

  /** Pruning, then optionally appending `now`, keeps a queue in order. */
  lemma PruneThenAppendInOrder(q: seq<real>, cutoff: real, now: real)
    requires InOrderUpTo(q, now)
    ensures InOrderUpTo(Prune(q, cutoff), now)
    ensures InOrderUpTo(Prune(q, cutoff) + [now], now)
  {
  }

  /** The queue `check` works on: `defaultdict(deque)` gives an empty one
      for a key not seen before. */
  function QueueOf(requests: map<string, seq<real>>, key: string): seq<real> {
    if key in requests then requests[key] else []
  }

  /** The admission rule applied to the pruned queue. */
  predicate Admits(pruned: seq<real>, limit: int) {
    |pruned| < limit
  }

  /** With a limit of zero (or less) nothing is ever admitted. */
  lemma NonPositiveLimitRejectsAll(pruned: seq<real>, limit: int)
    requires limit <= 0
    ensures !Admits(pruned, limit)
  {
  }

  /** Queue length bound kept by every queue of a limiter. */
  predicate WithinLimit(q: seq<real>, limit: int) {
    q == [] || |q| <= limit
  }

  /** Storing one queue within the bound keeps every queue within it. */
  lemma StoreKeepsBound(m: map<string, seq<real>>, key: string, q: seq<real>, limit: int, m': map<string, seq<real>>)
    requires forall k :: k in m ==> WithinLimit(m[k], limit)
    requires WithinLimit(q, limit) && m' == m[key := q]
    ensures forall k :: k in m' ==> WithinLimit(m'[k], limit)
  {
  }

  class SimpleRateLimiter {
    const limit: int
    const windowSeconds: int
    var requests: map<string, seq<real>>

    ghost predicate Valid()
      reads this
    {
      forall k :: k in requests ==> WithinLimit(requests[k], limit)
    }

    constructor (limit: int, windowSeconds: int)
      ensures this.limit == limit && this.windowSeconds == windowSeconds
      ensures requests == map[] && Valid()
    {
      this.limit := limit;
      this.windowSeconds := windowSeconds;
      requests := map[];
    }

    /** `check(key)` at time `now`: prune the key's queue in place, then
        reject with 429 if it still holds `limit` entries, else record `now`.
        Only the key's own queue changes (the map update below leaves every
        other key as it was); the key itself is always present afterwards,
        as `defaultdict` creates it on first access. */
    method Check(key: string, now: real) returns (v: Verdict)
      requires Valid()
      modifies this
      ensures Valid()
      ensures var pruned := Prune(QueueOf(old(requests), key), now - windowSeconds as real);
        && (v.Admitted? <==> Admits(pruned, limit))
        && requests == old(requests)[key := if v.Admitted? then pruned + [now] else pruned]
      ensures v.Rejected? ==> v == Rejected(TooManyRequests, LimitExceededDetail)
      ensures InOrderUpTo(QueueOf(old(requests), key), now) ==> InOrderUpTo(requests[key], now)
    {
      var cutoff := now - windowSeconds as real;
      var queue := QueueOf(requests, key);
      ghost var original := queue;
      ghost var dropped := 0;
      while queue != [] && queue[0] <= cutoff
        invariant dropped <= ExpiredCount(original, cutoff)
        invariant queue == original[dropped..]
        decreases |queue|
      {
        queue := queue[1..];
        dropped := dropped + 1;
      }
      assert queue == Prune(original, cutoff);
      if InOrderUpTo(original, now) {
        PruneThenAppendInOrder(original, cutoff, now);
      }
      var stored: seq<real>;
      if |queue| >= limit {
        v := Rejected(TooManyRequests, LimitExceededDetail);
        stored := queue;
      } else {
        v := Admitted;
        stored := queue + [now];
      }
      assert WithinLimit(stored, limit);
      StoreKeepsBound(requests, key, stored, limit, requests[key := stored]);
      requests := requests[key := stored];
    }
  }
}
