/** The library's token bucket, over reals. */
module TokenBucket {

  datatype Bucket = Bucket(tokens: real, last: real)

  // Tokens per second and bucket size.
  datatype Limit = Limit(rate: real, burst: nat)

  predicate ValidLimit(l: Limit) {
    l.rate > 0.0 && l.burst >= 1
  }

  predicate ValidBucket(l: Limit, b: Bucket) {
    0.0 <= b.tokens <= l.burst as real
  }

  function Min(x: real, y: real): real {
    if x <= y then x else y
  }

  // A clock that went backwards adds nothing.
  function Elapsed(b: Bucket, now: real): real {
    if now < b.last then 0.0 else now - b.last
  }

  // Tokens on hand at `now`.
  function Available(l: Limit, b: Bucket, now: real): real {
    Min(l.burst as real, b.tokens + Elapsed(b, now) * l.rate)
  }

  predicate Allows(l: Limit, b: Bucket, cost: nat, now: real) {
    cost <= l.burst && Available(l, b, now) >= cost as real
  }

  // A refused request takes nothing.
  function Take(l: Limit, b: Bucket, cost: nat, now: real): Bucket {
    if Allows(l, b, cost, now) then Bucket(Available(l, b, now) - cost as real, now) else b
  }

  function Full(l: Limit, now: real): Bucket {
    Bucket(l.burst as real, now)
  }

  // Buckets no later request can tell apart: equal, or both full again.
  predicate Alike(l: Limit, a: Bucket, b: Bucket, now: real) {
    a == b || Available(l, a, now) == Available(l, b, now) == l.burst as real
  }

  lemma AvailableGrows(l: Limit, b: Bucket, now: real, later: real)
    requires ValidLimit(l) && ValidBucket(l, b) && now <= later
    ensures 0.0 <= Available(l, b, now) <= Available(l, b, later) <= l.burst as real
    ensures Available(l, b, later) <= Available(l, b, now) + (later - now) * l.rate
  {
    var e0, e1, d := Elapsed(b, now), Elapsed(b, later), later - now;
    Scale(l.rate, 0.0, e0);
    Scale(l.rate, e0, e1);
    Scale(l.rate, e1, e0 + d);
    Distribute(e0, d, l.rate);
    MinGrows(l.burst as real, b.tokens + e0 * l.rate, b.tokens + e1 * l.rate, d * l.rate);
  }

  lemma Distribute(x: real, y: real, rate: real)
    ensures (x + y) * rate == x * rate + y * rate
  {
  }

  lemma MinGrows(burst: real, x: real, y: real, more: real)
    requires 0.0 <= x <= y <= x + more && 0.0 <= burst
    ensures 0.0 <= Min(burst, x) <= Min(burst, y) <= burst
    ensures Min(burst, y) <= Min(burst, x) + more
  {
  }

  lemma Scale(rate: real, x: real, y: real)
    requires rate > 0.0 && x <= y
    ensures x * rate <= y * rate
  {
    assert (y - x) * rate >= 0.0;
  }

  lemma AlikeStaysAlike(l: Limit, a: Bucket, b: Bucket, now: real, later: real)
    requires ValidLimit(l) && ValidBucket(l, a) && ValidBucket(l, b) && now <= later && Alike(l, a, b, now)
    ensures Alike(l, a, b, later)
  {
    AvailableGrows(l, a, now, later);
    AvailableGrows(l, b, now, later);
  }

  // Alike buckets answer alike and stay alike.
  lemma AlikeAnswers(l: Limit, a: Bucket, b: Bucket, cost: nat, now: real)
    requires ValidLimit(l) && Alike(l, a, b, now)
    ensures Allows(l, a, cost, now) == Allows(l, b, cost, now)
    ensures Alike(l, Take(l, a, cost, now), Take(l, b, cost, now), now)
  {
  }

  lemma TakeIsValid(l: Limit, b: Bucket, cost: nat, now: real)
    requires ValidLimit(l) && ValidBucket(l, b)
    ensures ValidBucket(l, Take(l, b, cost, now))
  {
    AvailableGrows(l, b, now, now);
  }

  // A bucket untouched for `ttl` is full if the refill over that time covers the burst.
  lemma IdleRefills(l: Limit, b: Bucket, ttl: real, now: real)
    requires ValidLimit(l) && ValidBucket(l, b) && ttl >= 0.0
    requires l.rate * ttl >= l.burst as real && b.last <= now - ttl
    ensures Available(l, b, now) == l.burst as real
  {
    Scale(l.rate, ttl, now - b.last);
  }

  /******* A batch costs what its items cost *******/

  // A cost of n is admitted exactly when one and then the rest would be, and takes what they take.
  lemma CostSplits(l: Limit, b: Bucket, n: nat, now: real)
    requires ValidLimit(l) && ValidBucket(l, b) && n >= 2
    ensures var one := Take(l, b, 1, now);
            && (Allows(l, b, n, now) <==> Allows(l, b, 1, now) && Allows(l, one, n - 1, now))
            && (Allows(l, b, n, now) ==> Take(l, b, n, now) == Take(l, one, n - 1, now))
  {
    AvailableGrows(l, b, now, now);
    var one := Take(l, b, 1, now);
    if Allows(l, b, 1, now) {
      assert Available(l, one, now) == Available(l, b, now) - 1.0;
    }
  }
}
