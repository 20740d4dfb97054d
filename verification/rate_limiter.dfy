/** The token bucket that admits requests, over exact real arithmetic. */
module RateLimiters {

  datatype Bucket = Bucket(tokens: real, capacity: real, rate: nat, last: real)

  /** What a rate earns in a time: their product, written as a sum. */
  function Earned(rate: nat, seconds: real): real {
    if rate == 0 then 0.0 else Earned(rate - 1, seconds) + seconds
  }

  lemma {:induction false} EarnedIsProduct(rate: nat, seconds: real)
    ensures Earned(rate, seconds) == rate as real * seconds
  {
    if rate > 0 {
      EarnedIsProduct(rate - 1, seconds);
      var r := (rate - 1) as real;
      assert rate as real == r + 1.0;
      assert (r + 1.0) * seconds == r * seconds + seconds;
    }
  }

  lemma {:induction false} EarnedAdds(rate: nat, s: real, t: real)
    ensures Earned(rate, s) + Earned(rate, t) == Earned(rate, s + t)
  {
    if rate > 0 {
      EarnedAdds(rate - 1, s, t);
    }
  }

  lemma {:induction false} EarnedSign(rate: nat, s: real)
    ensures (s >= 0.0 ==> Earned(rate, s) >= 0.0) && (s == 0.0 ==> Earned(rate, s) == 0.0)
  {
    if rate > 0 {
      EarnedSign(rate - 1, s);
    }
  }

  /** A full bucket; a rate or burst that makes no sense is replaced. */
  function NewBucket(tokensPerSecond: int, burst: int, now: real): (b: Bucket)
    ensures b.rate >= 1 && b.capacity >= 1.0 && Full(b)
  {
    var rate := if tokensPerSecond <= 0 then 1 else tokensPerSecond;
    var size := if burst <= 0 then rate else burst;
    Bucket(size as real, size as real, rate, now)
  }

  predicate Full(b: Bucket) {
    b.tokens == b.capacity
  }

  predicate Sane(b: Bucket) {
    0.0 <= b.tokens <= b.capacity
  }

  /** Time that has passed turns into tokens, up to the capacity; a clock that does not move, or
      moves back, changes nothing. */
  function Refill(b: Bucket, now: real): Bucket {
    if now - b.last > 0.0 then
      var more := b.tokens + Earned(b.rate, now - b.last);
      b.(tokens := if more > b.capacity then b.capacity else more, last := now)
    else b
  }

  function Allow(b: Bucket, now: real): (Bucket, bool) {
    var r := Refill(b, now);
    if r.tokens < 1.0 then (r, false) else (r.(tokens := r.tokens - 1.0), true)
  }

  // Runs --------------------------------------------------------------------------------------

  /** The bucket after calls at the given times. */
  function After(b: Bucket, times: seq<real>): Bucket {
    if times == [] then b else Allow(After(b, times[..|times| - 1]), times[|times| - 1]).0
  }

  predicate Ordered(times: seq<real>) {
    forall i, j | 0 <= i <= j < |times| :: times[i] <= times[j]
  }

  /** The tokens call `k` finds. */
  function Level(b: Bucket, times: seq<real>, k: nat): real
    requires k < |times|
  {
    Refill(After(b, times[..k]), times[k]).tokens
  }

  predicate Admitted(b: Bucket, times: seq<real>, k: nat)
    requires k < |times|
  {
    Level(b, times, k) >= 1.0
  }

  /** How many of the calls from `i` up to but not including `j` were admitted. */
  function Count(b: Bucket, times: seq<real>, i: nat, j: nat): nat
    requires j <= |times|
  {
    if j <= i then 0 else Count(b, times, i, j - 1) + (if Admitted(b, times, j - 1) then 1 else 0)
  }

  lemma RefillSane(b: Bucket, now: real)
    requires Sane(b)
    ensures Sane(Refill(b, now)) && Refill(b, now).capacity == b.capacity && Refill(b, now).rate == b.rate
    ensures Refill(b, now).tokens >= b.tokens
  {
    if now - b.last > 0.0 {
      EarnedSign(b.rate, now - b.last);
    }
  }

  /** Tokens stay between nothing and the capacity, whatever the clock does. */
  lemma {:induction false} AlwaysSane(b: Bucket, times: seq<real>)
    requires Sane(b)
    ensures Sane(After(b, times)) && After(b, times).capacity == b.capacity && After(b, times).rate == b.rate
  {
    if times != [] {
      var n := |times| - 1;
      AlwaysSane(b, times[..n]);
      RefillSane(After(b, times[..n]), times[n]);
    }
  }

  /** The state between two calls: the clock of the bucket is the last call's. */
  lemma {:induction false} LastCall(b: Bucket, times: seq<real>, k: nat)
    requires Sane(b) && Ordered(times) && k < |times| && b.last <= times[0]
    ensures After(b, times[..k + 1]).last == times[k]
    ensures After(b, times[..k + 1]).tokens == Level(b, times, k) - (if Admitted(b, times, k) then 1.0 else 0.0)
    ensures 0.0 <= Level(b, times, k) <= b.capacity
  {
    assert times[..k + 1][..k] == times[..k];
    AlwaysSane(b, times[..k]);
    RefillSane(After(b, times[..k]), times[k]);
    if k > 0 {
      LastCall(b, times, k - 1);
      assert After(b, times[..k]).last <= times[k];
    } else {
      assert times[..0] == [];
    }
  }

  /** From one call to the next: the tokens left, and the time between, up to the capacity. */
  lemma NextLevel(b: Bucket, times: seq<real>, k: nat)
    requires Sane(b) && Ordered(times) && 0 < k < |times| && b.last <= times[0]
    ensures var left := Level(b, times, k - 1) - (if Admitted(b, times, k - 1) then 1.0 else 0.0);
            var more := left + Earned(b.rate, times[k] - times[k - 1]);
            Level(b, times, k) == if more > b.capacity then b.capacity else more
  {
    LastCall(b, times, k - 1);
    AlwaysSane(b, times[..k]);
    assert After(b, times[..k]).rate == b.rate && After(b, times[..k]).last == times[k - 1];
    EarnedSign(b.rate, times[k] - times[k - 1]);
  }

  /** What a window of calls leaves of the burst and the time it took. */
  function Allowance(b: Bucket, times: seq<real>, i: nat, k: nat): real
    requires i <= k < |times|
  {
    b.capacity + Earned(b.rate, times[k] - times[i]) - Count(b, times, i, k) as real
  }

  /** No window leaves less than the bucket holds. */
  lemma {:induction false} LevelBounded(b: Bucket, times: seq<real>, i: nat, k: nat)
    requires Sane(b) && Ordered(times) && i <= k < |times| && b.last <= times[0]
    ensures Level(b, times, k) <= Allowance(b, times, i, k)
    decreases k
  {
    LastCall(b, times, k);
    EarnedSign(b.rate, times[k] - times[i]);
    if i < k {
      LevelBounded(b, times, i, k - 1);
      NextLevel(b, times, k);
      EarnedAdds(b.rate, times[k - 1] - times[i], times[k] - times[k - 1]);
    }
  }

  /** Some window leaves exactly what the bucket holds, if it began full. */
  lemma {:induction false} LevelReached(b: Bucket, times: seq<real>, k: nat) returns (i: nat)
    requires Sane(b) && Full(b) && Ordered(times) && k < |times| && b.last <= times[0]
    ensures i <= k && Level(b, times, k) == Allowance(b, times, i, k)
    decreases k
  {
    if k == 0 {
      i := 0;
      assert times[..0] == [];
      EarnedSign(b.rate, times[0] - b.last);
      EarnedSign(b.rate, times[0] - times[0]);
    } else {
      NextLevel(b, times, k);
      if Level(b, times, k) == b.capacity {
        i := k;
        EarnedSign(b.rate, times[k] - times[k]);
      } else {
        i := LevelReached(b, times, k - 1);
        EarnedAdds(b.rate, times[k - 1] - times[i], times[k] - times[k - 1]);
      }
    }
  }

  // Main results --------------------------------------------------------------------------------

  /** Bounded admission: from any call to any later call, at most the burst and what the time
      between them brings is admitted. */
  lemma {:induction false} BoundedAdmission(b: Bucket, times: seq<real>, i: nat, k: nat)
    requires Sane(b) && Ordered(times) && i <= k < |times| && b.last <= times[0]
    ensures Count(b, times, i, k + 1) as real <= b.capacity + Earned(b.rate, times[k] - times[i])
  {
    LevelBounded(b, times, i, k);
    LastCall(b, times, k);
  }

  /** And no call is refused without need: a bucket that began full refuses a call exactly when
      admitting it would break the bound for some window ending there. */
  lemma {:induction false} RefusedExactly(b: Bucket, times: seq<real>, k: nat)
    requires Sane(b) && Full(b) && Ordered(times) && k < |times| && b.last <= times[0]
    ensures !Admitted(b, times, k) <==>
              exists i :: 0 <= i <= k && Count(b, times, i, k) as real + 1.0 > b.capacity + Earned(b.rate, times[k] - times[i])
  {
    if Admitted(b, times, k) {
      forall i: nat | i <= k ensures Count(b, times, i, k) as real + 1.0 <= b.capacity + Earned(b.rate, times[k] - times[i]) {
        LevelBounded(b, times, i, k);
      }
    } else {
      var i := LevelReached(b, times, k);
      assert Count(b, times, i, k) as real + 1.0 > b.capacity + Earned(b.rate, times[k] - times[i]);
    }
  }

  class RateLimiter {
    var tokens: real
    var capacity: real
    var tokensPerSecond: nat
    var lastRefill: real
    ghost const start: Bucket
    ghost var calls: seq<real>

    ghost predicate Valid()
      reads this
    {
      Sane(start) && Bucket(tokens, capacity, tokensPerSecond, lastRefill) == After(start, calls)
    }

    constructor (perSecond: int, burst: int, now: real)
      ensures Valid() && calls == [] && start == NewBucket(perSecond, burst, now)
    {
      var rate := perSecond;
      if rate <= 0 {
        rate := 1;
      }
      var size := burst;
      if size <= 0 {
        size := rate;
      }
      tokens, capacity, tokensPerSecond, lastRefill := size as real, size as real, rate, now;
      start := NewBucket(perSecond, burst, now);
      calls := [];
    }

    static method Product(rate: nat, seconds: real) returns (r: real)
      ensures r == Earned(rate, seconds)
    {
      EarnedIsProduct(rate, seconds);
      return rate as real * seconds;
    }

    /** One request: admitted exactly if the run so far leaves a token for it. */
    method Admit(now: real) returns (ok: bool)
      requires Valid()
      modifies this
      ensures Valid() && calls == old(calls) + [now] && ok == Admitted(start, calls, |calls| - 1)
    {
      ghost var before := After(start, calls);
      var elapsed := now - lastRefill;
      if elapsed > 0.0 {
        var more := Product(tokensPerSecond, elapsed);
        tokens := tokens + more;
        if tokens > capacity {
          tokens := capacity;
        }
        lastRefill := now;
      }
      ok := tokens >= 1.0;
      assert (calls + [now])[..|calls|] == calls;
      calls := calls + [now];
      if ok {
        tokens := tokens - 1.0;
      }
    }
  }
}
