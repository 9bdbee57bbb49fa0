/** The resilient client: one breaker question, bounded retries with doubling waits, one verdict. */
module Client {
  import opened Breaker
  import opened Words

  datatype Price = Price(item: nat, amount: int)

  /** What one call of the source would give, and whether the context ends during the wait before it. */
  datatype Attempt = Attempt(cancelled: bool, prices: seq<Price>, ok: bool)

  datatype Reply = Prices(prices: seq<Price>) | CircuitOpen | ContextDone | Failed

  function Pow2(n: nat): nat { if n == 0 then 1 else 2 * Pow2(n - 1) }

  /**
   * The wait before attempt n, the base shifted left n - 1 places; a wait that wrapped around to a negative is none.
   */
  function Wait(backoff: int, n: nat): int
    requires n > 0
  {
    if backoff <= 0 || Wrap(backoff * Pow2(n - 1)) < 0 then 0 else Wrap(backoff * Pow2(n - 1))
  }

  /** The waits before attempts 1 to n. */
  function Waits(backoff: int, n: nat): int {
    if n == 0 then 0 else Waits(backoff, n - 1) + Wait(backoff, n)
  }

  /** A wait is at most the doubled base, and exactly that if and only if the shift does not overflow. */
  lemma OneWait(backoff: int, n: nat)
    requires backoff >= 0 && n > 0
    ensures 0 <= Wait(backoff, n) <= backoff * Pow2(n - 1)
    ensures Wait(backoff, n) == backoff * Pow2(n - 1) <==> backoff * Pow2(n - 1) < TWO_63
  {
    var p: int := Pow2(n - 1);
    assert backoff * p >= 0;
    WrapSame(backoff * p);
  }

  lemma Doubles(backoff: int, p: int)
    requires backoff >= 0 && p >= 0
    ensures backoff * (2 * p - 1) == backoff * (p - 1) + backoff * p && backoff * p <= backoff * (2 * p)
  {
  }

  /**
   * Main result: n waits add up to at most the base times 2^n - 1, and to exactly that if and only if the last shift
   * does not overflow.
   */
  lemma {:induction false} WaitBound(backoff: int, n: nat)
    requires backoff >= 0
    ensures Waits(backoff, n) <= backoff * (Pow2(n) - 1)
    ensures Waits(backoff, n) == backoff * (Pow2(n) - 1) <==> n == 0 || backoff * Pow2(n - 1) < TWO_63
  {
    if n > 0 {
      WaitBound(backoff, n - 1);
      OneWait(backoff, n);
      Doubles(backoff, Pow2(n - 1));
      if n > 1 {
        Doubles(backoff, Pow2(n - 2));
      }
    }
  }

  lemma {:induction false} WaitsGrow(backoff: int, m: nat, n: nat)
    requires m <= n
    ensures Waits(backoff, m) <= Waits(backoff, n)
  {
    if m < n {
      WaitsGrow(backoff, m, n - 1);
    }
  }

  /** What a fetch with r retries has waited after n of them. */
  lemma WaitedAtMost(backoff: int, n: int, r: int)
    ensures backoff >= 0 && 0 <= n <= r ==> Waits(backoff, n) <= backoff * (Pow2(r) - 1)
  {
    if backoff >= 0 && 0 <= n <= r {
      WaitsGrow(backoff, n, r);
      WaitBound(backoff, r);
    }
  }

  /** How many waits precede the end of attempt n - 1. */
  function Before(n: nat): nat { if n == 0 then 0 else n - 1 }

  class ResilientClient {
    const maxRetries: int
    const backoff: int
    const breaker: CircuitBreaker

    constructor (maxRetries: int, backoff: int, breaker: CircuitBreaker)
      ensures this.maxRetries == maxRetries && this.backoff == backoff && this.breaker == breaker
    {
      this.maxRetries, this.backoff, this.breaker := maxRetries, backoff, breaker;
    }

    /**
     * `asked` and `ended` are the breaker's clock readings. `calls` counts source calls and `waited` adds up the waits
     * asked for, including one that the context cut short.
     */
    method Fetch(attempts: nat -> Attempt, asked: int, ended: int) returns (reply: Reply, calls: nat, waited: int)
      modifies breaker
      ensures breaker.Now() ==
              Step(old(breaker.Now()), breaker.threshold, breaker.cooldown, Breaker.Fetch(asked, ended, reply.Prices?))
      ensures reply.CircuitOpen? <==> !Admits(old(breaker.Now()), breaker.cooldown, asked)
      ensures reply.CircuitOpen? ==> calls == 0 && waited == 0 && breaker.Now() == old(breaker.Now())
      ensures calls <= maxRetries + 1 || calls == 0
      ensures forall i: nat :: i < calls ==> (attempts(i).ok <==> reply.Prices? && i == calls - 1)
      ensures reply.Prices? ==>
                calls > 0 && reply.prices == attempts(calls - 1).prices && waited == Waits(backoff, Before(calls))
      ensures reply.Failed? ==>
                calls == (if maxRetries < 0 then 0 else maxRetries + 1) && waited == Waits(backoff, Before(calls))
      ensures reply.ContextDone? ==>
                0 < calls <= maxRetries && backoff > 0 && attempts(calls).cancelled && waited == Waits(backoff, calls)
      ensures forall i: nat :: 0 < i < calls && backoff > 0 ==> !attempts(i).cancelled
      ensures maxRetries < 0 ==> calls == 0 && waited == 0 && !reply.Prices?
      ensures maxRetries >= 0 && backoff >= 0 ==> waited <= backoff * (Pow2(maxRetries) - 1)
    {
      calls, waited := 0, 0;
      WaitedAtMost(backoff, 0, maxRetries);
      var ok := breaker.Allow(asked);
      if !ok { return CircuitOpen, 0, 0; }
      var attempt: nat := 0;
      while attempt <= maxRetries
        invariant calls == attempt && (attempt <= maxRetries + 1 || attempt == 0)
        invariant waited == Waits(backoff, Before(attempt))
        invariant breaker.Now() == Asked(old(breaker.Now()))
        invariant forall i: nat :: i < calls ==> !attempts(i).ok
        invariant forall i: nat :: 0 < i < calls && backoff > 0 ==> !attempts(i).cancelled
        decreases maxRetries - attempt
      {
        if attempt > 0 && backoff > 0 {
          waited := waited + Wait(backoff, attempt);
          if attempts(attempt).cancelled {
            breaker.Failure(ended);
            WaitedAtMost(backoff, attempt, maxRetries);
            return ContextDone, calls, waited;
          }
        }
        calls := calls + 1;
        if attempts(attempt).ok {
          breaker.Success();
          WaitedAtMost(backoff, attempt, maxRetries);
          return Prices(attempts(attempt).prices), calls, waited;
        }
        attempt := attempt + 1;
      }
      breaker.Failure(ended);
      WaitedAtMost(backoff, maxRetries, maxRetries);
      reply := Failed;
    }
  }
}
