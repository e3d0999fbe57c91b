/** Retry eligibility and backoff. Delays are real numbers of seconds. */
module RetryPolicies {
  import opened Prelude

  datatype RetryStrategy = NoRetry | FixedDelay | ExponentialBackoff

  datatype RetryPolicy = RetryPolicy(
    strategy: RetryStrategy,
    maxAttempts: int,
    fixedDelay: real,
    initialBackoff: real,
    maximumBackoff: real,
    multiplier: real)
  {
    /** The checks of the constructor. */
    predicate Valid() {
      && maxAttempts >= 1
      && fixedDelay >= 0.0
      && initialBackoff >= 0.0
      && maximumBackoff >= 0.0
      && multiplier >= 1.0
      && (strategy == ExponentialBackoff ==> maximumBackoff >= initialBackoff)
    }
  }

  /** A policy whose constructor did not raise. */
  type ValidPolicy = p: RetryPolicy | p.Valid()
    witness RetryPolicy(NoRetry, 1, 0.0, 0.0, 0.0, 1.0)

  datatype RetryDecision = RetryDecision(
    shouldRetry: bool,
    attemptNumber: int,
    remainingAttempts: int,
    delay: real)

  function Power(base: real, exponent: nat): (r: real)
    requires base >= 1.0
    ensures r >= 1.0
  {
    if exponent == 0 then 1.0 else
      var rest := Power(base, exponent - 1);
      ProductAtLeast(base, rest);
      base * rest
  }

  lemma ProductAtLeast(a: real, b: real)
    requires a >= 1.0 && b >= 1.0
    ensures a * b >= b >= 1.0
  {
    assert (a - 1.0) * b >= 0.0;
  }

  lemma ProductMonotone(a: real, b: real, c: real)
    requires a >= 0.0 && b <= c
    ensures a * b <= a * c
  {
    assert a * (c - b) >= 0.0;
  }

  function CalculateDelay(policy: ValidPolicy, attemptNumber: int, shouldRetry: bool): real
    requires attemptNumber >= 1
  {
    if !shouldRetry || policy.strategy == NoRetry then 0.0
    else if policy.strategy == FixedDelay then policy.fixedDelay
    else
      var delay := policy.initialBackoff * Power(policy.multiplier, attemptNumber - 1);
      if delay <= policy.maximumBackoff then delay else policy.maximumBackoff
  }

  /** None stands for the validation error on a non-positive attempt number. */
  function Decide(policy: ValidPolicy, attemptNumber: int, retryable: bool): (r: Option<RetryDecision>)
    ensures r.None? <==> attemptNumber < 1
    ensures r.Some? ==>
              && (r.value.shouldRetry
                  <==> retryable && policy.strategy != NoRetry && attemptNumber < policy.maxAttempts)
              && r.value.attemptNumber == attemptNumber
              && r.value.remainingAttempts >= 0
              && (attemptNumber <= policy.maxAttempts
                  ==> attemptNumber + r.value.remainingAttempts == policy.maxAttempts)
              && (attemptNumber >= policy.maxAttempts ==> r.value.remainingAttempts == 0)
              && r.value.delay >= 0.0
              && (!r.value.shouldRetry ==> r.value.delay == 0.0)
  {
    if attemptNumber < 1 then None
    else
      var remaining := if policy.maxAttempts - attemptNumber > 0 then policy.maxAttempts - attemptNumber else 0;
      var shouldRetry := retryable && policy.strategy != NoRetry && attemptNumber < policy.maxAttempts;
      BackoffBounds(policy, attemptNumber);
      Some(RetryDecision(shouldRetry, attemptNumber, remaining, CalculateDelay(policy, attemptNumber, shouldRetry)))
  }

  /** Exponential delays stay between the initial and the maximum backoff. */
  lemma BackoffBounds(policy: ValidPolicy, attemptNumber: int)
    requires attemptNumber >= 1
    ensures policy.strategy == ExponentialBackoff ==>
              policy.initialBackoff <= CalculateDelay(policy, attemptNumber, true) <= policy.maximumBackoff
    ensures CalculateDelay(policy, attemptNumber, true) >= 0.0
  {
    if policy.strategy == ExponentialBackoff {
      CappedBetween(policy.initialBackoff, Power(policy.multiplier, attemptNumber - 1), policy.maximumBackoff);
    }
  }

  lemma CappedBetween(base: real, power: real, cap: real)
    requires 0.0 <= base <= cap && power >= 1.0
    ensures base <= (if base * power <= cap then base * power else cap) <= cap
  {
    assert base * (power - 1.0) >= 0.0;
    assert base * power == base * (power - 1.0) + base;
  }

  lemma {:induction false} PowerMonotone(base: real, m: nat, n: nat)
    requires base >= 1.0 && m <= n
    ensures Power(base, m) <= Power(base, n)
  {
    if m < n {
      PowerMonotone(base, m, n - 1);
      ProductAtLeast(base, Power(base, n - 1));
    }
  }

  lemma CappedMonotone(base: real, a: real, b: real, cap: real)
    requires base >= 0.0 && a <= b
    ensures (if base * a <= cap then base * a else cap) <= (if base * b <= cap then base * b else cap)
  {
    ProductMonotone(base, a, b);
  }

  /** Delays never shrink from one attempt to a later one. */
  lemma BackoffNeverShrinks(policy: ValidPolicy, earlier: int, later: int)
    requires 1 <= earlier <= later
    ensures CalculateDelay(policy, earlier, true) <= CalculateDelay(policy, later, true)
  {
    PowerMonotone(policy.multiplier, earlier - 1, later - 1);
    CappedMonotone(policy.initialBackoff, Power(policy.multiplier, earlier - 1), Power(policy.multiplier, later - 1),
                   policy.maximumBackoff);
  }

  /** Without backoff every granted delay is the fixed one, and a policy that does not retry
      waits for nothing. */
  lemma DelayWithoutBackoff(policy: ValidPolicy, attemptNumber: int)
    requires attemptNumber >= 1
    ensures policy.strategy == FixedDelay ==> CalculateDelay(policy, attemptNumber, true) == policy.fixedDelay
    ensures policy.strategy == NoRetry ==> CalculateDelay(policy, attemptNumber, true) == 0.0
  {
  }

  lemma ProductAssociates(a: real, b: real, c: real)
    ensures a * (b * c) == (a * c) * b
  {
  }

  /** Exponential delays start at the initial backoff, and each is the one before it
      times the multiplier, up to the maximum backoff. */
  lemma EachDelayMultiplies(policy: ValidPolicy, attemptNumber: int)
    requires policy.strategy == ExponentialBackoff && attemptNumber >= 1
    ensures CalculateDelay(policy, 1, true) == policy.initialBackoff
    ensures var longer := CalculateDelay(policy, attemptNumber, true) * policy.multiplier;
            CalculateDelay(policy, attemptNumber + 1, true)
              == if longer <= policy.maximumBackoff then longer else policy.maximumBackoff
  {
    var power, next := Power(policy.multiplier, attemptNumber - 1), Power(policy.multiplier, attemptNumber);
    ProductAssociates(policy.initialBackoff, policy.multiplier, power);
    ProductMonotone(policy.initialBackoff, power, next) by {
      ProductAtLeast(policy.multiplier, power);
    }
    ProductMonotone(policy.maximumBackoff, 1.0, policy.multiplier);
  }
}
