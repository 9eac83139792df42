/** Exceptions, attempt counting and backoff. */
module Retry {

  datatype Option<+T> = None | Some(value: T)

  /** The classes the scheduler and the pool ask about; everything else is Other. */
  datatype ExcClass =
    | BaseExceptionClass
    | ExceptionClass
    | CancelledClass
    | OSErrorClass
    | TimeoutErrorClass
    | OtherClass(n: nat)

  /** An exception object: the classes it is an instance of, and its identity. */
  datatype Exc = Exc(classes: set<ExcClass>, id: nat) {
    predicate IsInstance(types: set<ExcClass>) {
      classes * types != {}
    }
    predicate IsException() {
      ExceptionClass in classes
    }
    predicate IsCancelled() {
      CancelledClass in classes
    }
  }

  /** The exception recorded on an item whose execution overran its deadline. */
  const TIMEOUT_ERROR: Exc :=
    Exc({BaseExceptionClass, ExceptionClass, OSErrorClass, TimeoutErrorClass}, 0)

  datatype Strategy = Fixed | Exponential

  /** b * 2**n, by repeated doubling. */
  function Doubled(b: real, n: nat): real {
    if n == 0 then b else 2.0 * Doubled(b, n - 1)
  }

  function Pow2(n: nat): nat {
    if n == 0 then 1 else 2 * Pow2(n - 1)
  }

  lemma {:induction false} DoubledIsPower(b: real, n: nat)
    ensures Doubled(b, n) == b * (Pow2(n) as real)
  {
    if n > 0 {
      DoubledIsPower(b, n - 1);
      var x := Pow2(n - 1) as real;
      assert Pow2(n) as real == 2.0 * x;
      assert 2.0 * (b * x) == b * (2.0 * x);
    }
  }

  datatype RetryPolicy = RetryPolicy(
    maxAttempts: nat,
    retryOn: set<ExcClass>,
    backoff: real,
    strategy: Strategy,
    jitter: bool)
  {
    /** The conditions the constructor enforces. */
    predicate Valid() {
      && maxAttempts >= 1
      && backoff >= 0.0
      && retryOn != {}
      && BaseExceptionClass !in retryOn
    }

    predicate ShouldRetry(e: Exc, attempts: nat) {
      attempts < maxAttempts && e.IsInstance(retryOn)
    }

    /** The delay after `attempts` executions, before jitter. */
    function FullDelay(attempts: nat): real {
      if backoff == 0.0 then 0.0
      else if strategy == Exponential then (if attempts >= 1 then Doubled(backoff, attempts - 1) else backoff / 2.0)
      else backoff
    }

    /** d is a delay that may be drawn after `attempts` executions: full jitter makes it any
        value up to the computed delay. */
    predicate MayDelay(attempts: nat, d: real) {
      if jitter then 0.0 <= d <= FullDelay(attempts) else d == FullDelay(attempts)
    }
  }

  /** The n-th execution is followed by this delay: backoff under the fixed strategy and
      backoff * 2**(n - 1) under the exponential one; with jitter, anything from zero up to that. */
  predicate BacksOff(p: RetryPolicy, n: nat, delay: real)
    requires n >= 1
  {
    var full := if p.strategy == Fixed then p.backoff else p.backoff * (Pow2(n - 1) as real);
    if p.jitter then 0.0 <= delay <= full else delay == full
  }

  lemma DelaysInClosedForm(p: RetryPolicy, n: nat, delay: real)
    requires p.Valid() && n >= 1
    ensures p.MayDelay(n, delay) <==> BacksOff(p, n, delay)
  {
    DoubledIsPower(p.backoff, n - 1);
  }

  /** The delays of `n` consecutive waits, added up, for the exponential strategy. */
  function TotalDelay(p: RetryPolicy, n: nat): real {
    if n == 0 then 0.0 else TotalDelay(p, n - 1) + p.FullDelay(n)
  }

  lemma {:induction false} ExponentialBackoffDoubles(p: RetryPolicy, n: nat)
    requires p.strategy == Exponential
    ensures TotalDelay(p, n) == p.backoff * (Pow2(n) as real - 1.0)
  {
    TotalDelayTelescopes(p, n);
    DoubledIsPower(p.backoff, n);
    assert p.backoff * (Pow2(n) as real) - p.backoff == p.backoff * (Pow2(n) as real - 1.0);
  }

  lemma {:induction false} TotalDelayTelescopes(p: RetryPolicy, n: nat)
    requires p.strategy == Exponential
    ensures TotalDelay(p, n) == Doubled(p.backoff, n) - p.backoff
  {
    if n > 0 {
      TotalDelayTelescopes(p, n - 1);
      if p.backoff == 0.0 {
        DoublingNothing(n);
        DoublingNothing(n - 1);
      }
    }
  }

  lemma {:induction false} DoublingNothing(n: nat)
    ensures Doubled(0.0, n) == 0.0
  {
    if n > 0 {
      DoublingNothing(n - 1);
    }
  }

  lemma {:induction false} DoublingKeepsSign(b: real, n: nat)
    requires b >= 0.0
    ensures Doubled(b, n) >= b
  {
    if n > 0 {
      DoublingKeepsSign(b, n - 1);
    }
  }

  lemma FullDelayIsNonNegative(p: RetryPolicy, attempts: nat)
    requires p.Valid()
    ensures p.FullDelay(attempts) >= 0.0
  {
    if attempts >= 1 {
      DoublingKeepsSign(p.backoff, attempts - 1);
    }
  }

  lemma DelaysAreNonNegative(p: RetryPolicy, attempts: nat, d: real)
    requires p.Valid() && p.MayDelay(attempts, d)
    ensures d >= 0.0
  {
    FullDelayIsNonNegative(p, attempts);
  }
}
