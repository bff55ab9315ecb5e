/**
 The retry policy `fetch_otx_threats` is decorated with:
 `backoff.on_exception(backoff.expo, (RequestException, PyMongoError), max_tries=5)`.
 The call is re-attempted only after a request or database error, at most five
 attempts in all; any other exception, and the fifth failure, propagate.
 The delays between attempts are not modelled.
 */
module Retry {

  /** The exceptions an attempt can raise. */
  datatype Exception = RequestException | PyMongoError | OtherException(name: string)

  /** The outcome of one call of the decorated function. */
  datatype Attempt<+T> = Returned(value: T) | Raised(error: Exception)

  const MaxTries: nat := 5

  /** Exceptions listed in the decorator: only these trigger another attempt. */
  predicate Retryable(e: Exception) {
    e.RequestException? || e.PyMongoError?
  }

  predicate RetryableFailure<T>(a: Attempt<T>) {
    a.Raised? && Retryable(a.error)
  }

  /** What the decorated call finally yields, and how many attempts it took. */
  datatype RetryResult<+T> = RetryResult(outcome: Attempt<T>, tries: nat)

  /** Attempts `k`, `k+1`, ... where `attempt(k)` is the outcome of the (k+1)-th call. */
  function TryFrom<T>(attempt: nat -> Attempt<T>, k: nat): (r: RetryResult<T>)
    requires k < MaxTries
    ensures k < r.tries <= MaxTries
    ensures r.outcome == attempt(r.tries - 1)
    ensures forall i :: k <= i < r.tries - 1 ==> RetryableFailure(attempt(i))
    ensures r.tries < MaxTries ==> !RetryableFailure(r.outcome)
    decreases MaxTries - k
  {
    var a := attempt(k);
    if RetryableFailure(a) && k + 1 < MaxTries then TryFrom(attempt, k + 1)
    else RetryResult(a, k + 1)
  }

  /**
   The decorated call: the outcome is that of the last attempt made, every
   earlier attempt failed with a retryable error, and the attempts stop early
   only on a return or a non-retryable exception.
   */
  function OnException<T>(attempt: nat -> Attempt<T>): (r: RetryResult<T>)
    ensures 1 <= r.tries <= MaxTries
    ensures r.outcome == attempt(r.tries - 1)
    ensures forall i :: 0 <= i < r.tries - 1 ==> RetryableFailure(attempt(i))
    ensures r.tries < MaxTries ==> !RetryableFailure(r.outcome)
  {
    TryFrom(attempt, 0)
  }

  /** The first attempt that is not a retryable failure, if any within the bound. */
  predicate FirstSettledAt<T>(attempt: nat -> Attempt<T>, n: nat) {
    n < MaxTries && !RetryableFailure(attempt(n))
    && forall i :: 0 <= i < n ==> RetryableFailure(attempt(i))
  }

  /**
   The retry result is determined by the attempt outcomes: it is the first
   settled attempt when there is one within five tries, otherwise the fifth
   failure.
   */
  lemma {:induction false} RetryCharacterised<T>(attempt: nat -> Attempt<T>, n: nat)
    ensures FirstSettledAt(attempt, n) ==> OnException(attempt) == RetryResult(attempt(n), n + 1)
    ensures (forall i :: 0 <= i < MaxTries ==> RetryableFailure(attempt(i))) ==>
              OnException(attempt) == RetryResult(attempt(MaxTries - 1), MaxTries)
  {
  }

  /** Four request errors then a success: the success is returned on the fifth try. */
  lemma {:induction false} FourFailuresThenSuccess<T>(v: T)
    ensures OnException((k: nat) => if k < 4 then Raised(RequestException) else Returned(v))
         == RetryResult(Returned(v), 5)
  {
  }

  /** Failures forever: the fifth error propagates and no sixth attempt is made. */
  lemma {:induction false} FiveFailuresGiveUp<T>(e: Exception)
    requires Retryable(e)
    ensures OnException((k: nat) => Attempt<T>.Raised(e)) == RetryResult(Raised(e), 5)
  {
  }

  /** A non-retryable exception on the first try propagates at once. */
  lemma {:induction false} OtherExceptionNotRetried<T>(attempt: nat -> Attempt<T>, name: string)
    requires attempt(0) == Raised(OtherException(name))
    ensures OnException(attempt) == RetryResult(Raised(OtherException(name)), 1)
  {
  }
}
