/** The retry wrapper: a bounded number of calls with a growing pause in between. */
module Retry {
  import opened Wrappers

  /** What the wrapper hands back: the first value returned, the last error raised,
      or its own error when it is configured to make no attempt at all. */
  datatype Outcome<+T, +E> = Returned(value: T, tries: nat) | Raised(error: E, tries: nat) | NoAttempts

  /** Attempts from number k on; call(k) is what the wrapped function does on its k-th call. */
  function From<T, E>(call: nat -> Result<T, E>, k: nat, attempts: nat): Outcome<T, E>
    requires 1 <= k <= attempts
    decreases attempts - k
  {
    match call(k)
    case Success(v) => Returned(v, k)
    case Failure(e) => if k == attempts then Raised(e, k) else From(call, k + 1, attempts)
  }

  function Run<T, E>(call: nat -> Result<T, E>, attempts: int): Outcome<T, E> {
    if attempts <= 0 then NoAttempts else From(call, 1, attempts)
  }

  /** The wrapper returns on the first success, raises the last error only when every
      allowed attempt failed, and never makes more attempts than configured. */
  lemma {:induction false} FromMeaning<T, E>(call: nat -> Result<T, E>, k: nat, attempts: nat)
    requires 1 <= k <= attempts
    ensures var r := From(call, k, attempts);
      && !r.NoAttempts?
      && k <= r.tries <= attempts
      && (forall j :: k <= j < r.tries ==> call(j).Failure?)
      && (r.Returned? <==> exists j :: k <= j <= attempts && call(j).Success?)
      && (r.Returned? ==> call(r.tries) == Success(r.value))
      && (r.Raised? ==> r.tries == attempts && call(attempts) == Failure(r.error))
    decreases attempts - k
  {
    if call(k).Failure? && k < attempts {
      FromMeaning(call, k + 1, attempts);
    }
  }

  lemma RunMeaning<T, E>(call: nat -> Result<T, E>, attempts: int)
    ensures var r := Run(call, attempts);
      && (r.NoAttempts? <==> attempts <= 0)
      && (r.Returned? <==> exists j :: 1 <= j <= attempts && call(j).Success?)
      && (r.Returned? ==> 1 <= r.tries <= attempts && call(r.tries) == Success(r.value)
                          && forall j :: 1 <= j < r.tries ==> call(j).Failure?)
      && (r.Raised? ==> r.tries == attempts && call(attempts) == Failure(r.error))
  {
    if attempts > 0 {
      FromMeaning(call, 1, attempts);
    }
  }

  /** The i-th pause, counted from zero. */
  function Pause(initialDelay: real, backoffFactor: real, i: nat): real {
    if i == 0 then initialDelay else Pause(initialDelay, backoffFactor, i - 1) * backoffFactor
  }

  /** Pauses that agree with Pause start with the initial delay and grow by the factor. */
  lemma PausesGrow(pauses: seq<real>, initialDelay: real, backoffFactor: real)
    requires forall i :: 0 <= i < |pauses| ==> pauses[i] == Pause(initialDelay, backoffFactor, i)
    ensures |pauses| > 0 ==> pauses[0] == initialDelay
    ensures forall i :: 0 < i < |pauses| ==> pauses[i] == pauses[i - 1] * backoffFactor
  {
    forall i | 0 < i < |pauses| ensures pauses[i] == pauses[i - 1] * backoffFactor {
      assert pauses[i - 1] == Pause(initialDelay, backoffFactor, i - 1);
    }
  }

  /** The loop itself.  pauses are the delays slept between two attempts. */
  method RetryCall<T, E>(call: nat -> Result<T, E>, attempts: int, initialDelay: real, backoffFactor: real)
    returns (r: Outcome<T, E>, pauses: seq<real>)
    ensures r == Run(call, attempts)
    ensures |pauses| == if r.NoAttempts? then 0 else r.tries - 1
    ensures forall i :: 0 <= i < |pauses| ==> pauses[i] == Pause(initialDelay, backoffFactor, i)
  {
    pauses := [];
    var delay := initialDelay;
    var attempt := 1;
    while attempt <= attempts
      invariant 1 <= attempt <= Max(attempts, 0) + 1
      invariant attempts > 0 ==> attempt <= attempts && Run(call, attempts) == From(call, attempt, attempts)
      invariant |pauses| == attempt - 1
      invariant delay == Pause(initialDelay, backoffFactor, attempt - 1)
      invariant forall i :: 0 <= i < |pauses| ==> pauses[i] == Pause(initialDelay, backoffFactor, i)
    {
      var outcome := call(attempt);
      match outcome
      case Success(v) =>
        return Returned(v, attempt), pauses;
      case Failure(e) =>
        if attempt == attempts {
          return Raised(e, attempt), pauses;
        }
        pauses := pauses + [delay];
        delay := delay * backoffFactor;
        attempt := attempt + 1;
    }
    r := NoAttempts;
  }
}
