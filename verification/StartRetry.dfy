/** Starting an upstream session: at most three attempts, with a pause between them. */
module StartRetry {
  import opened Wrappers
  import opened Errors

  const MAX_ATTEMPTS := 3
  const RETRY_DELAYS: seq<nat> := [100, 250]   // milliseconds

  datatype Result<+T> = Ok(value: T) | Failed(error: Err)

  /** What one attempt meets: its outcome, whether the context is done by then, and what ends the pause. */
  datatype Attempt<+T> = Attempt(outcome: Result<T>, ctxDone: bool, interrupted: Option<Err>)

  predicate ShouldRetry(ctxDone: bool, e: Err, attempt: nat) {
    && attempt < MAX_ATTEMPTS - 1
    && !ctxDone
    && !Is(e, Canceled) && !Is(e, DeadlineExceeded) && !IsBlocked(e)
    && Is(e, ErrRetryableStart)
  }

  function RetryDelay(attempt: nat): nat {
    if attempt < |RETRY_DELAYS| then RETRY_DELAYS[attempt] else RETRY_DELAYS[|RETRY_DELAYS| - 1]
  }

  /** The attempt fails in a way that is tried again. */
  predicate Repeats<T>(a: Attempt<T>, attempt: nat) {
    a.outcome.Failed? && ShouldRetry(a.ctxDone, a.outcome.error, attempt)
  }

  /**
   The attempts go on exactly while they fail in a way that is tried again and the pause is
   not interrupted; the result is that of the last attempt, or the interruption.
   */
  method StartAnon<T>(world: nat -> Attempt<T>) returns (r: Result<T>, attempts: nat, waits: seq<nat>)
    ensures 1 <= attempts <= 3
    ensures forall k: nat :: k < attempts - 1 ==> Repeats(world(k), k) && world(k).interrupted == None
    ensures var last := world(attempts - 1);
      if Repeats(last, attempts - 1) then last.interrupted.Some? && r == Failed(last.interrupted.value)
      else r == last.outcome
    ensures |waits| == attempts - 1 + if Repeats(world(attempts - 1), attempts - 1) then 1 else 0
    ensures |waits| <= 2 && waits == [100, 250][..|waits|]
  {
    var lastErr := ErrRetryableStart;
    attempts, waits := 0, [];
    while attempts < MAX_ATTEMPTS
      invariant attempts < MAX_ATTEMPTS && |waits| == attempts && waits == RETRY_DELAYS[..attempts]
      invariant forall k: nat :: k < attempts ==> Repeats(world(k), k) && world(k).interrupted == None
    {
      var a := world(attempts);
      attempts := attempts + 1;
      if a.outcome.Failed? {
        lastErr := a.outcome.error;
      }
      if a.outcome.Ok? || !ShouldRetry(a.ctxDone, a.outcome.error, attempts - 1) {
        return a.outcome, attempts, waits;
      }
      waits := waits + [RetryDelay(attempts - 1)];
      if a.interrupted.Some? {
        return Failed(a.interrupted.value), attempts, waits;
      }
    }
    assert false;   // "exhausted retries" is never reported
    r := Failed(Wrap("copilot session start exhausted retries", lastErr));
  }

  /** Whether a failure is tried again depends on the chain only, and never on layers of `%w`. */
  lemma RetriesByChain(ctxDone: bool, prefixes: seq<string>, e: Err, attempt: nat)
    ensures ShouldRetry(ctxDone, e, attempt) <==>
      && attempt < 2 && !ctxDone
      && (exists i :: 0 <= i < |Chain(e)| && (Chain(e)[i].Retryable? || Chain(e)[i] == ErrRetryableStart))
      && Canceled !in Chain(e) && DeadlineExceeded !in Chain(e) && !IsBlocked(e)
    ensures ShouldRetry(ctxDone, Layers(prefixes, e), attempt) <==> ShouldRetry(ctxDone, e, attempt)
  {
    WrappingKeepsClass(prefixes, e);
    IsMeansInChain(e, ErrRetryableStart);
    SentinelInChain(e, Canceled);
    SentinelInChain(e, DeadlineExceeded);
    assert forall i :: 0 <= i < |Chain(e)| ==>
      (Matches(Chain(e)[i], ErrRetryableStart) <==> Chain(e)[i].Retryable? || Chain(e)[i] == ErrRetryableStart);
  }
}
