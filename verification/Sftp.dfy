/**
  The SFTP pre-flight check: which errors are worth a retry, and the retry loop.
 */
module Sftp {
  import opened Api

  /**
    Go errors. `Network` is an error that implements net.Error, with what its Timeout()
    says and the error it unwraps to, if any. `Wrapped` is fmt.Errorf with %w.
   */
  datatype Error =
    | DeadlineExceeded
    | Canceled
    | Network(timeout: bool, cause: Option<Error>)
    | Plain(text: string)
    | Wrapped(text: string, inner: Error)

  /** errors.Is with one of the two context errors: anywhere in the chain. */
  predicate IsContextError(e: Error) {
    match e
    case DeadlineExceeded => true
    case Canceled => true
    case Network(_, cause) => cause.Some? && IsContextError(cause.value)
    case Plain(_) => false
    case Wrapped(_, inner) => IsContextError(inner)
  }

  /** errors.As to net.Error, then Timeout(): the first net.Error of the chain decides. */
  predicate FirstNetErrorTimesOut(e: Error) {
    match e
    case DeadlineExceeded => true
    case Canceled => false
    case Network(timeout, _) => timeout
    case Plain(_) => false
    case Wrapped(_, inner) => FirstNetErrorTimesOut(inner)
  }

  predicate IsTransientError(e: Error) {
    IsContextError(e) || FirstNetErrorTimesOut(e)
  }

  /** The error and everything it unwraps to, outermost first. */
  function Chain(e: Error): seq<Error> {
    match e
    case Network(_, cause) => if cause.Some? then [e] + Chain(cause.value) else [e]
    case Wrapped(_, inner) => [e] + Chain(inner)
    case _ => [e]
  }

  /** Errors that say of themselves whether they are timeouts; a missed deadline is one, and says so. */
  predicate SaysTimeout(e: Error) {
    e.DeadlineExceeded? || (e.Network? && e.timeout)
  }

  predicate CanTell(e: Error) {
    e.DeadlineExceeded? || e.Network?
  }

  ghost predicate FirstToTell(chain: seq<Error>, i: int) {
    0 <= i < |chain| && SaysTimeout(chain[i]) && forall j | 0 <= j < i :: !CanTell(chain[j])
  }

  /**
    What transience means for the chain of an error: it is a missed deadline or
    a cancellation somewhere, or the first error in it that can tell calls it a timeout.
   */
  lemma {:induction false} TransienceOverChain(e: Error)
    ensures IsTransientError(e)
            <==> || DeadlineExceeded in Chain(e) || Canceled in Chain(e)
                 || exists i :: FirstToTell(Chain(e), i)
  {
    ContextErrorInChain(e);
    TimeoutInChain(e);
  }

  lemma {:induction false} ContextErrorInChain(e: Error)
    ensures IsContextError(e) <==> DeadlineExceeded in Chain(e) || Canceled in Chain(e)
  {
    match e
    case Network(_, cause) =>
      if cause.Some? {
        ContextErrorInChain(cause.value);
      }
    case Wrapped(_, inner) => ContextErrorInChain(inner);
    case _ =>
  }

  lemma {:induction false} TimeoutInChain(e: Error)
    ensures FirstNetErrorTimesOut(e) <==> exists i :: FirstToTell(Chain(e), i)
  {
    assert Chain(e)[0] == e;
    if e.Wrapped? {
      TimeoutInChain(e.inner);
      TellsBehind(e, Chain(e.inner));
    } else if FirstNetErrorTimesOut(e) {
      assert FirstToTell(Chain(e), 0);
    }
  }

  lemma TellsBehind(e: Error, rest: seq<Error>)
    requires !CanTell(e)
    ensures (exists i :: FirstToTell([e] + rest, i)) <==> exists i :: FirstToTell(rest, i)
  {
    var chain := [e] + rest;
    if i :| FirstToTell(rest, i) {
      assert forall j | 0 < j <= i :: chain[j] == rest[j - 1];
      assert FirstToTell(chain, i + 1);
    }
    if i :| FirstToTell(chain, i) {
      assert forall j | 0 <= j < i :: rest[j] == chain[j + 1];
      assert FirstToTell(rest, i - 1);
    }
  }

  function WrapAll(texts: seq<string>, e: Error): Error {
    if texts == [] then e else Wrapped(texts[0], WrapAll(texts[1..], e))
  }

  /** No depth of wrapping hides a transient error or makes one up. */
  lemma {:induction false} WrappingKeepsTransience(texts: seq<string>, e: Error)
    ensures IsTransientError(WrapAll(texts, e)) == IsTransientError(e)
    ensures IsContextError(WrapAll(texts, e)) == IsContextError(e)
  {
    if texts != [] {
      WrappingKeepsTransience(texts[1..], e);
    }
  }

  const MAX_RETRIES := 3

  /** The outcome of each dial attempt, numbered from 0; None is success. */
  type Dial = nat -> Option<Error>

  /** Attempt `n` is reached and succeeds: everything before it failed, transiently. */
  ghost predicate SucceedsAt(dial: Dial, n: nat) {
    dial(n).None? && forall i: nat | i < n :: dial(i).Some? && IsTransientError(dial(i).value)
  }

  ghost predicate Reachable(dial: Dial) {
    exists n: nat | n < MAX_RETRIES :: SucceedsAt(dial, n)
  }

  /**
    At most three dials. Success iff some attempt within the bound succeeds after only
    transient errors; otherwise the first non-transient error, or the last one wrapped.
   */
  method ValidateSftpWithRetry(dial: Dial) returns (err: Option<Error>, dials: nat)
    ensures 1 <= dials <= MAX_RETRIES
    ensures err.None? <==> Reachable(dial)
    ensures err.None? ==> SucceedsAt(dial, dials - 1)
    ensures err.Some? && !IsTransientError(err.value) ==> dial(dials - 1) == err
    ensures err.Some? && IsTransientError(err.value) ==>
              dials == MAX_RETRIES && dial(MAX_RETRIES - 1).Some? && err.value == Wrapped("validation timed out", dial(MAX_RETRIES - 1).value)
    ensures forall i: nat | i < dials - 1 :: dial(i).Some? && IsTransientError(dial(i).value)
  {
    var lastErr: Option<Error> := None;
    dials := 0;
    while dials < MAX_RETRIES
      invariant 0 <= dials <= MAX_RETRIES
      invariant forall i: nat | i < dials :: dial(i).Some? && IsTransientError(dial(i).value)
      invariant dials > 0 ==> lastErr == dial(dials - 1)
    {
      lastErr := dial(dials);
      dials := dials + 1;
      if lastErr.None? {
        assert SucceedsAt(dial, dials - 1);
        return None, dials;
      }
      if !IsTransientError(lastErr.value) {
        forall n: nat | n < MAX_RETRIES ensures !SucceedsAt(dial, n) {
          assert dial(dials - 1).Some?;
        }
        return lastErr, dials;
      }
    }
    WrappingKeepsTransience(["validation timed out"], lastErr.value);
    return Some(Wrapped("validation timed out", lastErr.value)), dials;
  }
}
