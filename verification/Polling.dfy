/** PollUntil and WaitForPolledState of internal/http/poll.go. */
module Polling {
  /** What one call of isSettled returns. */
  datatype Observation<T> = Settled(value: T) | Pending | CallFailed(contextError: bool)

  datatype Result<T> =
    | Found(value: T, attempts: nat)
    | TimedOutWaiting          // during the initial delay
    | ContextEnded             // ctx done won a select, or the call reported a context error
    | PollFailed(attempt: nat) // wrapped with the attempt number

  /** Poll k ends the polling: anything but an unsettled observation that a tick follows. */
  ghost predicate Ends<T>(observe: nat -> Observation<T>, expired: nat -> bool, k: nat) {
    observe(k) != Pending || expired(k)
  }

  /** The result of a run whose last poll is poll k. */
  function Last<T>(o: Observation<T>, k: nat): Result<T> {
    match o
    case Settled(v) => Found(v, k + 1)
    case Pending => ContextEnded
    case CallFailed(contextError) => if contextError then ContextEnded else PollFailed(k + 1)
  }

  /** observe(k) is the k-th call, expired(k) whether the context rather than the ticker wins
      the select after it; delayed says whether the initial delay outlasts the context. */
  method PollUntil<T>(delayed: bool, observe: nat -> Observation<T>, expired: nat -> bool)
      returns (r: Result<T>, polls: nat)
    requires exists k: nat :: Ends(observe, expired, k)
    ensures delayed ==> polls == 0 && r == TimedOutWaiting
    ensures !delayed ==> polls > 0 && match observe(polls - 1)
                                      case Settled(v) => r == Found(v, polls)
                                      case Pending => expired(polls - 1) && r == ContextEnded
                                      case CallFailed(contextError) => r == if contextError then ContextEnded else PollFailed(polls)
    ensures forall k: nat :: k + 1 < polls ==> observe(k) == Pending && !expired(k)
  {
    var attempts := 0;
    if delayed {
      return TimedOutWaiting, attempts;
    }
    ghost var bound: nat :| Ends(observe, expired, bound);
    attempts := attempts + 1;
    var o := observe(0);
    if o != Pending {
      return Last(o, 0), attempts;
    }
    while !expired(attempts - 1)
      invariant 0 < attempts <= bound + 1
      invariant forall k: nat :: k < attempts ==> observe(k) == Pending
      invariant forall k: nat :: k + 1 < attempts ==> !expired(k)
      decreases bound + 1 - attempts
    {
      attempts := attempts + 1;
      o := observe(attempts - 1);
      if o != Pending {
        return Last(o, attempts - 1), attempts;
      }
    }
    r, polls := ContextEnded, attempts;
  }

  /** What getCurrent returns. */
  datatype Current = Status(status: string) | Unavailable(contextError: bool)

  function Observe(settled: set<string>, c: Current): Observation<string> {
    match c
    case Status(s) => if s in settled then Settled(s) else Pending
    case Unavailable(contextError) => CallFailed(contextError)
  }

  /** WaitForPolledState: the first observed status that belongs to the requested ones. */
  method WaitForPolledState(settledStates: seq<string>, delayed: bool, current: nat -> Current, expired: nat -> bool)
      returns (r: Result<string>, polls: nat)
    requires exists k: nat :: expired(k) || current(k).Unavailable? || current(k).status in settledStates
    ensures r.Found? ==> r.attempts == polls > 0 && current(polls - 1) == Status(r.value) && r.value in settledStates
    ensures !delayed ==> polls > 0 && match current(polls - 1)
                                      case Status(s) => if s in settledStates then r == Found(s, polls) else r == ContextEnded && expired(polls - 1)
                                      case Unavailable(contextError) => r == if contextError then ContextEnded else PollFailed(polls)
    ensures forall k: nat :: k + 1 < polls ==> current(k).Status? && current(k).status !in settledStates
    ensures forall k: nat :: !delayed && current(k).Status? && current(k).status in settledStates
              && (forall j: nat :: j < k ==> current(j).Status? && current(j).status !in settledStates && !expired(j))
              ==> r == Found(current(k).status, k + 1)
  {
    var statesMap: set<string> := {};
    for i := 0 to |settledStates|
      invariant statesMap == set s | s in settledStates[..i]
    {
      statesMap := statesMap + {settledStates[i]};
      assert settledStates[..i + 1] == settledStates[..i] + [settledStates[i]];
    }
    assert settledStates[..|settledStates|] == settledStates;
    var observe := (k: nat) => Observe(statesMap, current(k));
    ghost var bound: nat :| expired(bound) || current(bound).Unavailable? || current(bound).status in settledStates;
    assert Ends(observe, expired, bound);
    r, polls := PollUntil(delayed, observe, expired);
    forall k: nat | k + 1 < polls
      ensures current(k).Status? && current(k).status !in settledStates
    {
      assert observe(k) == Pending;
    }
    forall k: nat | !delayed && current(k).Status? && current(k).status in settledStates
              && (forall j: nat :: j < k ==> current(j).Status? && current(j).status !in settledStates && !expired(j))
      ensures r == Found(current(k).status, k + 1)
    {
      assert observe(k) == Settled(current(k).status);
    }
  }
}
