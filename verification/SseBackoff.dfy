/** handleDisconnection's retry loop and addJitter, in 64-bit duration arithmetic. */
module SseBackoff {
  import opened Prelude

  const MAX_INT64 := 0x7FFF_FFFF_FFFF_FFFF

  /** Two's-complement wrap-around of a time.Duration. */
  function Wrap64(x: int): int {
    (x + 0x8000_0000_0000_0000) % 0x1_0000_0000_0000_0000 - 0x8000_0000_0000_0000
  }

  datatype Options = Options(backoff: int, maxBackoff: int, maxRetries: int)

  /** What one Connect call returned. */
  datatype Reply = Connected | ClientClosed | ConnectError

  datatype Ending = Stopped | Reconnected | Closed | GaveUp

  function Doubled(opts: Options, backoff: int): int {
    var b := Wrap64(backoff * 2);
    if opts.maxBackoff > 0 && b > opts.maxBackoff then opts.maxBackoff else b
  }

  /** The value of `backoff` before attempt k + 1. */
  function Delay(opts: Options, k: nat): int {
    if k == 0 then opts.backoff else Doubled(opts, Delay(opts, k - 1))
  }

  /** Go's conversion of a float to an integer drops the fraction. */
  function Truncate(x: real): int {
    if x >= 0.0 then x.Floor else -((-x).Floor)
  }

  /** addJitter, r standing for rand.Float64(). */
  function AddJitter(d: int, r: real): int {
    d + Truncate(r * 2.0 - 1.0) * Truncate(d as real * 0.02)
  }

  /** The first n timer durations. */
  function Waits(opts: Options, rand: nat -> real, n: nat): (w: seq<int>)
    ensures |w| == n
  {
    if n == 0 then [] else Waits(opts, rand, n - 1) + [AddJitter(Delay(opts, n - 1), rand(n - 1))]
  }

  /** The first n rounds of the loop all woke, connected and failed. */
  ghost predicate AllFail(wake: nat -> bool, reply: nat -> Reply, n: nat) {
    forall k: nat :: k < n ==> wake(k) && reply(k) == ConnectError
  }

  /** How one disconnection ends, and after how many Connect calls. */
  ghost predicate Outcome(opts: Options, wake: nat -> bool, reply: nat -> Reply, ending: Ending, connects: nat) {
    && (opts.maxRetries > 0 ==> connects <= opts.maxRetries)
    && match ending
       case Stopped => AllFail(wake, reply, connects) && !wake(connects) && (opts.maxRetries > 0 ==> connects < opts.maxRetries)
       case GaveUp => AllFail(wake, reply, connects) && connects == opts.maxRetries > 0
       case Reconnected => LastReply(wake, reply, connects, Connected)
       case Closed => LastReply(wake, reply, connects, ClientClosed)
  }

  ghost predicate LastReply(wake: nat -> bool, reply: nat -> Reply, connects: nat, last: Reply) {
    connects > 0 && AllFail(wake, reply, connects - 1) && wake(connects - 1) && reply(connects - 1) == last
  }

  /**
   One disconnection with reconnection enabled.  wake(k) says whether the timer rather than
   `done` won the k-th select, reply(k) what the k-th Connect returned, rand(k) the k-th
   random number.  Without MaxRetries the loop ends only if some select or Connect ends it.
   */
  method HandleDisconnection(opts: Options, wake: nat -> bool, reply: nat -> Reply, rand: nat -> real)
      returns (ending: Ending, connects: nat, waits: seq<int>, errorCalls: nat)
    requires opts.maxRetries > 0 || exists n: nat :: !wake(n) || reply(n) != ConnectError
    ensures Outcome(opts, wake, reply, ending, connects)
    ensures waits == Waits(opts, rand, if ending == Stopped then connects + 1 else connects)
    ensures errorCalls == if ending == GaveUp then 1 else 0
    ensures forall k: nat :: k < |waits| && 0.0 <= rand(k) < 1.0 && KeepsPromise(opts, k) ==>
              var delay := if k == 0 then opts.backoff
                           else if opts.maxBackoff > 0 then Min(opts.backoff * Pow2(k), opts.maxBackoff)
                           else opts.backoff * Pow2(k);
              delay - delay / 50 <= waits[k] <= delay
  {
    WaitsNearPromised(opts, rand);
    var backoff, attempt := opts.backoff, 0;
    waits, errorCalls := [], 0;
    ghost var bound: nat :| opts.maxRetries > 0 || !wake(bound) || reply(bound) != ConnectError;
    while true
      invariant errorCalls == 0 && AllFail(wake, reply, attempt)
      invariant backoff == Delay(opts, attempt) && waits == Waits(opts, rand, attempt)
      invariant if opts.maxRetries > 0 then attempt < opts.maxRetries else attempt <= bound
      decreases (if opts.maxRetries > 0 then opts.maxRetries else bound + 1) - attempt
    {
      waits := waits + [AddJitter(backoff, rand(attempt))];
      if !wake(attempt) {
        return Stopped, attempt, waits, errorCalls;
      }
      attempt := attempt + 1;
      match reply(attempt - 1)
      case Connected => return Reconnected, attempt, waits, errorCalls;
      case ClientClosed => return Closed, attempt, waits, errorCalls;
      case ConnectError =>
        if opts.maxRetries > 0 && attempt >= opts.maxRetries {
          errorCalls := errorCalls + 1;
          return GaveUp, attempt, waits, errorCalls;
        }
        backoff := Wrap64(backoff * 2);
        if opts.maxBackoff > 0 && backoff > opts.maxBackoff {
          backoff := opts.maxBackoff;
        }
    }
  }

  /** The outcome is determined, and the error handler fires exactly when MaxRetries Connect
      calls were made and every one of them failed. */
  lemma OutcomeUnique(opts: Options, wake: nat -> bool, reply: nat -> Reply,
                      e1: Ending, n1: nat, e2: Ending, n2: nat)
    requires Outcome(opts, wake, reply, e1, n1) && Outcome(opts, wake, reply, e2, n2)
    ensures e1 == e2 && n1 == n2
    ensures e1 == GaveUp <==> opts.maxRetries > 0 && AllFail(wake, reply, opts.maxRetries)
  {
    StopsHere(opts, wake, reply, e1, n1);
    StopsHere(opts, wake, reply, e2, n2);
  }

  /** An outcome names a round that is not a retried failure. */
  lemma StopsHere(opts: Options, wake: nat -> bool, reply: nat -> Reply, e: Ending, n: nat)
    requires Outcome(opts, wake, reply, e, n)
    ensures var last := if e == Reconnected || e == Closed then n - 1 else n;
            last >= 0 && AllFail(wake, reply, last) && (e == GaveUp || !wake(last) || reply(last) != ConnectError)
  {
  }

  // ---------- What the delays are ----------

  function Pow2(k: nat): (p: nat)
    ensures p >= 1
  {
    if k == 0 then 1 else 2 * Pow2(k - 1)
  }

  lemma WrapSmall(x: int)
    ensures Wrap64(x) == x <==> -MAX_INT64 - 1 <= x <= MAX_INT64
  {
  }

  /** The delay the options ask for before attempt k + 1.  (The first is not capped by the
      code.) */
  function Promised(opts: Options, k: nat): int {
    if k == 0 then opts.backoff else Min(opts.backoff * Pow2(k), opts.maxBackoff)
  }

  ghost predicate AsPromised(opts: Options, k: nat) {
    forall j: nat :: j <= k ==> Delay(opts, j) == Promised(opts, j)
  }

  /** Up to attempt k + 1 every delay is the promised one exactly as long as doubling the
      promised delay before it fits in an int64: a doubling that does not fit turns negative and
      slips under the cap. */
  lemma {:induction false} CappedDelay(opts: Options, k: nat)
    requires 0 < opts.backoff <= MAX_INT64 && 0 < opts.maxBackoff <= MAX_INT64
    ensures 0 < Promised(opts, k) <= MAX_INT64
    ensures AsPromised(opts, k) <==> forall j: nat :: j < k ==> 2 * Promised(opts, j) <= MAX_INT64
  {
    assert opts.backoff * Pow2(k) == if k == 0 then opts.backoff else 2 * (opts.backoff * Pow2(k - 1));
    Grows(opts.backoff, Pow2(k));
    if k > 0 {
      CappedDelay(opts, k - 1);
      WrapSmall(2 * Promised(opts, k - 1));
      assert AsPromised(opts, k) <==> AsPromised(opts, k - 1) && Delay(opts, k) == Promised(opts, k);
    }
  }

  /** Every delay of every run is the promised one if and only if Backoff and MaxBackoff both
      leave room for one doubling. */
  lemma CappedForever(opts: Options)
    requires 0 < opts.backoff <= MAX_INT64 && 0 < opts.maxBackoff <= MAX_INT64
    ensures (forall k: nat :: Delay(opts, k) == Promised(opts, k))
            <==> opts.backoff <= MAX_INT64 / 2 && opts.maxBackoff <= MAX_INT64 / 2
  {
    if opts.backoff <= MAX_INT64 / 2 && opts.maxBackoff <= MAX_INT64 / 2 {
      forall k: nat
        ensures Delay(opts, k) == Promised(opts, k)
      {
        CappedDelay(opts, k);
        assert AsPromised(opts, k);
      }
    } else {
      var m := opts.maxBackoff;
      CappedDelay(opts, m + 1);
      PowerPasses(opts.backoff, m);
      assert Promised(opts, m) == m && Promised(opts, 0) == opts.backoff;
      assert !AsPromised(opts, m + 1);
    }
  }

  /** 2^k outgrows k, so the cap is reached. */
  lemma {:induction false} PowerPasses(b: int, k: nat)
    requires b > 0
    ensures b * Pow2(k) > k
  {
    if k > 0 {
      PowerPasses(b, k - 1);
      assert b * Pow2(k) == 2 * (b * Pow2(k - 1));
    }
  }

  lemma Grows(b: int, p: nat)
    requires b > 0 && p >= 1
    ensures b * p >= b
  {
    assert b * p == b + b * (p - 1);
  }

  lemma WrapTwice(x: int)
    ensures Wrap64(2 * Wrap64(x)) == Wrap64(2 * x)
  {
    var q := (x + 0x8000_0000_0000_0000) / 0x1_0000_0000_0000_0000;
    assert 2 * Wrap64(x) == 2 * x + 0x1_0000_0000_0000_0000 * (-2 * q);
    WrapShift(2 * x, -2 * q);
  }

  lemma WrapShift(x: int, k: int)
    ensures Wrap64(x + 0x1_0000_0000_0000_0000 * k) == Wrap64(x)
  {
  }

  /** With no cap the delay is Backoff * 2^k exactly as long as that fits in 63 bits. */
  lemma {:induction false} UncappedDelay(opts: Options, k: nat)
    requires 0 < opts.backoff <= MAX_INT64 && opts.maxBackoff <= 0
    ensures Delay(opts, k) == Wrap64(opts.backoff * Pow2(k))
    ensures Delay(opts, k) == opts.backoff * Pow2(k) <==> opts.backoff * Pow2(k) <= MAX_INT64
  {
    if k > 0 {
      UncappedDelay(opts, k - 1);
      WrapTwice(opts.backoff * Pow2(k - 1));
      assert opts.backoff * Pow2(k) == 2 * (opts.backoff * Pow2(k - 1));
    }
    Grows(opts.backoff, Pow2(k));
    WrapSmall(opts.backoff * Pow2(k));
  }

  /** Jitter never lengthens a delay and shortens it by at most 2%; since the random factor
      is truncated to an integer first, it does anything only when that factor is -1. */
  lemma JitterBounds(d: int, r: real)
    requires d >= 0 && 0.0 <= r < 1.0
    ensures d - d / 50 <= AddJitter(d, r) <= d
    ensures AddJitter(d, r) != d <==> r == 0.0 && d >= 50
  {
    var x := r * 2.0 - 1.0;
    assert Truncate(x) == if r == 0.0 then -1 else 0;
    var y := d as real * 0.02;
    assert y * 50.0 == d as real;
    assert y.Floor as real <= y < y.Floor as real + 1.0;
    assert y.Floor * 50 <= d < y.Floor * 50 + 50;
  }

  /** The options under which delay k is what they ask for: room for one doubling below a cap,
      or without a cap a product that fits. */
  predicate KeepsPromise(opts: Options, k: nat) {
    && 0 < opts.backoff
    && if opts.maxBackoff > 0 then opts.backoff <= MAX_INT64 / 2 && opts.maxBackoff <= MAX_INT64 / 2
       else opts.backoff * Pow2(k) <= MAX_INT64
  }

  lemma {:induction false} WaitAt(opts: Options, rand: nat -> real, n: nat, k: nat)
    requires k < n
    ensures Waits(opts, rand, n)[k] == AddJitter(Delay(opts, k), rand(k))
  {
    if k < n - 1 {
      WaitAt(opts, rand, n - 1, k);
    }
  }

  lemma DelayKept(opts: Options, k: nat)
    requires KeepsPromise(opts, k)
    ensures Delay(opts, k) == if k == 0 then opts.backoff
                              else if opts.maxBackoff > 0 then Min(opts.backoff * Pow2(k), opts.maxBackoff)
                              else opts.backoff * Pow2(k)
    ensures Delay(opts, k) > 0
  {
    Grows(opts.backoff, Pow2(k));
    if opts.maxBackoff > 0 {
      CappedForever(opts);
      assert Delay(opts, k) == Promised(opts, k);
    } else {
      UncappedDelay(opts, k);
    }
  }

  /** Every timer that a disconnection waits for is within 2% of the promised delay. */
  lemma WaitsNearPromised(opts: Options, rand: nat -> real)
    ensures forall n: nat, k: nat :: k < n && 0.0 <= rand(k) < 1.0 && KeepsPromise(opts, k) ==>
              var delay := if k == 0 then opts.backoff
                           else if opts.maxBackoff > 0 then Min(opts.backoff * Pow2(k), opts.maxBackoff)
                           else opts.backoff * Pow2(k);
              delay - delay / 50 <= Waits(opts, rand, n)[k] <= delay
  {
    forall n: nat, k: nat | k < n && 0.0 <= rand(k) < 1.0 && KeepsPromise(opts, k)
      ensures var delay := if k == 0 then opts.backoff
                           else if opts.maxBackoff > 0 then Min(opts.backoff * Pow2(k), opts.maxBackoff)
                           else opts.backoff * Pow2(k);
              delay - delay / 50 <= Waits(opts, rand, n)[k] <= delay
    {
      WaitAt(opts, rand, n, k);
      DelayKept(opts, k);
      JitterBounds(Delay(opts, k), rand(k));
    }
  }
}
