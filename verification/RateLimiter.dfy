/** The rate-limited retry engine of internal/download/rate_limiter_engine.go. */
module RateLimiter {
  import opened Prelude
  import opened Decimal

  // ---------- Recognising a 429 ----------

  /** An error as isHTTPStatusTooManyRequests sees it. */
  datatype Failure = StatusCode(code: int) | Message(text: string)

  const BACKEND_PREFIX := "http error from remote block backend: "

  predicate IsSpace(c: char) {
    c == ' ' || c == '\t' || c == '\n' || c == '\r' || c as int == 0x0B || c as int == 0x0C || c as int == 0x85 || c as int == 0xA0
  }

  function TrimLeft(s: string): string {
    if s != [] && IsSpace(s[0]) then TrimLeft(s[1..]) else s
  }

  function TrimRight(s: string): string {
    if s != [] && IsSpace(s[|s| - 1]) then TrimRight(s[..|s| - 1]) else s
  }

  /** strings.SplitN(s, " ", 2)[0]. */
  function FirstWord(s: string): string {
    if s == [] || s[0] == ' ' then [] else [s[0]] + FirstWord(s[1..])
  }

  predicate IsTooManyRequests(e: Failure) {
    match e
    case StatusCode(code) => code == 429
    case Message(text) => BACKEND_PREFIX <= text && Atoi(FirstWord(TrimRight(TrimLeft(text[|BACKEND_PREFIX|..])))) == Some(429)
  }

  lemma {:induction false} FirstWordOfTrimmed(word: string, tail: string)
    requires word != [] && (forall i :: 0 <= i < |word| ==> !IsSpace(word[i])) && (tail == [] || tail[0] == ' ')
    ensures FirstWord(TrimRight(word + tail)) == word
    decreases |tail|
  {
    var s := word + tail;
    if tail != [] && IsSpace(tail[|tail| - 1]) {
      assert s[..|s| - 1] == word + tail[..|tail| - 1];
      FirstWordOfTrimmed(word, tail[..|tail| - 1]);
    } else {
      FirstWordIs(word, tail);
      assert !IsSpace(s[|s| - 1]);
    }
  }

  lemma {:induction false} LeadingSpaces(pad: string, s: string)
    requires forall i :: 0 <= i < |pad| ==> IsSpace(pad[i])
    ensures TrimLeft(pad + s) == TrimLeft(s)
  {
    if pad == [] {
      assert pad + s == s;
    } else {
      assert (pad + s)[0] == pad[0] && (pad + s)[1..] == pad[1..] + s;
      LeadingSpaces(pad[1..], s);
    }
  }

  lemma {:induction false} FirstWordIs(word: string, tail: string)
    requires (forall i :: 0 <= i < |word| ==> !IsSpace(word[i])) && (tail == [] || tail[0] == ' ')
    ensures FirstWord(word + tail) == word
  {
    if word == [] {
      assert word + tail == tail;
    } else {
      assert (word + tail)[1..] == word[1..] + tail;
      FirstWordIs(word[1..], tail);
    }
  }

  /** The message the block backend prints for a status, with or without a reason and padding,
      is taken for a 429 exactly when the status is 429. */
  lemma BackendMessageRecognised(status: int, pad: string, tail: string)
    requires 0 <= status <= MAX_INT && (forall i :: 0 <= i < |pad| ==> IsSpace(pad[i])) && (tail == [] || tail[0] == ' ')
    ensures IsTooManyRequests(Message("http error from remote block backend: " + pad + Itoa(status) + tail)) <==> status == 429
  {
    ItoaNatValue(status);
    AtoiItoa(status);
    var word := Itoa(status);
    var text := BACKEND_PREFIX + pad + word + tail;
    assert text[|BACKEND_PREFIX|..] == pad + (word + tail);
    LeadingSpaces(pad, word + tail);
    assert forall i :: 0 <= i < |word| ==> IsDigit(word[i]) && !IsSpace(word[i]);
    assert TrimLeft(word + tail) == word + tail;
    FirstWordOfTrimmed(word, tail);
  }

  // ---------- ExecuteWithRetry ----------

  /** An error as retry.Do sees it: its appearance, and whether it is marked unrecoverable
      anywhere in its chain. */
  datatype Raised = Raised(failure: Failure, fatal: bool)

  /** AllowDownload's answer. */
  datatype Verdict = Allowed | Denied | LimiterFailed(text: string, fatal: bool)

  /** How one attempt ends, in the terms of the retry condition. */
  datatype Outcome = Success | TooMany | Failed | Fatal

  /** Calls made on the limiter and on the worker pool, in order. */
  datatype Call = Ask(verdict: Verdict) | Submit

  const ERR_RATE_LIMIT_EXCEEDED := "rate limit exceeded"
  const LIMITER_FAILED_PREFIX := "rate limiter failed: "

  /** The error that wait turns the limiter's answer into; a wrapped one keeps its mark. */
  function WaitError(v: Verdict): Option<Raised> {
    match v
    case Allowed => None
    case Denied => Some(Raised(Message(ERR_RATE_LIMIT_EXCEEDED), false))
    case LimiterFailed(text, fatal) => Some(Raised(Message(LIMITER_FAILED_PREFIX + text), fatal))
  }

  function Classify(error: Option<Raised>): Outcome {
    match error
    case None => Success
    case Some(Raised(failure, fatal)) => if fatal then Fatal else if IsTooManyRequests(failure) then TooMany else Failed
  }

  /** Neither of the limiter's own errors is ever taken for a 429, whatever text it carries. */
  lemma LimiterErrorIsOrdinary(v: Verdict)
    requires v != Allowed
    ensures Classify(WaitError(v)) == if v.LimiterFailed? && v.fatal then Fatal else Failed
    ensures v == Denied ==> WaitError(v).value.failure == Message("rate limit exceeded")
    ensures v.LimiterFailed? ==> WaitError(v).value.failure == Message("rate limiter failed: " + v.text)
  {
    assert BACKEND_PREFIX[0] == 'h';
    assert v.LimiterFailed? ==> (LIMITER_FAILED_PREFIX + v.text)[0] == 'r';
  }

  /** One run of an engine: attempts is retryConfig.Attempts; limits says whether a limiter is
      configured, verdict(i) its answer before the i-th attempt, after(i) its answer (ignored by
      the code) to the call made when the i-th attempt ends in a 429; ending(i) says how the
      i-th attempt ends. */
  datatype Run = Run(attempts: nat, limits: bool, verdict: nat -> Verdict, ending: nat -> Outcome, after: nat -> Verdict)
  {
    predicate Permits(i: nat) { !limits || verdict(i) == Allowed }

    /** Failures other than 429 since the last 429, among the first n attempts. */
    function Streak(n: nat): nat {
      if n == 0 || ending(n - 1) == TooMany then 0
      else Streak(n - 1) + (if ending(n - 1) == Failed then 1 else 0)
    }

    /** The declarative stop condition. */
    predicate Stops(i: nat) {
      ending(i) == Success || ending(i) == Fatal || (ending(i) == Failed && Streak(i + 1) >= attempts)
    }

    /** The calls of attempt i. */
    function Calls(i: nat): seq<Call> {
      (if limits then [Ask(verdict(i))] else [])
      + (if Permits(i) then [Submit] else [])
      + (if limits && ending(i) == TooMany then [Ask(after(i))] else [])
    }

    function AllCalls(n: nat): seq<Call> {
      if n == 0 then [] else AllCalls(n - 1) + Calls(n - 1)
    }

    function TooManyCount(n: nat): nat {
      if n == 0 then 0 else TooManyCount(n - 1) + (if ending(n - 1) == TooMany then 1 else 0)
    }
  }

  /** The engine and its surroundings; task(i) is what the task returns if the i-th attempt
      submits it. */
  datatype Engine = Engine(attempts: nat, limits: bool, verdict: nat -> Verdict, task: nat -> Option<Raised>,
                           after: nat -> Verdict)
  {
    /** What the i-th attempt returns to retry.Do. */
    function Returned(i: nat): Option<Raised> {
      if !limits || verdict(i) == Allowed then task(i) else WaitError(verdict(i))
    }

    /** Its run, every attempt classified by its error alone. */
    function AsRun(): Run {
      Run(attempts, limits, verdict, (i: nat) => Classify(Returned(i)), after)
    }
  }

  /** An error that is neither marked unrecoverable nor a 429 of the gateway or the backend. */
  ghost predicate Counts(e: Option<Raised>) {
    e.Some? && !e.value.fatal && e.value.failure != StatusCode(429) && !Says429(e.value.failure)
  }

  /** The attempts m, m + 1, and so on, as many as are allowed, all return a status error of the
      gateway other than 429. */
  ghost predicate EveryOtherStatus(engine: Engine, m: nat) {
    forall i: nat :: m <= i < m + engine.attempts ==>
      var e := engine.Returned(i);
      e.Some? && !e.value.fatal && e.value.failure.StatusCode? && e.value.failure.code != 429
  }

  /** The text of a 429 from the block backend. */
  ghost predicate Says429(f: Failure) {
    exists reason: string :: f == Message("http error from remote block backend: 429 " + reason)
  }

  lemma Says429Recognised(f: Failure)
    requires Says429(f)
    ensures IsTooManyRequests(f)
  {
    var reason: string :| f == Message("http error from remote block backend: 429 " + reason);
    Prints429();
    BackendMessageRecognised(429, "", " " + reason);
    assert "http error from remote block backend: " + "" + "429" + (" " + reason)
           == "http error from remote block backend: 429 " + reason;
  }

  lemma Prints429()
    ensures Itoa(429) == "429"
  {
    assert ItoaNat(42) == "42";
  }

  lemma FailedCounts(e: Option<Raised>)
    requires Classify(e) == Failed
    ensures Counts(e)
  {
    if Says429(e.value.failure) {
      Says429Recognised(e.value.failure);
    }
  }

  lemma WindowStops(engine: Engine, m: nat)
    requires engine.attempts > 0 && EveryOtherStatus(engine, m)
    requires forall i: nat :: i + 1 < m + engine.attempts ==> !engine.AsRun().Stops(i)
    ensures engine.AsRun().Stops(m + engine.attempts - 1)
  {
    var run := engine.AsRun();
    StopsMeaning(run, m + engine.attempts - 1);
    assert LastFailed(run, m + engine.attempts, engine.attempts);
  }

  lemma StoppedWhy(engine: Engine, n: nat)
    requires n > 0 && engine.AsRun().Stops(n - 1) && forall i: nat :: i + 1 < n ==> !engine.AsRun().Stops(i)
    ensures forall i: nat :: i + 1 < n ==> engine.Returned(i).Some? && !engine.Returned(i).value.fatal
    ensures Counts(engine.Returned(n - 1)) || engine.Returned(n - 1) == None || engine.Returned(n - 1).value.fatal
    ensures engine.Returned(n - 1).Some? && !engine.Returned(n - 1).value.fatal && engine.attempts > 0 ==>
              engine.attempts <= n && forall i: nat :: n - engine.attempts <= i < n ==> Counts(engine.Returned(i))
    ensures forall m: nat :: engine.attempts > 0 && EveryOtherStatus(engine, m) ==> n <= m + engine.attempts
  {
    var run := engine.AsRun();
    forall i: nat | i + 1 < n
      ensures engine.Returned(i).Some? && !engine.Returned(i).value.fatal
    {
      assert run.ending(i) != Success && run.ending(i) != Fatal by {
        assert !run.Stops(i);
      }
    }
    forall i: nat | run.ending(i) == Failed
      ensures Counts(engine.Returned(i))
    {
      FailedCounts(engine.Returned(i));
    }
    if engine.attempts > 0 {
      StopsMeaning(run, n - 1);
      forall m: nat | EveryOtherStatus(engine, m)
        ensures n <= m + engine.attempts
      {
        if n > m + engine.attempts {
          WindowStops(engine, m);
        }
      }
    }
  }

  /** One attempt: wait for the limiter, then submit the task and wait for it. */
  method Attempt(engine: Engine, i: nat) returns (result: Option<Raised>, calls: seq<Call>)
    ensures result == engine.Returned(i)
    ensures var run := engine.AsRun();
            calls == (if run.limits then [Ask(run.verdict(i))] else []) + (if run.Permits(i) then [Submit] else [])
  {
    calls, result := [], None;
    if engine.limits {
      calls := calls + [Ask(engine.verdict(i))];
      result := WaitError(engine.verdict(i));
    }
    if result == None {
      calls := calls + [Submit];
      result := engine.task(i);
    }
  }

  /**
   retry.Do as ExecuteWithRetry configures it, for any stream of outcomes with finitely many
   429s (from `quiet` on there are none) and no cancellation.  Unlimited retries: the measure is
   lexicographic, first the 429s that may still come, then the failures still allowed.
   */
  method RetryDo(engine: Engine, ghost quiet: nat) returns (result: Option<Raised>, n: nat, calls: seq<Call>)
    requires forall i: nat :: i >= quiet ==> engine.AsRun().ending(i) != TooMany
    ensures n > 0 && engine.AsRun().Stops(n - 1) && result == engine.Returned(n - 1)
    ensures forall i: nat :: i + 1 < n ==> !engine.AsRun().Stops(i)
    ensures calls == engine.AsRun().AllCalls(n)
  {
    ghost var run := engine.AsRun();
    var non429Failures := 0;
    n, calls := 0, [];
    while true
      invariant non429Failures == run.Streak(n) && calls == run.AllCalls(n)
      invariant forall i: nat :: i < n ==> !run.Stops(i)
      invariant n > 0 ==> non429Failures < run.attempts || run.ending(n - 1) == TooMany
      decreases if n < quiet then quiet - n else 0, Max(0, run.attempts - non429Failures)
    {
      var attempt: seq<Call>;
      result, attempt := Attempt(engine, n);
      // retry.Do without an attempt limit, and its RetryIf
      var ending := Classify(result);
      assert ending == run.ending(n);
      if ending == TooMany && engine.limits {
        attempt := attempt + [Ask(engine.after(n))];
      }
      assert attempt == run.Calls(n);
      calls := calls + attempt;
      n := n + 1;
      match ending
      case Success => return;
      case Fatal => return;
      case TooMany => non429Failures := 0;
      case Failed =>
        non429Failures := non429Failures + 1;
        if engine.attempts <= non429Failures {
          return;
        }
    }
  }

  /**
   ExecuteWithRetry, in terms of the errors themselves: everything before the last attempt was
   an error worth retrying; a run that ends in an ordinary error ends in `Attempts` of them in a
   row, none of them a 429; and that many other status errors in a row do end it.
   */
  method ExecuteWithRetry(engine: Engine, ghost quiet: nat) returns (result: Option<Raised>, n: nat, calls: seq<Call>)
    requires forall i: nat :: i >= quiet ==> engine.AsRun().ending(i) != TooMany
    ensures n > 0 && engine.AsRun().Stops(n - 1) && result == engine.Returned(n - 1)
    ensures forall i: nat :: i + 1 < n ==> !engine.AsRun().Stops(i)
    ensures calls == engine.AsRun().AllCalls(n)
    ensures forall i: nat :: i + 1 < n ==> engine.Returned(i).Some? && !engine.Returned(i).value.fatal
    ensures result.Some? && result.value.failure == StatusCode(429) ==> result.value.fatal
    ensures result.Some? && !result.value.fatal && engine.attempts > 0 ==>
              engine.attempts <= n && forall i: nat :: n - engine.attempts <= i < n ==> Counts(engine.Returned(i))
    ensures forall m: nat :: engine.attempts > 0 && EveryOtherStatus(engine, m) ==> n <= m + engine.attempts
  {
    result, n, calls := RetryDo(engine, quiet);
    StoppedWhy(engine, n);
  }

  // ---------- What the run means ----------

  predicate LastFailed(run: Run, n: nat, k: nat) {
    k <= n && forall i: nat :: n - k <= i < n ==> run.ending(i) == Failed
  }

  lemma {:induction false} StreakTail(run: Run, n: nat, k: nat)
    requires forall i: nat :: i < n ==> run.ending(i) == Failed || run.ending(i) == TooMany
    ensures run.Streak(n) >= k <==> LastFailed(run, n, k)
  {
    if n > 0 && k > 0 {
      StreakTail(run, n - 1, k - 1);
      if run.ending(n - 1) == Failed {
        assert LastFailed(run, n, k) <==> LastFailed(run, n - 1, k - 1);
      } else {
        assert run.ending(n - 1) == TooMany;
      }
    }
  }

  /** Attempt i ends the run exactly when it succeeds, is unrecoverable, or completes
      `Attempts` failures in a row with no 429 among them. */
  lemma StopsMeaning(run: Run, i: nat)
    requires run.attempts > 0 && forall j: nat :: j < i ==> !run.Stops(j)
    ensures run.Stops(i) <==> run.ending(i) == Success || run.ending(i) == Fatal || LastFailed(run, i + 1, run.attempts)
  {
    if run.ending(i) == Failed || run.ending(i) == TooMany {
      assert forall j: nat :: j < i && run.ending(j) != Failed && run.ending(j) != TooMany ==> run.Stops(j);
      StreakTail(run, i + 1, run.attempts);
      assert LastFailed(run, i + 1, run.attempts) ==> run.ending(i) == Failed;
    } else {
      assert !LastFailed(run, i + 1, run.attempts) by {
        assert run.ending(i) != Failed;
      }
    }
  }

  function Asks(calls: seq<Call>): nat {
    if calls == [] then 0 else Asks(calls[..|calls| - 1]) + (if calls[|calls| - 1].Ask? then 1 else 0)
  }

  lemma {:induction false} AsksConcat(a: seq<Call>, b: seq<Call>)
    ensures Asks(a + b) == Asks(a) + Asks(b)
  {
    if b == [] {
      assert a + b == a;
    } else {
      AsksConcat(a, b[..|b| - 1]);
      assert (a + b)[..|a + b| - 1] == a + b[..|b| - 1];
    }
  }

  ghost predicate EachGranted(calls: seq<Call>) {
    forall j :: 0 <= j < |calls| ==> GrantedAt(calls, j)
  }

  predicate GrantedAt(calls: seq<Call>, j: nat)
    requires j < |calls|
  {
    calls[j] == Submit ==> j > 0 && calls[j - 1] == Ask(Allowed)
  }

  lemma EachGrantedConcat(a: seq<Call>, b: seq<Call>)
    requires EachGranted(a) && EachGranted(b)
    ensures EachGranted(a + b)
  {
    forall j | 0 <= j < |a + b|
      ensures GrantedAt(a + b, j)
    {
      assert if j < |a| then GrantedAt(a, j) else GrantedAt(b, j - |a|);
    }
  }

  lemma Accumulated(a: seq<Call>, b: seq<Call>, c: seq<Call>)
    requires EachGranted(a) && EachGranted(b) && c == a + b
    ensures EachGranted(c) && Asks(c) == Asks(a) + Asks(b)
  {
    EachGrantedConcat(a, b);
    AsksConcat(a, b);
  }

  lemma AttemptCalls(run: Run, i: nat)
    requires run.limits
    ensures EachGranted(run.Calls(i)) && Asks(run.Calls(i)) == 1 + (if run.ending(i) == TooMany then 1 else 0)
  {
    var ask, submit := [Ask(run.verdict(i))], if run.Permits(i) then [Submit] else [];
    var head := ask + submit;
    AsksConcat(ask, submit);
    assert ask[..0] == [] && Asks(ask) == 1 && (submit != [] ==> submit[..0] == []) && Asks(submit) == 0;
    AsksConcat(head, [Ask(run.after(i))]);
    assert Asks([Ask(run.after(i))]) == 1;
    assert run.Calls(i) == if run.ending(i) == TooMany then head + [Ask(run.after(i))] else head;
  }

  /** With a limiter, the task is only ever submitted right after its own granted request,
      and the limiter is called once per attempt plus once per 429. */
  lemma {:induction false} LimiterAccounting(run: Run, n: nat)
    requires run.limits
    ensures EachGranted(run.AllCalls(n))
    ensures Asks(run.AllCalls(n)) == n + run.TooManyCount(n)
  {
    if n > 0 {
      LimiterAccounting(run, n - 1);
      AttemptCalls(run, n - 1);
      Accumulated(run.AllCalls(n - 1), run.Calls(n - 1), run.AllCalls(n));
    }
  }
}
