/**
 Errors, response classification and the bounded retry loop: errors.go, internal/http/http.go
 and the credential access of workspace.go, over retry-go's `retry.Do`.
 */
module Retry {
  import opened Prelude

  // ---------- Errors ----------

  datatype Named = ErrUnauthorized | ErrNotFound | ErrForbidden | ErrGone

  datatype Err =
    | Sentinel(name: Named)                                   // errors.New
    | Text(message: string)                                   // fmt.Errorf without %w
    | Wrapped(message: string, inner: Err)                    // fmt.Errorf("%w: ...")
    | Api(reason: string, details: Option<string>, inner: Err)// APIError
    | Unrecoverable(inner: Err)                               // retry.Unrecoverable
    | Attempts(log: seq<Err>)                                 // retry.Error: one per attempt
    | ContextDone

  /** errors.Is for a sentinel. */
  predicate Is(e: Err, name: Named) {
    match e
    case Sentinel(n) => n == name
    case Wrapped(_, inner) => Is(inner, name)
    case Api(_, _, inner) => Is(inner, name)
    case Unrecoverable(inner) => Is(inner, name)
    case Attempts(log) => exists i :: 0 <= i < |log| && Is(log[i], name)
    case _ => false
  }

  /** retry.IsRecoverable: no unrecoverable marker anywhere in the chain. */
  predicate Recoverable(e: Err) {
    match e
    case Unrecoverable(_) => false
    case Wrapped(_, inner) => Recoverable(inner)
    case Api(_, _, inner) => Recoverable(inner)
    case Attempts(log) => forall i :: 0 <= i < |log| ==> Recoverable(log[i])
    case _ => true
  }

  /** ErrorReasonOf: the reason of the outermost APIError. */
  function ReasonOf(e: Err): string {
    match e
    case Api(reason, _, _) => reason
    case Wrapped(_, inner) => ReasonOf(inner)
    case Unrecoverable(inner) => ReasonOf(inner)
    case _ => ""
  }

  /** The marker is taken off when retry.Do logs an error. */
  function Unpack(e: Err): Err {
    if e.Unrecoverable? then e.inner else e
  }

  // ---------- Classification ----------

  const UNRECOVERABLE_STATUS_CODES: seq<int> := [400, 401, 403, 404, 405, 409, 410, 422]

  method IsUnrecoverable(statusCode: int) returns (r: bool)
    ensures r <==> 400 <= statusCode < 500 && statusCode != 429
    ensures r == ClientError(statusCode)
  {
    if statusCode == 429 {
      return false;
    }
    for i := 0 to |UNRECOVERABLE_STATUS_CODES|
      invariant forall j :: 0 <= j < i ==> statusCode != UNRECOVERABLE_STATUS_CODES[j]
    {
      if statusCode == UNRECOVERABLE_STATUS_CODES[i] {
        return true;
      }
    }
    r := 400 <= statusCode < 500;
  }

  predicate ClientError(status: int) {
    400 <= status < 500 && status != 429
  }

  /** One entry of httpErrorMessages. */
  datatype Factory = Wrapping(name: Named, message: string) | Plain(message: string)
  {
    function Error(): Err {
      match this
      case Wrapping(name, message) => Wrapped(message, Sentinel(name))
      case Plain(message) => Text(message)
    }
  }

  lemma FactoryError(f: Factory)
    ensures Recoverable(f.Error()) && ReasonOf(f.Error()) == ""
    ensures forall name :: Is(f.Error(), name) <==> f.Wrapping? && f.name == name
  {
  }

  /** A response body: its text, and the reason and details its JSON carries, if any. */
  datatype Body = Body(text: string, reason: string, details: Option<string>)

  function WithReason(e: Err, body: Body): Err {
    if body.text == "" || body.reason == "" then e else Api(body.reason, body.details, e)
  }

  /** handleResponse, for any table of messages: None for a success code. */
  function HandleResponse(table: map<(int, int), Factory>, op: int, status: int, body: Body, ok: seq<int>): Option<Err> {
    if status in ok then None
    else
      var e := if (op, status) in table then table[(op, status)].Error() else Text(body.text);
      var e := WithReason(e, body);
      Some(if ClientError(status) then Unrecoverable(e) else e)
  }

  /** Whether an answer stops the retries is decided by its status alone; the sentinel of its
      (operation, status) pair and the backend's reason stay reachable for every body, under
      every wrapper, and after retry.Do has unpacked the error. */
  lemma Classified(table: map<(int, int), Factory>, op: int, status: int, body: Body, ok: seq<int>)
    ensures var r := HandleResponse(table, op, status, body, ok);
            && (r == None <==> status in ok)
            && (r.Some? ==>
                  && (Recoverable(r.value) <==> status == 429 || !(400 <= status < 500))
                  && Recoverable(Unpack(r.value))
                  && (forall name :: Is(Unpack(r.value), name) <==> Is(r.value, name))
                  && (forall name :: Is(r.value, name) <==>
                        (op, status) in table && table[(op, status)].Wrapping? && table[(op, status)].name == name)
                  && ReasonOf(r.value) == ReasonOf(Unpack(r.value)) == (if body.text == "" then "" else body.reason)
                  && (body.text != "" && body.reason != "" ==> Unpack(r.value).Api? && Unpack(r.value).details == body.details))
  {
    if status !in ok {
      var e := Text(body.text);
      if (op, status) in table {
        FactoryError(table[(op, status)]);
        e := table[(op, status)].Error();
      }
      var w := WithReason(e, body);
      assert ReasonOf(e) == "" && ReasonOf(w) == if body.text == "" then "" else body.reason;
      assert ReasonOf(Unrecoverable(w)) == ReasonOf(w);
    }
  }

  // ---------- retry.Do ----------

  datatype Config = Config(attempts: nat, lastErrorOnly: bool)

  datatype Next = Again | Return(result: Option<Err>)

  function Final(cfg: Config, log: seq<Err>): Err
    requires log != []
  {
    if cfg.lastErrorOnly then log[|log| - 1] else Attempts(log)
  }

  /** What retry.Do does after a call: log holds the unpacked errors so far, cancelled says
      whether the context ends during the wait that would follow. */
  function AfterCall(cfg: Config, log: seq<Err>, outcome: Option<Err>, cancelled: bool): Next {
    match outcome
    case None => Return(None)
    case Some(e) =>
      if cfg.attempts == 0 then
        if !Recoverable(e) then Return(outcome) else if cancelled then Return(Some(ContextDone)) else Again
      else
        var log := log + [Unpack(e)];
        if !Recoverable(e) || |log| >= cfg.attempts then Return(Some(Final(cfg, log)))
        else if cancelled then Return(Some(if cfg.lastErrorOnly then ContextDone else Attempts(log + [ContextDone])))
        else Again
  }

  /** Call k is the last one. */
  predicate Settles(cfg: Config, fn: nat -> Option<Err>, cancelled: nat -> bool, k: nat) {
    fn(k) == None || !Recoverable(fn(k).value) || k + 1 == cfg.attempts || cancelled(k)
  }

  /** The unpacked errors of the first n calls, all of which failed. */
  function Logged(fn: nat -> Option<Err>, n: nat): seq<Err>
    requires forall k: nat :: k < n ==> fn(k).Some?
  {
    if n == 0 then [] else Logged(fn, n - 1) + [Unpack(fn(n - 1).value)]
  }

  /** The error after n failed calls: when the n-th is unrecoverable or the last allowed, it or
      the log of all of them; otherwise the context ended the run, and says so. */
  function Reported(cfg: Config, fn: nat -> Option<Err>, n: nat): Err
    requires n > 0 && forall k: nat :: k < n ==> fn(k).Some?
  {
    var log := Logged(fn, n);
    LoggedLength(fn, n);
    if !Recoverable(fn(n - 1).value) || n == cfg.attempts then
      if cfg.attempts == 0 then fn(n - 1).value
      else if cfg.lastErrorOnly then log[n - 1]
      else Attempts(log)
    else if cfg.attempts == 0 || cfg.lastErrorOnly then ContextDone
    else Attempts(log + [ContextDone])
  }

  /** RetryContext: fn(k) is what the k-th call returns.  With Attempts 0 the loop ends only
      if some call settles it. */
  method RetryContext(cfg: Config, fn: nat -> Option<Err>, cancelled: nat -> bool)
      returns (result: Option<Err>, calls: nat)
    requires cfg.attempts > 0 || exists n: nat :: Settles(cfg, fn, cancelled, n)
    ensures calls > 0 && Settles(cfg, fn, cancelled, calls - 1)
    ensures forall k: nat :: k + 1 < calls ==> !Settles(cfg, fn, cancelled, k) && fn(k).Some?
    ensures cfg.attempts > 0 ==> calls <= cfg.attempts
    ensures result == None <==> fn(calls - 1) == None
    ensures result.Some? ==> result.value == Reported(cfg, fn, calls)
  {
    var n := 0;
    var log: seq<Err> := [];
    ghost var bound: nat :| cfg.attempts > 0 || Settles(cfg, fn, cancelled, bound);
    while true
      invariant forall k: nat :: k < n ==> !Settles(cfg, fn, cancelled, k)
      invariant forall k: nat :: k < n ==> fn(k).Some?
      invariant cfg.attempts > 0 ==> n < cfg.attempts && log == Logged(fn, n)
      invariant cfg.attempts == 0 ==> n <= bound
      decreases (if cfg.attempts > 0 then cfg.attempts else bound + 1) - n
    {
      var outcome := fn(n);
      if cfg.attempts > 0 {
        LoggedLength(fn, n);
        if outcome.Some? {
          assert Logged(fn, n + 1) == log + [Unpack(outcome.value)];
        }
      }
      match AfterCall(cfg, log, outcome, cancelled(n))
      case Return(r) => return r, n + 1;
      case Again =>
        if cfg.attempts > 0 {
          log := log + [Unpack(outcome.value)];
        }
        n := n + 1;
    }
  }

  lemma LoggedLength(fn: nat -> Option<Err>, n: nat)
    requires forall k: nat :: k < n ==> fn(k).Some?
    ensures |Logged(fn, n)| == n
  {
  }

  // ---------- An API operation ----------

  /** What one request sees: a transport error, or a response that may lack its JSON body. */
  datatype Reply = NoReply | Reply(status: int, body: Body, decoded: bool)

  function Outcome(table: map<(int, int), Factory>, op: int, ok: seq<int>, reply: Reply): Option<Err> {
    match reply
    case NoReply => Some(Text("transport error"))
    case Reply(status, body, decoded) =>
      match HandleResponse(table, op, status, body, ok)
      case Some(e) => Some(e)
      case None => if decoded then None else Some(Text("no response data"))
  }

  /** A reply that ends the operation, in the server's terms. */
  predicate Conclusive(ok: seq<int>, reply: Reply) {
    reply.Reply? && if reply.status in ok then reply.decoded else 400 <= reply.status < 500 && reply.status != 429
  }

  /**
   Any API operation: the server is called exactly up to the first conclusive reply or the
   N-th call; the operation succeeds exactly when that reply is a decoded success; and the
   sentinel of the last reply can be matched on what the caller gets.
   */
  method Operation(table: map<(int, int), Factory>, op: int, ok: seq<int>, cfg: Config, replies: nat -> Reply)
      returns (result: Option<Err>, calls: nat)
    requires cfg.attempts > 0
    ensures 0 < calls <= cfg.attempts
    ensures calls == cfg.attempts || Conclusive(ok, replies(calls - 1))
    ensures forall k: nat :: k + 1 < calls ==> !Conclusive(ok, replies(k))
    ensures var last := replies(calls - 1);
            && (result == None <==> last.Reply? && last.status in ok && last.decoded)
            && (last.Reply? && last.status !in ok && (op, last.status) in table && table[(op, last.status)].Wrapping?
                ==> result.Some? && Is(result.value, table[(op, last.status)].name))
            && (last.Reply? && last.status !in ok && cfg.lastErrorOnly
                ==> result.Some? && ReasonOf(result.value) == if last.body.text == "" then "" else last.body.reason)
  {
    var fn := (k: nat) => Outcome(table, op, ok, replies(k));
    forall k: nat
      ensures Settles(cfg, fn, (_: nat) => false, k) <==> Conclusive(ok, replies(k)) || k + 1 == cfg.attempts
    {
      if replies(k).Reply? {
        Classified(table, op, replies(k).status, replies(k).body, ok);
      }
    }
    result, calls := RetryContext(cfg, fn, (_: nat) => false);
    var last := replies(calls - 1);
    if result.Some? {
      LoggedLength(fn, calls);
      assert Logged(fn, calls)[calls - 1] == Unpack(fn(calls - 1).value);
      if last.Reply? {
        Classified(table, op, last.status, last.body, ok);
      }
    }
  }

  /** Access: rotating a credential is not idempotent, so it is sent exactly once whatever the
      configuration says. */
  method Access(table: map<(int, int), Factory>, op: int, cfg: Config, rotate: bool, replies: nat -> Reply)
      returns (result: Option<Err>, calls: nat)
    requires rotate || cfg.attempts > 0
    ensures calls > 0 && (rotate ==> calls == 1)
    ensures !rotate ==> calls <= cfg.attempts && (calls == cfg.attempts || Conclusive([200], replies(calls - 1)))
    ensures forall k: nat :: k + 1 < calls ==> !Conclusive([200], replies(k))
    ensures result == None <==> replies(calls - 1).Reply? && replies(calls - 1).status == 200 && replies(calls - 1).decoded
  {
    var retryCfg := cfg;
    if rotate {
      retryCfg := retryCfg.(attempts := 1);
    }
    result, calls := Operation(table, op, [200], retryCfg, replies);
  }
}
