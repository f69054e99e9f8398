/**
 ConvertDomainToOnChain and ListDomains of websites.go, against a server that may lose a
 request before it acts or lose its reply after it has committed the one-way conversion.
 */
module Convert {
  import opened Prelude
  import opened Decimal
  import opened Retry

  datatype Domain = Domain(id: int, name: string)

  const ALREADY_ON_CHAIN := "domain is already on-chain managed"

  const OP_LIST_DOMAINS := 35
  const OP_CONVERT := 42

  /** strings.Contains. */
  predicate Contains(s: string, sub: string) {
    sub <= s || (s != [] && Contains(s[1..], sub))
  }

  ghost predicate OccursAt(s: string, sub: string, i: nat) {
    i + |sub| <= |s| && s[i..i + |sub|] == sub
  }

  lemma {:induction false} ContainsIff(s: string, sub: string)
    ensures Contains(s, sub) <==> exists i: nat :: OccursAt(s, sub, i)
  {
    if sub <= s {
      assert OccursAt(s, sub, 0);
    } else if s != [] {
      ContainsIff(s[1..], sub);
      if i: nat :| OccursAt(s[1..], sub, i) {
        assert s[1..][i..i + |sub|] == s[i + 1..i + 1 + |sub|];
        assert OccursAt(s, sub, i + 1);
      }
      if i: nat :| OccursAt(s, sub, i) {
        assert i > 0;
        assert s[1..][i - 1..i - 1 + |sub|] == s[i..i + |sub|];
        assert OccursAt(s[1..], sub, i - 1);
      }
    }
  }

  // ---------- Listing ----------

  datatype ListReply = NoListing | Listing(status: int, body: Body, data: Option<seq<Domain>>)

  function ListOutcome(table: map<(int, int), Factory>, reply: ListReply): Option<Err> {
    match reply
    case NoListing => Some(Text("transport error"))
    case Listing(status, body, _) => HandleResponse(table, OP_LIST_DOMAINS, status, body, [200])
  }

  /** Listing j is the first to get through, and every one before it is lost or answered by a
      status that is retried. */
  ghost predicate FirstListing(replies: nat -> ListReply, j: nat) {
    && replies(j).Listing? && replies(j).status == 200
    && forall i: nat :: i < j && replies(i).Listing? ==>
         replies(i).status == 429 || !(replies(i).status == 200 || 400 <= replies(i).status < 500)
  }

  /** ListDomains: the entries of the first listing that gets through. */
  method ListDomains(table: map<(int, int), Factory>, cfg: Config, replies: nat -> ListReply)
      returns (domains: seq<Domain>, err: Option<Err>)
    requires cfg.attempts > 0
    ensures forall j: nat :: j < cfg.attempts && FirstListing(replies, j) ==>
              err == None && if replies(j).data == None then domains == [] else replies(j).data == Some(domains)
    ensures err == None ==> exists j: nat :: j < cfg.attempts && FirstListing(replies, j)
    ensures err.Some? ==> Recoverable(err.value)
  {
    var fn := (k: nat) => ListOutcome(table, replies(k));
    var calls: nat;
    forall k: nat
      ensures fn(k) == None <==> replies(k).Listing? && replies(k).status == 200
      ensures fn(k).Some? ==>
                && Recoverable(Unpack(fn(k).value))
                && (Recoverable(fn(k).value) <==> (replies(k).Listing? ==> !ClientError(replies(k).status)))
    {
      if replies(k).Listing? {
        Classified(table, OP_LIST_DOMAINS, replies(k).status, replies(k).body, [200]);
      }
    }
    err, calls := RetryContext(cfg, fn, (_: nat) => false);
    domains := [];
    if err == None {
      assert FirstListing(replies, calls - 1);
      if replies(calls - 1).data != None {
        domains := replies(calls - 1).data.value;
      }
    }
    if err.Some? {
      LoggedLength(fn, calls);
      LoggedRecoverable(fn, calls);
    }
  }

  lemma {:induction false} LoggedRecoverable(fn: nat -> Option<Err>, n: nat)
    requires forall k: nat :: k < n ==> fn(k).Some? && Recoverable(Unpack(fn(k).value))
    ensures forall i :: 0 <= i < |Logged(fn, n)| ==> Recoverable(Logged(fn, n)[i])
  {
    if n > 0 {
      LoggedRecoverable(fn, n - 1);
    }
  }

  // ---------- The server ----------

  /** What becomes of one conversion request. */
  datatype Fate =
    | LostRequest                                  // never reaches the server
    | Served(commit: bool, reply: ReplyFate)       // the server acts; commit: it is able to convert

  datatype ReplyFate =
    | LostReply                                    // acted on, but no answer arrives
    | Arrives                                      // the server's own answer arrives
    | Garbled(status: int)                         // some other status arrives instead

  datatype Response =
    | NoResponse
    | Response(status: int, body: Body, details422: Option<string>, json200: Option<Domain>)

  /** One domain, the server that holds it, and everything outside the client's control:
      the fate of the k-th request, the answers the server would give, and the listings that
      the k-th attempt would see. */
  datatype World = World(
    fate: nat -> Fate,
    converted: nat -> Option<Domain>,              // the decoded body of a 200
    refusal: nat -> int,                           // status when it cannot convert
    details: nat -> string,                        // details sent with a 422
    body: nat -> Body,
    listing: nat -> nat -> ListReply)
  {
    /** The server's contract: exactly the "already on-chain" answers carry that text. */
    ghost predicate Honest(start: bool) {
      forall k: nat :: HonestAt(start, k)
    }

    ghost predicate HonestAt(start: bool, k: nat) {
      OnChain(start, k) <==> exists i: nat :: OccursAt(details(k), "domain is already on-chain managed", i)
    }

    /** Whether the server holds the domain as on-chain before request k. */
    function OnChain(start: bool, k: nat): bool {
      if k == 0 then start else OnChain(start, k - 1) || (fate(k - 1).Served? && fate(k - 1).commit)
    }

    /** The client is told no: a 4xx other than 429 that is not "already on-chain". */
    predicate Refused(start: bool, k: nat) {
      match fate(k)
      case LostRequest => false
      case Served(_, LostReply) => false
      case Served(_, Garbled(status)) => 400 <= status < 500 && status != 429
      case Served(commit, Arrives) => !OnChain(start, k) && !commit && 400 <= refusal(k) < 500 && refusal(k) != 429
    }

    /** The answer to request k arrives and says that the domain was already on-chain. */
    predicate ToldOnChain(start: bool, k: nat) {
      OnChain(start, k) && fate(k).Served? && fate(k).reply == Arrives
    }

    /** The answer to request k arrives and reports its own conversion, with the domain. */
    predicate ToldConverted(start: bool, k: nat) {
      !OnChain(start, k) && fate(k) == Served(true, Arrives) && converted(k).Some?
    }
  }

  class Portal {
    var onChain: bool

    /** Serves request k. */
    method Post(w: World, k: nat) returns (r: Response)
      modifies this
      ensures onChain == (old(onChain) || (w.fate(k).Served? && w.fate(k).commit))
      ensures r == match w.fate(k)
                   case LostRequest => NoResponse
                   case Served(_, LostReply) => NoResponse
                   case Served(_, Garbled(status)) => Response(status, w.body(k), None, None)
                   case Served(commit, Arrives) =>
                     if old(onChain) then Response(422, w.body(k), Some(w.details(k)), None)
                     else if commit then Response(200, w.body(k), None, w.converted(k))
                     else Response(w.refusal(k), w.body(k), Some(w.details(k)), None)
    {
      match w.fate(k)
      case LostRequest => r := NoResponse;
      case Served(commit, reply) =>
        var before := onChain;
        onChain := onChain || commit;
        match reply
        case LostReply => r := NoResponse;
        case Garbled(status) => r := Response(status, w.body(k), None, None);
        case Arrives =>
          r := if before then Response(422, w.body(k), Some(w.details(k)), None)
               else if commit then Response(200, w.body(k), None, w.converted(k))
               else Response(w.refusal(k), w.body(k), Some(w.details(k)), None);
    }
  }

  // ---------- The client ----------

  predicate AlreadyOnChain(r: Response) {
    r.Response? && r.status == 422 && r.details422.Some? && Contains(r.details422.value, ALREADY_ON_CHAIN)
  }

  /** A listing that contains the domain is the first to get through. */
  ghost predicate Finds(cfg: Config, replies: nat -> ListReply, domainID: string) {
    exists j: nat :: j < cfg.attempts && FindsAt(replies, domainID, j)
  }

  ghost predicate FindsAt(replies: nat -> ListReply, domainID: string, j: nat) {
    FirstListing(replies, j) && replies(j).data.Some? && exists d :: d in replies(j).data.value && Itoa(d.id) == domainID
  }

  /** After an "already on-chain" answer: the domain's entry in the current listing.  Whatever
      goes wrong here is retried. */
  method FindCurrent(table: map<(int, int), Factory>, cfg: Config, replies: nat -> ListReply, domainID: string)
      returns (result: Option<Domain>, err: Option<Err>)
    requires cfg.attempts > 0
    ensures err == None <==> Finds(cfg, replies, domainID)
    ensures err == None ==> result.Some? && Itoa(result.value.id) == domainID
    ensures err.Some? ==> Recoverable(err.value)
  {
    result := None;
    var domains, listErr := ListDomains(table, cfg, replies);
    if listErr.Some? {
      return result, listErr;
    }
    ghost var listed: nat :| listed < cfg.attempts && FirstListing(replies, listed);
    for i := 0 to |domains|
      invariant forall j :: 0 <= j < i ==> Itoa(domains[j].id) != domainID
    {
      if Itoa(domains[i].id) == domainID {
        assert domains[i] in domains && FindsAt(replies, domainID, listed);
        return Some(domains[i]), None;
      }
    }
    err := Some(Text("already on-chain but not found in current state"));
  }

  /** What a caller can observe of a successful attempt: either the conversion is reported by
      its own request, or the server says it was made before and the listing that the client
      then asks for gets through and contains the domain. */
  ghost predicate Succeeds(w: World, start: bool, cfg: Config, domainID: string, k: nat) {
    w.ToldConverted(start, k) || (w.ToldOnChain(start, k) && Finds(cfg, w.listing(k), domainID))
  }

  /** One attempt of the conversion: the closure given to RetryContext.  It is retried exactly
      when it neither succeeds nor is refused: a listing that is lost, fails with any status or
      lacks the domain is retried too. */
  method Attempt(portal: Portal, w: World, ghost start: bool, table: map<(int, int), Factory>, cfg: Config,
                 domainID: string, k: nat)
      returns (result: Option<Domain>, err: Option<Err>)
    requires cfg.attempts > 0 && w.Honest(start) && portal.onChain == w.OnChain(start, k)
    modifies portal
    ensures portal.onChain == w.OnChain(start, k + 1)
    ensures err == None <==> Succeeds(w, start, cfg, domainID, k)
    ensures err.Some? && !Recoverable(err.value) <==> w.Refused(start, k)
    ensures err == None ==> portal.onChain && result.Some?
                            && if w.ToldOnChain(start, k) then Itoa(result.value.id) == domainID else result == w.converted(k)
  {
    assert w.HonestAt(start, k);
    ContainsIff(w.details(k), ALREADY_ON_CHAIN);
    result := None;
    var resp := portal.Post(w, k);
    if resp.NoResponse? {
      return result, Some(Text("transport error"));
    }
    if AlreadyOnChain(resp) {
      result, err := FindCurrent(table, cfg, w.listing(k), domainID);
      return;
    }
    Classified(table, OP_CONVERT, resp.status, resp.body, [200]);
    err := HandleResponse(table, OP_CONVERT, resp.status, resp.body, [200]);
    if err.Some? {
      return result, err;
    }
    if resp.json200 == None {
      return result, Some(Text("no response data"));
    }
    result := resp.json200;
  }

  /** Attempt k is the last one. */
  ghost predicate Concludes(w: World, start: bool, cfg: Config, domainID: string, cancelled: nat -> bool, k: nat) {
    Succeeds(w, start, cfg, domainID, k) || w.Refused(start, k) || cancelled(k) || k + 1 == cfg.attempts
  }

  /**
   ConvertDomainToOnChain, exactly: for every pattern of lost requests, lost replies, other
   statuses, refusals, failed listings and cancellations, the attempts go on to the first that
   succeeds, is refused, is cancelled or is the last allowed, and there is no error if and only
   if that one succeeds.  No error means the server holds the domain as on-chain.
   */
  method ConvertDomainToOnChain(portal: Portal, w: World, table: map<(int, int), Factory>, cfg: Config,
                                domainID: string, cancelled: nat -> bool)
      returns (result: Option<Domain>, err: Option<Err>, calls: nat)
    requires cfg.attempts > 0 && w.Honest(portal.onChain)
    modifies portal
    ensures 0 < calls <= cfg.attempts && portal.onChain == w.OnChain(old(portal.onChain), calls)
    ensures Concludes(w, old(portal.onChain), cfg, domainID, cancelled, calls - 1)
    ensures forall k: nat :: k + 1 < calls ==> !Concludes(w, old(portal.onChain), cfg, domainID, cancelled, k)
    ensures err == None <==> Succeeds(w, old(portal.onChain), cfg, domainID, calls - 1)
    ensures err == None ==> portal.onChain && result.Some?
                            && if w.ToldOnChain(old(portal.onChain), calls - 1) then Itoa(result.value.id) == domainID
                               else result == w.converted(calls - 1)
  {
    ghost var start := portal.onChain;
    var log: seq<Err> := [];
    var n := 0;
    while true
      invariant n < cfg.attempts && |log| == n && portal.onChain == w.OnChain(start, n)
      invariant forall k: nat :: k < n ==> !Concludes(w, start, cfg, domainID, cancelled, k)
      decreases cfg.attempts - n
    {
      result, err := Attempt(portal, w, start, table, cfg, domainID, n);
      var next := AfterCall(cfg, log, err, cancelled(n));
      if next.Return? {
        return result, next.result, n + 1;
      }
      log := log + [Unpack(err.value)];
      n := n + 1;
    }
  }

  /** A conversion, once committed, stays. */
  lemma {:induction false} StaysOnChain(w: World, start: bool, k: nat, m: nat)
    requires w.OnChain(start, k) && k <= m
    ensures w.OnChain(start, m)
  {
    if k < m {
      StaysOnChain(w, start, k, m - 1);
    }
  }

  /**
   Idempotence under lost replies: request c commits, in whatever way its reply is lost, and
   request k is a later one whose reply gets through within Attempts, as does a listing after it
   that contains the domain's entry d.  Whatever was lost in between, short of a refusal or a cancellation, the call
   succeeds by attempt k at the latest.
   */
  lemma LostCommitRecovered(w: World, start: bool, cfg: Config, domainID: string, cancelled: nat -> bool,
                            c: nat, k: nat, j: nat, body: Body, entries: seq<Domain>, d: Domain, calls: nat)
    requires w.fate(c).Served? && w.fate(c).commit && c < k < cfg.attempts
    requires w.fate(k).Served? && w.fate(k).reply == Arrives
    requires j < cfg.attempts && w.listing(k)(j) == Listing(200, body, Some(entries))
    requires d in entries && Itoa(d.id) == domainID
    requires forall i: nat :: i < j && w.listing(k)(i).Listing? ==>
               w.listing(k)(i).status == 429 || !(w.listing(k)(i).status == 200 || 400 <= w.listing(k)(i).status < 500)
    requires forall j: nat :: j < k ==> !w.Refused(start, j) && !cancelled(j)
    requires calls > 0 && Concludes(w, start, cfg, domainID, cancelled, calls - 1)
    requires forall j: nat :: j + 1 < calls ==> !Concludes(w, start, cfg, domainID, cancelled, j)
    ensures calls <= k + 1 && Succeeds(w, start, cfg, domainID, calls - 1)
  {
    StaysOnChain(w, start, c + 1, k);
    assert FindsAt(w.listing(k), domainID, j);
    assert Succeeds(w, start, cfg, domainID, k);
    assert Concludes(w, start, cfg, domainID, cancelled, k);
  }
}
