/** Token refresh and client rewiring of sdk.go, download.go, upload.go and pinning.go. */
module TokenGraph {
  import opened Prelude

  /** A transport, as layers of host override around some base. */
  datatype Transport = Base | Override(inner: Transport)
  {
    function Depth(): nat { if Base? then 0 else 1 + inner.Depth() }

    /** rebuildInternalGen takes one override off before it puts one on. */
    function Unwrapped(): Transport { if Override? then inner else this }
  }

  /** http.Client, shared by pointer. */
  class HttpClient {
    var transport: Transport

    constructor (transport: Transport)
      ensures this.transport == transport
    {
      this.transport := transport;
    }
  }

  /** AuthRoundTripper: the token it injects, around some transport. */
  class AuthTransport {
    var token: string

    constructor (token: string)
      ensures this.token == token
    {
      this.token := token;
    }
  }

  /** A generated API client: its request editor has captured a token. */
  datatype Generated = Generated(token: string, transport: Transport)

  class PinningService {
    var authToken: string

    constructor (token: string)
      ensures authToken == token
    {
      authToken := token;
    }
  }

  class UploadService {
    var authToken: string
    const auth: AuthTransport

    constructor (token: string)
      ensures authToken == token && auth.token == token && fresh(auth)
    {
      authToken := token;
      auth := new AuthTransport(token);
    }

    method SetAuthToken(token: string)
      modifies this, auth
      ensures authToken == token && auth.token == token
    {
      authToken := token;
      auth.token := token;
    }
  }

  class DownloadService {
    var authToken: string
    const auth: AuthTransport
    var blockMeta: Generated           // metadata queries
    const rateLimited: bool
    var rateMeta: Generated            // the rate-limited blockstore's meta client, if any

    constructor (token: string, gen: Generated, rateLimited: bool)
      ensures authToken == token && auth.token == token && fresh(auth)
      ensures blockMeta == gen && this.rateLimited == rateLimited && rateMeta == gen
    {
      authToken, blockMeta, rateMeta := token, gen, gen;
      this.rateLimited := rateLimited;
      auth := new AuthTransport(token);
    }

    method SetBlockMetaClient(gen: Generated)
      modifies this
      ensures blockMeta == gen && rateMeta == (if rateLimited then gen else old(rateMeta)) && authToken == old(authToken)
    {
      blockMeta := gen;
      if rateLimited {
        rateMeta := gen;
      }
    }

    /** rebuilt says whether the fresh block-meta client could be built. */
    method SetAuthToken(token: string, rebuilt: bool)
      modifies this, auth
      ensures authToken == token && auth.token == token
      ensures if rebuilt then blockMeta.token == token && (rateLimited ==> rateMeta == blockMeta)
              else blockMeta == old(blockMeta) && rateMeta == old(rateMeta)
    {
      authToken := token;
      auth.token := token;
      if rebuilt {
        SetBlockMetaClient(Generated(token, Base));
      }
    }
  }

  /** Every place that holds a token, and the transport layers of the generated client. */
  datatype Tokens = Tokens(editor: string, generated: string, pinning: string, upload: string, uploadAuth: string,
                           download: string, downloadAuth: string, blockMeta: string, rateMeta: string)
  {
    predicate Coherent() {
      generated == pinning == upload == uploadAuth == download == downloadAuth == blockMeta == rateMeta
    }

    /** A successful rebuild of the generated client: it and the block-meta clients take the
        token of the current request editor. */
    function Rebuilt(): Tokens { this.(generated := editor, blockMeta := editor, rateMeta := editor) }

    function Refreshed(token: string): Tokens {
      this.(editor := token).Rebuilt().(pinning := token, upload := token, uploadAuth := token,
                                        download := token, downloadAuth := token)
    }
  }

  /** The transport of a generated client built over h.  Without a client there is nothing to
      override. */
  ghost function Built(hostOverride: bool, h: HttpClient?): Transport
    reads h
  {
    if h == null then Base else if hostOverride then Override(h.transport.Unwrapped()) else h.transport
  }

  class Client {
    var httpClient: HttpClient?
    const hostOverride: bool
    var bearerToken: string
    var editorToken: string            // captured by genClientOpts
    var internalGen: Generated
    const pinning: PinningService
    const upload: UploadService
    const download: DownloadService

    ghost function View(): Tokens
      reads this, pinning, upload, upload.auth, download, download.auth
    {
      Tokens(editorToken, internalGen.token, pinning.authToken, upload.authToken, upload.auth.token,
             download.authToken, download.auth.token, download.blockMeta.token,
             if download.rateLimited then download.rateMeta.token else download.blockMeta.token)
    }

    /** NewClient: with a host override the shared http.Client itself is wrapped, in place. */
    constructor (http: HttpClient, token: string, hostOverride: bool, rateLimited: bool)
      modifies http
      ensures View().Coherent() && View().generated == token && View().editor == token
      ensures httpClient == http && this.hostOverride == hostOverride
      ensures http.transport == if hostOverride then Override(old(http.transport)) else old(http.transport)
      ensures internalGen.transport == http.transport
      ensures fresh(pinning) && fresh(upload) && fresh(upload.auth) && fresh(download) && fresh(download.auth)
    {
      httpClient, this.hostOverride, bearerToken, editorToken := http, hostOverride, token, token;
      var gen := Generated(token, if hostOverride then Override(http.transport) else http.transport);
      internalGen := gen;
      pinning := new PinningService(token);
      upload := new UploadService(token);
      download := new DownloadService(token, gen, rateLimited);
      new;
      if hostOverride {
        http.transport := Override(http.transport);
      }
    }

    /** rebuildInternalGen; ok is false when the generated client cannot be built. */
    method Rebuild(ok: bool) returns (done: bool)
      modifies this`internalGen, download
      ensures done == ok
      ensures View() == if ok then old(View()).Rebuilt() else old(View())
      ensures internalGen.transport == if ok then Built(hostOverride, httpClient) else old(internalGen.transport)
      ensures ok && httpClient != null ==>
                internalGen.transport.Depth() == if hostOverride then Max(1, httpClient.transport.Depth()) else httpClient.transport.Depth()
    {
      if !ok {
        return false;
      }
      var transport := Base;
      if httpClient != null {
        transport := httpClient.transport;
        if hostOverride {
          if transport.Override? {
            transport := transport.inner;
          }
          transport := Override(transport);
        }
      }
      internalGen := Generated(editorToken, transport);
      download.SetBlockMetaClient(internalGen);
      done := true;
    }

    method SetHTTPClient(http: HttpClient?, ok: bool) returns (done: bool)
      modifies this`httpClient, this`internalGen, download
      ensures done == ok && httpClient == http
      ensures View() == if ok then old(View()).Rebuilt() else old(View())
      ensures internalGen.transport == if ok then Built(hostOverride, http) else old(internalGen.transport)
    {
      httpClient := http;
      done := Rebuild(ok);
    }

    method SetBaseURL(ok: bool) returns (done: bool)
      modifies this`internalGen, download
      ensures done == ok
      ensures View() == if ok then old(View()).Rebuilt() else old(View())
      ensures internalGen.transport == if ok then Built(hostOverride, httpClient) else old(internalGen.transport)
    {
      done := Rebuild(ok);
    }

    method SetBearerToken(token: string, ok: bool) returns (done: bool)
      modifies this`bearerToken, this`editorToken, this`internalGen, download
      ensures done == ok && bearerToken == token
      ensures var edited := old(View()).(editor := token);
              View() == if ok then edited.Rebuilt() else edited
      ensures internalGen.transport == if ok then Built(hostOverride, httpClient) else old(internalGen.transport)
    {
      bearerToken := token;
      editorToken := token;
      done := Rebuild(ok);
    }

    method SetAuthToken(token: string, ok: bool, rebuilt: bool) returns (done: bool)
      modifies this`bearerToken, this`editorToken, this`internalGen, pinning, upload, upload.auth, download, download.auth
      ensures done == ok && bearerToken == token
      ensures View() == if ok then old(View()).Refreshed(token) else old(View()).(editor := token)
      ensures internalGen.transport == if ok then Built(hostOverride, httpClient) else old(internalGen.transport)
    {
      done := SetBearerToken(token, ok);
      if !done {
        return;
      }
      pinning.authToken := token;
      upload.SetAuthToken(token);
      download.SetAuthToken(token, rebuilt);
      download.SetBlockMetaClient(internalGen);
    }
  }

  // ---------- Any sequence of calls ----------

  /** A call on the client, with whether the generated client could be rebuilt. */
  datatype Call =
    | Auth(token: string, ok: bool)
    | Bearer(token: string, ok: bool)
    | Url(ok: bool)
    | Http(http: HttpClient?, ok: bool)

  function Apply(t: Tokens, c: Call): Tokens {
    match c
    case Auth(token, ok) => if ok then t.Refreshed(token) else t.(editor := token)
    case Bearer(token, ok) => if ok then t.(editor := token).Rebuilt() else t.(editor := token)
    case _ => if c.ok then t.Rebuilt() else t
  }

  function ApplyAll(t: Tokens, calls: seq<Call>): Tokens {
    if calls == [] then t else Apply(ApplyAll(t, calls[..|calls| - 1]), calls[|calls| - 1])
  }

  /** The token most recently set, whether or not that call succeeded. */
  function LastSet(calls: seq<Call>, initial: string): string {
    if calls == [] then initial
    else
      match calls[|calls| - 1]
      case Auth(token, _) => token
      case Bearer(token, _) => token
      case _ => LastSet(calls[..|calls| - 1], initial)
  }

  /** The token most recently set when the generated client was last rebuilt. */
  function LastBuilt(calls: seq<Call>, initial: string): string {
    if calls == [] then initial
    else if calls[|calls| - 1].ok then LastSet(calls, initial)
    else LastBuilt(calls[..|calls| - 1], initial)
  }

  /** The token of the last successful SetAuthToken. */
  function LastAuth(calls: seq<Call>, initial: string): string {
    if calls == [] then initial
    else if calls[|calls| - 1].Auth? && calls[|calls| - 1].ok then calls[|calls| - 1].token
    else LastAuth(calls[..|calls| - 1], initial)
  }

  /** From a fresh client, every holder is on one of two tokens, and the client is coherent
      exactly when those two agree. */
  lemma {:induction false} CoherentIff(t: Tokens, calls: seq<Call>)
    requires t.Coherent() && t.editor == t.generated
    ensures var now := ApplyAll(t, calls);
            var built, auth := LastBuilt(calls, t.generated), LastAuth(calls, t.generated);
            && now.editor == LastSet(calls, t.generated)
            && now.generated == now.blockMeta == now.rateMeta == built
            && now.pinning == now.upload == now.uploadAuth == now.download == now.downloadAuth == auth
            && (now.Coherent() <==> built == auth)
  {
    if calls != [] {
      CoherentIff(t, calls[..|calls| - 1]);
    }
  }

  /** Using only SetAuthToken, SetBaseURL and SetHTTPClient, all successful, keeps every
      holder on the one token set last. */
  lemma {:induction false} SuccessfulCallsCoherent(t: Tokens, calls: seq<Call>)
    requires t.Coherent() && t.editor == t.generated
    requires forall i :: 0 <= i < |calls| ==> calls[i].ok && !calls[i].Bearer?
    ensures ApplyAll(t, calls).Coherent() && ApplyAll(t, calls).generated == LastSet(calls, t.generated)
  {
    CoherentIff(t, calls);
    SameToken(calls, t.generated);
  }

  lemma {:induction false} SameToken(calls: seq<Call>, initial: string)
    requires forall i :: 0 <= i < |calls| ==> calls[i].ok && !calls[i].Bearer?
    ensures LastSet(calls, initial) == LastBuilt(calls, initial) == LastAuth(calls, initial)
  {
    if calls != [] {
      SameToken(calls[..|calls| - 1], initial);
    }
  }

  /** SetBearerToken alone, or a failed SetAuthToken followed by a successful SetBaseURL,
      leaves the generated client on another token than the other services. */
  lemma IncoherentCalls(t: Tokens, token: string)
    requires t.Coherent() && t.editor == t.generated != token
    ensures !ApplyAll(t, [Bearer(token, true)]).Coherent()
    ensures !ApplyAll(t, [Auth(token, false), Url(true)]).Coherent()
  {
    var a, b := [Bearer(token, true)], [Auth(token, false), Url(true)];
    CoherentIff(t, a);
    CoherentIff(t, b);
    assert a[..0] == [] && b[..1] == [Auth(token, false)] && b[..1][..0] == [];
    assert LastAuth(b[..1], t.generated) == LastAuth([], t.generated);
    assert LastSet(b, t.generated) == LastSet(b[..1], t.generated);
  }

  method Perform(c: Client, call: Call)
    modifies c`httpClient, c`bearerToken, c`editorToken, c`internalGen
    modifies c.pinning, c.upload, c.upload.auth, c.download, c.download.auth
    ensures c.View() == Apply(old(c.View()), call)
    ensures c.httpClient == if call.Http? then call.http else old(c.httpClient)
    ensures c.internalGen.transport ==
            if call.ok then Built(c.hostOverride, c.httpClient) else old(c.internalGen.transport)
  {
    match call
    case Auth(token, ok) =>
      var rebuilt := *;
      var _ := c.SetAuthToken(token, ok, rebuilt);
    case Bearer(token, ok) => var _ := c.SetBearerToken(token, ok);
    case Url(ok) => var _ := c.SetBaseURL(ok);
    case Http(http, ok) => var _ := c.SetHTTPClient(http, ok);
  }

  // ---------- Host override layers ----------

  /** The http.Client most recently set, whether or not that call succeeded. */
  function LastClient(calls: seq<Call>, initial: HttpClient?): HttpClient? {
    if calls == [] then initial
    else if calls[|calls| - 1].Http? then calls[|calls| - 1].http
    else LastClient(calls[..|calls| - 1], initial)
  }

  /** The http.Client that the generated client was last rebuilt over, if it ever was. */
  function LastSource(calls: seq<Call>, initial: HttpClient?): Option<HttpClient?> {
    if calls == [] then None
    else if calls[|calls| - 1].ok then Some(LastClient(calls, initial))
    else LastSource(calls[..|calls| - 1], initial)
  }

  predicate Supplied(calls: seq<Call>, initial: HttpClient?, h: HttpClient?) {
    h == initial || exists i :: 0 <= i < |calls| && calls[i].Http? && calls[i].http == h
  }

  ghost predicate AtMostOne(h: HttpClient?)
    reads h
  {
    h != null ==> h.transport.Depth() <= 1
  }

  /** The layers of a rebuilt transport: with a host override the one that is there stays or one
      is put on, without one nothing changes; so there is at most one exactly when the
      http.Client it was built over has at most one. */
  lemma OneOverride(hostOverride: bool, h: HttpClient?)
    ensures h != null && hostOverride ==> Built(hostOverride, h).Depth() == Max(1, h.transport.Depth())
    ensures h != null && !hostOverride ==> Built(hostOverride, h) == h.transport
    ensures h == null ==> Built(hostOverride, h) == Base
    ensures Built(hostOverride, h).Depth() <= 1 <==> AtMostOne(h)
  {
  }

  lemma {:induction false} SourceSupplied(calls: seq<Call>, initial: HttpClient?)
    ensures Supplied(calls, initial, LastClient(calls, initial))
    ensures LastSource(calls, initial).Some? ==> Supplied(calls, initial, LastSource(calls, initial).value)
  {
    if calls != [] {
      var front := calls[..|calls| - 1];
      SourceSupplied(front, initial);
      assert forall h :: Supplied(front, initial, h) ==> Supplied(calls, initial, h) by {
        assert forall i :: 0 <= i < |front| ==> front[i] == calls[i];
      }
      assert calls[|calls| - 1].Http? ==> Supplied(calls, initial, calls[|calls| - 1].http);
    }
  }

  /** Any calls on the object graph: the tokens become what ApplyAll says, and the internal
      transport is built over the client that was set when it was last rebuilt.  So it has at
      most one override if and only if that client has. */
  method PerformAll(c: Client, calls: seq<Call>)
    modifies c`httpClient, c`bearerToken, c`editorToken, c`internalGen
    modifies c.pinning, c.upload, c.upload.auth, c.download, c.download.auth
    ensures c.View() == ApplyAll(old(c.View()), calls)
    ensures match LastSource(calls, old(c.httpClient))
            case None => c.internalGen.transport == old(c.internalGen.transport)
            case Some(h) => c.internalGen.transport == Built(c.hostOverride, h)
                            && (c.internalGen.transport.Depth() <= 1 <==> AtMostOne(h))
                            && (h != null ==> c.internalGen.transport.Depth()
                                              == if c.hostOverride then Max(1, h.transport.Depth()) else h.transport.Depth())
  {
    for i := 0 to |calls|
      invariant c.View() == ApplyAll(old(c.View()), calls[..i])
      invariant c.httpClient == LastClient(calls[..i], old(c.httpClient))
      invariant match LastSource(calls[..i], old(c.httpClient))
                case None => c.internalGen.transport == old(c.internalGen.transport)
                case Some(h) => c.internalGen.transport == Built(c.hostOverride, h)
    {
      assert calls[..i + 1][..i] == calls[..i];
      SourceSupplied(calls[..i], old(c.httpClient));
      Perform(c, calls[i]);
    }
    assert calls[..|calls|] == calls;
    if LastSource(calls, old(c.httpClient)).Some? {
      OneOverride(c.hostOverride, LastSource(calls, old(c.httpClient)).value);
    }
  }

  /** The life of a client: after any sequence of successful SetAuthToken, SetBaseURL and
      SetHTTPClient calls every holder is on the token set last, and the internal transport has
      at most one override, when no supplied http.Client has more: with a host override exactly
      one, unless a nil client was supplied. */
  method FreshClientStaysCoherent(http: HttpClient, token: string, hostOverride: bool, rateLimited: bool,
                                  calls: seq<Call>)
      returns (c: Client)
    requires http.transport == Base
    requires forall i :: 0 <= i < |calls| ==> calls[i].ok && !calls[i].Bearer? && (calls[i].Http? ==> AtMostOne(calls[i].http))
    modifies http
    ensures c.View().Coherent() && c.View().generated == LastSet(calls, token)
    ensures c.internalGen.transport.Depth() <= 1
    ensures hostOverride && (forall i :: 0 <= i < |calls| && calls[i].Http? ==> calls[i].http != null) ==>
              c.internalGen.transport.Depth() == 1
  {
    c := new Client(http, token, hostOverride, rateLimited);
    SuccessfulCallsCoherent(c.View(), calls);
    SourceSupplied(calls, http);
    PerformAll(c, calls);
  }

  /** Two clients built over the same http.Client wrap it twice, and the second one's
      internal transport then keeps two overrides across every rebuild. */
  method SharedClientWrappedTwice(http: HttpClient, token: string) returns (second: Client)
    requires http.transport == Base
    modifies http
    ensures second.internalGen.transport.Depth() == 2
  {
    var first := new Client(http, token, true, false);
    second := new Client(http, token, true, false);
    var _ := second.SetBaseURL(true);
    assert http.transport == Override(Override(Base));
  }
}
