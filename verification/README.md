# Verified model of the IPFS SDK's stateful cores

This project models, in Dafny, the parts of the Go SDK whose correctness depends on state,
interleaving or retries, and proves what they promise.

* **Reconnecting event stream** (`internal/sse/sse.go`, started once from
  `websites_events.go`). `SseModel` is a step system at the granularity of single lock,
  channel and `done` operations: one `Start` thread, any number of handler goroutines, one
  reader goroutine per connection with its 100-slot channel, any number of concurrent
  `Disconnect` calls, and a server whose log grows. A run is any finite interleaving.
  `SseSafety` proves one connect owner, an exact WaitGroup, sound waiting, `done` closed
  once, no leaked stream, and that no lock is held while blocking. `SseDelivery` proves
  exactly-once, in-order delivery. `SseProgress` proves that an open, reconnecting client can
  always go on to deliver everything logged, `SseShutdown` that a closed one can always finish.
  `SseBackoff` and `SseDispatch` are the sequential loops
  (`handleDisconnection`, `addJitter`, `handleEvents`, `handleEvent`) in imperative form.
* **Tus store** (`internal/tusstore/memory.go`). `TusStore` works on the heap: an upload is a
  slice (array, length, capacity), `append` writes into spare capacity in place, and readers
  hold slices over the same arrays. `TusHistory` covers whole histories over retained handles,
  and resumed sessions.
* **Uploads** (`upload.go`). `TusUpload` runs the tus client against that store, end to end.
  `PostUpload` is the multipart POST replayed across redirects.
* **Retries** (`errors.go`, `internal/http`, `workspace.go`, `internal/download`). `Retry`,
  `RateLimiter` and `Polling` prove each loop against a declarative condition on an arbitrary
  outcome stream.
* **One-way conversion** (`websites.go`). `Convert` runs the client against a server that may
  lose a request, or commit and lose the reply.
* **Token refresh and paths** (`sdk.go`, `download.go`). `TokenGraph` follows every holder of
  the bearer token through any sequence of calls; `PathSegments` is segment parsing.

Assumptions about code outside the repository: `retry.Do` of retry-go v4.7.0 is written out as
a loop; Go's `append` grows to an unspecified sufficient capacity; the event server's log has
unique non-empty ids and a request with a known Last-Event-ID is answered by what follows it
(WHATWG HTML Living Standard, sections 9.2.3 and 9.2.4); tus requests create, append at the
current offset and fetch the offset as in tus resumable upload protocol 1.0.0; only an
"already on-chain" answer carries that text, as the comment at `websites.go:1206-1213` states.

What the proofs show about the code where its own text says or suggests otherwise:

* A handle that `GetUpload` returns at the declared size refuses every further chunk, and a
  deferred-length upload reads as size 0, so refetching it before its first byte closes it.
  `TusHistory.ResumeRefines` says exactly when resuming equals writing in one go.
* `uploadViaTUS` never compares the bytes accepted with the initial chunk. After a partial
  acceptance it still reports success, as `TusUpload.PartialChunkReportedAsSuccess` shows for
  every partial acceptance; `TusUpload.UploadViaTUS` says that the stored bytes are the first
  `size` bytes exactly when the chunk was accepted whole.
* `addJitter` truncates its random factor to an integer, so it never lengthens a delay and
  changes one only when the random number is exactly 0, where its comment promises +/- 2%.
* With no `MaxBackoff` the delay is right exactly as long as the product fits in 63 bits. With
  one above half of the largest int64 a doubling turns negative and slips under the cap;
  `SseBackoff.CappedForever` says exactly which options are safe.
* The limiter's `wait` asks once and treats a denial as an ordinary failure; its comment
  speaks of polling with backoff.
* A 4xx from the listing inside a conversion loses its unrecoverable mark in the inner retry
  loop and is retried by the outer one (`Convert.FindCurrent`, `Convert.Attempt`).
* `SetBearerToken` alone, or a failed `SetAuthToken` followed by a successful `SetBaseURL`,
  leaves services on different tokens. `TokenGraph.CoherentIff` says exactly when they agree.
* Two clients built with a host override over one `http.Client` wrap it twice, and rebuilding
  takes off only one layer.

## Model

| member | source | states |
|---|---|---|
| SseSafety.AlwaysSafe | internal/sse/sse.go:348-412 | the joint invariant (lock holders, single owner, exact WaitGroup, `done` gate, live connections reachable) holds in every state of every interleaving |
| SseSafety.OneConnectOwner | internal/sse/sse.go:553-576 | with one Start, no two threads are ever inside Connect, and no two hold a connection they drain or dial |
| SseSafety.WaitGroupExact | internal/sse/sse.go:393-409 | in every state of every run the WaitGroup equals the number of started, unfinished handlers plus the at most one about to be started |
| SseSafety.ZeroMeansFinished | internal/sse/sse.go:393-409 | the WaitGroup is never negative, and zero means every handler goroutine has finished and none is between Add and go |
| SseSafety.NoAddAfterDone | internal/sse/sse.go:583-590 | after `done` is closed no step of any thread raises the count |
| SseSafety.ZeroStaysZero | internal/sse/sse.go:603-607 | a zero count seen after `done` is closed stays zero, with all handlers finished, for the rest of every run |
| SseSafety.DoneClosedOnce | internal/sse/sse.go:586-590 | whatever Disconnect calls race, the close of `done` finds it open |
| SseSafety.NoLeakedStream | internal/sse/sse.go:592-597 | once a Disconnect has returned and no thread is inside Connect, every connection ever created failed to open, ended or was cancelled |
| SseSafety.WorkerReleasesLocks | internal/sse/sse.go:367-376 | Start or a handler holding connMu or spawnMu can always step and holds none after two of its own steps |
| SseSafety.CloserReleasesLocks | internal/sse/sse.go:586-597 | the same for a Disconnect call |
| SseDelivery.StartContinues | internal/sse/sse.go:357-358 | a stream that starts strictly after the cursor continues the delivered run without gap or repeat |
| SseDelivery.AlwaysFlow | internal/sse/sse.go:161-192 | frames in hand, queued or being sent are the next unseen stretch of the log, in every state of every run |
| SseDelivery.ExactlyOnceInOrder | internal/sse/sse.go:486-510 | the durable events handled so far are one contiguous stretch of the server's log, started right after a known initial cursor, and the cursor is the id of the last |
| SseDelivery.HandledOnce | internal/sse/sse.go:501-506 | no durable event is handled twice in a run |
| SseDelivery.RequestsCarryCursor | internal/sse/sse.go:355-358 | every request in flight carries the current cursor, because only the owner could have moved it |
| SseDelivery.QueuedIsNext | internal/sse/sse.go:486-499 | what waits in the channel being drained is exactly the log from the first unhandled event |
| SseDelivery.DeliveryExtends | internal/sse/sse.go:501-510 | over any later part of a run delivery only grows and its start stays fixed |
| SseDelivery.DurableExactly | internal/sse/sse.go:501-506 | the durable part of any frames is exactly those with an id, as often as they occur |
| SseProgress.EverythingDeliverable | internal/sse/sse.go:532-579 | from every state of every run in which the client is open and reconnects and somebody has not given up, the run can go on until every logged event after the start of delivery is handled, whatever failed before |
| SseProgress.CanReconnect | internal/sse/sse.go:546-573 | a handler whose stream dropped or whose request failed can get to its next request on its own, and that request carries the cursor |
| SseProgress.ChargeKept | internal/sse/sse.go:486-499 | while the client is open and reconnects, no step of any run leaves nobody in charge of connecting and draining, except giving up after a failed request |
| SseProgress.NeverReconnects | internal/sse/sse.go:535-537 | with Reconnect off no handler ever connects, in any run |
| SseProgress.DroppedEnds | internal/sse/sse.go:535-537 | with Reconnect off the only step of a handler whose stream dropped is to end |
| SseProgress.QueueBounded | internal/sse/sse.go:155 | in every run a channel holds at most 100 frames, and nothing is cancelled before `done` is closed |
| SseShutdown.StopCanFinish | internal/sse/sse.go:583-607 | from every state of every run in which `done` is closed, wherever threads are and whatever locks they hold, the run can go on until all threads have finished and the WaitGroup is zero |
| SseBackoff.HandleDisconnection | internal/sse/sse.go:540-579 | one disconnection ends as `Outcome` says, every wait is within 2% below the promised delay when the options keep it, and the error handler fires once exactly when it gives up |
| SseBackoff.OutcomeUnique | internal/sse/sse.go:553-566 | the ending and number of Connect calls are determined, and giving up happens exactly when MaxRetries calls were made and all failed |
| SseBackoff.CappedDelay | internal/sse/sse.go:568-571 | for every Backoff and MaxBackoff above zero, the delays up to attempt k + 1 are min(Backoff times 2^j, MaxBackoff) if and only if doubling each earlier one fits in int64 |
| SseBackoff.CappedForever | internal/sse/sse.go:568-571 | every delay of every run is the promised one if and only if Backoff and MaxBackoff are both at most half of the largest int64 |
| SseBackoff.UncappedDelay | internal/sse/sse.go:568-571 | without a cap the delay is Backoff times 2^k if and only if that fits in int64 |
| SseBackoff.JitterBounds | internal/sse/sse.go:656-659 | jitter stays within 2%, never lengthens, and acts only at one random value |
| SseBackoff.WaitsNearPromised | internal/sse/sse.go:548-571 | the k-th timer of a disconnection is at most 2% below the promised delay and never above it, with and without a cap |
| SseDispatch.Client.HandleEvent | internal/sse/sse.go:501-528 | cursor, handler calls and both counters after one frame |
| SseDispatch.Client.HandleEvents | internal/sse/sse.go:486-499 | every frame received before `done` or the close is handled once, in order; disconnection only after all of them |
| SseDispatch.FrameMeans | internal/sse/sse.go:508-527 | which frames are counted as unparsable, which reach nobody, and which reach every handler of their type in order |
| SseDispatch.DispatchMatchesProtocol | internal/sse/sse.go:501-506 | the imperative loop and the step system leave the same cursor and the same handled frames |
| SseDispatch.InvokedExactlyOnce | internal/sse/sse.go:517-526 | each registered handler is called exactly once per dispatchable frame of its type and for nothing else |
| TusStore.Append | internal/tusstore/memory.go:55-56 | append keeps the old slice's bytes, and writes in place exactly when the capacity suffices |
| TusStore.MemoryStore.Grow | internal/tusstore/memory.go:127-130 | growing a slice nothing reaches past changes no stored and no handed-out byte, although it may write into a shared array |
| TusStore.MemoryStore.AppendTo | internal/tusstore/memory.go:49-57 | the entry is extended by the bytes (a missing one counts as empty), others and all handed-out slices are unchanged |
| TusStore.MemoryStore.NewUpload | internal/tusstore/memory.go:200-236 | an empty entry and filed info under the given or generated id; handed-out slices of a replaced entry keep their bytes |
| TusStore.MemoryStore.GetUpload | internal/tusstore/memory.go:239-270 | exists exactly when info and data exist; offset is the stored length, complete exactly at the declared size |
| TusStore.MemoryStore.HandOut | internal/tusstore/memory.go:273-282 | the stored slice itself is handed out and from then on tracked as unchanging |
| TusStore.MemoryStore.AssembleUploads | internal/tusstore/memory.go:317-330 | succeeds exactly when all parts exist, handing out each part's bytes in order |
| TusStore.MemoryFile.WriteChunk | internal/tusstore/memory.go:34-60 | every error branch, the appended bytes and the advanced offset; nothing stored changes on error |
| TusStore.MemoryFile.GetReader | internal/tusstore/memory.go:98-108 | the stored slice of this handle's upload is handed out and from then on tracked as unchanging; an error exactly when there is none |
| TusStore.MemoryFile.Collect | internal/tusstore/memory.go:116-125 | the parts' bytes in order, or an error exactly when one is missing |
| TusStore.JoinedPlaces | internal/tusstore/memory.go:116-130 | a concatenation is as long as its parts together, and each part lies right behind the parts before it |
| TusStore.MemoryFile.ConcatUploads | internal/tusstore/memory.go:110-138 | appends the joined parts to this upload's own entry, or changes nothing when one is missing |
| TusStore.MemoryFile.Terminate | internal/tusstore/memory.go:62-69 | only this id's entry and info disappear; handed-out slices keep their bytes |
| TusStore.MemoryFile.DeclareLength | internal/tusstore/memory.go:89-96 | the size in the handle and in the filed info |
| TusHistory.ServeAll | internal/tusstore/memory.go:98-108 | after any sequence of operations through any handles, kept across other operations, several on one upload or stale, the store and all handles are their sequential meaning, and every slice handed out before or during it still holds its bytes |
| TusHistory.Run | internal/tusstore/memory.go:174-182 | the same for every history of a new store |
| TusHistory.AppendOnly | internal/tusstore/memory.go:49-57 | until an upload is terminated or created anew, its bytes are only ever added to at the end, whatever handles are used on it and on others |
| TusHistory.FetchedWrite | internal/tusstore/memory.go:260-267 | a write through a freshly fetched handle is refused exactly when there is no such upload, the source fails or the declared size is already stored |
| TusHistory.StaysFiled | internal/tusstore/memory.go:151-163 | infos stay filed under the id they name through every history |
| TusHistory.PlayMove | internal/tusstore/memory.go:254-267 | one chunk or one refetch keeps the handle's offset equal to the stored length and touches no other upload |
| TusHistory.PlaySession | internal/tusstore/memory.go:239-270 | any interleaving of chunks and refetches stores what `Session` says |
| TusHistory.ResumeRefines | internal/tusstore/memory.go:260-267 | the stored bytes equal one handle writing everything if and only if no bytes follow a refetch made at the declared size |
| TusHistory.DeferredUploadLosesBytes | internal/tusstore/memory.go:266 | a concrete session on a deferred-length upload that loses its byte |
| TusUpload.CreateWithData | upload.go:501-509 | creation stores exactly the accepted part of the chunk |
| TusUpload.Patch | upload.go:527 | one append request through a fresh handle: when it succeeds and what it adds |
| TusUpload.Copy | upload.go:527-532 | success means the reader ended cleanly and all of it was appended; without faults and within the size it succeeds |
| TusUpload.UploadViaTUS | upload.go:453-545 | success only for a reader with `size` bytes, with the stored bytes and the reported size given exactly by what the server accepted, and they are the first `size` bytes if and only if it accepted the 2 MiB chunk whole; once the creation is answered and without later faults it succeeds if and only if `Uploadable`, whatever was accepted |
| TusUpload.ConservedIffChunkWhole | upload.go:503-519 | the stored bytes are the first `size` bytes if and only if the initial chunk was accepted whole |
| TusUpload.PartialChunkReportedAsSuccess | upload.go:503-544 | for every upload and every partial acceptance, an answered creation without later faults yields a success over fewer bytes than the reader had |
| TusUpload.EmptyFileReportedAsSuccess | upload.go:503-544 | ten bytes, none accepted with the creation request: success over an empty file |
| PostUpload.Prepare | upload.go:559-584 | the body of a hop: the whole rewound source, or the buffer filled on the first hop |
| PostUpload.RedirectSurvives | upload.go:624-627 | the redirect target, resolved against the URL posted to, is recovered from the error text, even when it starts with the prefix itself |
| PostUpload.UploadViaPOST | upload.go:551-642 | at most five posts, all with the same part, each sent where the Location in the answer to the post before it points, resolved against that post's URL; success exactly on a 200/201 that read the whole part of a sound reader |
| Retry.IsUnrecoverable | internal/http/http.go:48-59 | the table scan equals the range test 400 to 499 except 429 |
| Retry.Classified | errors.go:563-601 | recoverable exactly by status; for every body the sentinel of the pair, the reason and the details stay reachable through every wrapper |
| Retry.RetryContext | internal/http/http.go:62-72 | calls up to the first settling call and no further; the error is the last one or the log of all, or says that the context ended the run |
| Retry.Operation | websites.go:963-989 | the server is called exactly to the first conclusive reply or the N-th; success, sentinel and reason of the last reply reach the caller |
| Retry.Access | workspace.go:312-350 | rotating sends exactly one request under every configuration; not rotating goes on to the first conclusive reply or the N-th |
| Decimal.AtoiItoa | websites.go:1180 | parsing undoes printing, so an entry's printed id names one id |
| RateLimiter.BackendMessageRecognised | internal/download/rate_limiter_engine.go:106-129 | a printed backend status, with any padding and reason, is taken for a 429 exactly when it is 429 |
| RateLimiter.LimiterErrorIsOrdinary | internal/download/rate_limiter_engine.go:83-100 | no error of the limiter's own, whatever its text, is taken for a 429: it counts as a failure, or ends the run when marked unrecoverable |
| RateLimiter.ExecuteWithRetry | internal/download/rate_limiter_engine.go:133-169 | over any stream with finitely many 429s: ends exactly at the first stopping attempt, with the exact calls made; never with a 429 that is not marked; with an ordinary error only after `Attempts` of them in a row, and always after that many other status errors |
| RateLimiter.StoppedWhy | internal/download/rate_limiter_engine.go:150-167 | the stop condition in terms of the returned errors: a 429 status or text never ends a run, `Attempts` other failures in a row do |
| RateLimiter.StopsMeaning | internal/download/rate_limiter_engine.go:154-167 | an attempt stops the run exactly when it succeeds, is unrecoverable, or completes Attempts failures in a row since the last 429 |
| RateLimiter.LimiterAccounting | internal/download/rate_limiter_engine.go:139-162 | every submission directly follows its own grant; limiter calls are attempts plus 429s |
| Polling.PollUntil | internal/http/poll.go:93-164 | stops at the first settled, failed or expired poll, reports exactly that one with its number, and never polls again |
| Polling.WaitForPolledState | internal/http/poll.go:168-193 | the first observed status in the requested set, at its own attempt number |
| Convert.ListDomains | websites.go:963-989 | exactly the entries of the first listing that gets through, an error exactly when none does; its errors are never marked unrecoverable |
| Convert.ContainsIff | websites.go:1218 | the search for the "already on-chain" text finds it wherever it occurs in the details |
| Convert.FindCurrent | websites.go:1174-1185 | after "already on-chain": succeeds exactly when a listing that contains the domain is the first to get through, and every failure here is retried |
| Convert.Attempt | websites.go:1162-1198 | an attempt succeeds exactly when its own conversion or an earlier one is reported back, ends the retries exactly when it is refused, and is retried in every other case |
| Convert.ConvertDomainToOnChain | websites.go:1159-1204 | for every pattern of losses, refusals, failed listings and cancellations: the exact attempt that ends it, no error if and only if that attempt succeeds, and then the domain is on-chain and the entry is the right one |
| Convert.LostCommitRecovered | websites.go:1168-1174 | after a commit whose reply was lost, whatever else is lost in between, the call succeeds at the latest with the first attempt whose reply gets through with a listing that contains the entry |
| TokenGraph.Client.constructor | sdk.go:316-361 | a fresh client holds one token everywhere; the shared http client is wrapped in place |
| TokenGraph.Client.Rebuild | sdk.go:423-470 | the generated and block-meta clients move to the editor's token together, others do not; with a host override the transport has at least one and no more overrides than the http client has |
| TokenGraph.Client.SetHTTPClient | sdk.go:476-479 | as a rebuild, over the new client's transport, a nil client included; a failure leaves the transport |
| TokenGraph.Client.SetBaseURL | sdk.go:488-491 | as a rebuild |
| TokenGraph.Client.SetBearerToken | sdk.go:499-512 | only the generated and block-meta clients follow, over a rebuilt transport |
| TokenGraph.Client.SetAuthToken | sdk.go:520-539 | on success every holder is on the new token, over a rebuilt transport; on failure only the editor is |
| TokenGraph.DownloadService.SetAuthToken | download.go:327-358 | field and transport always; the block-meta clients when they can be rebuilt, and otherwise they stay as they were |
| TokenGraph.CoherentIff | sdk.go:499-539 | over any sequence of calls, failing ones included, all holders agree if and only if the last token built in is the last one refreshed |
| TokenGraph.PerformAll | sdk.go:423-539 | any sequence of calls on the object graph leaves every token as `ApplyAll` says, and as many overrides on the internal transport as the http client set at the last rebuild has, at least one if configured |
| TokenGraph.FreshClientStaysCoherent | sdk.go:423-539 | from a fresh client, any sequence of successful SetAuthToken, SetBaseURL and SetHTTPClient calls leaves all holders on the last token, and exactly one override when one is configured, given http clients with at most one |
| TokenGraph.SuccessfulCallsCoherent | sdk.go:520-539 | successful refreshes, URL and client changes keep everything on the last token |
| TokenGraph.IncoherentCalls | sdk.go:499-523 | two call sequences that leave holders on different tokens |
| TokenGraph.OneOverride | sdk.go:432-443 | a rebuilt transport has an override whenever one is configured, no more than the client's transport has beyond that, and none of its own otherwise |
| TokenGraph.SharedClientWrappedTwice | sdk.go:321-330 | two clients over one http client end with two overrides |
| PathSegments.Segments | download.go:492-519 | the loop of both operations refuses exactly the paths with a ".." segment and otherwise yields their names in order |
| PathSegments.NamesAtSlash | download.go:426-437 | a slash separates names and means nothing else |
| PathSegments.ExtraSlashes | download.go:426-437 | leading, trailing and doubled slashes never change the outcome |
| PathSegments.AcceptedRoundTrip | download.go:511-519 | accepted names are non-empty, slash-free and not "..", and joining and parsing again gives them back |

## Left out

- The event stream's protocol is modelled on values, because its threads interleave: what is not captured is the Go heap beneath the locks. The connected-state poller is off (its `wg.Add` is not under `spawnMu`), and the `ConnectionState` field is not modelled, since Connect can set it after Disconnect has. The cursor is restored before Start only, and a frame's cursor write and handler calls are one step.
- SseBackoff.HandleDisconnection: without MaxRetries it assumes that some select or Connect eventually ends the loop; delays are integers and jitter is exact real arithmetic, so float64 rounding of 2% of a delay is not modelled.
- Fair scheduling: progress of the event stream is what every run can still reach, together with what no step may lose.
- Start's own delays between attempts and its attempt bound: Start may retry or give up after any failure.
- Frame parsing: a parsed frame, end of stream and parse error are the reader's possible outcomes.
- TusStore.MemoryFile.WriteChunk: the offset argument is ignored by the code and absent here; callers write at the current offset.
- TusStore.MemoryStore.NewUpload: one atomic step, although the code writes the map without the store lock; info fields other than id, size, offset and deferral are absent, and JSON encoding is the identity.
- DeleteInfo, ServeContent, the listing helpers and the composer wiring of the store.
- TusUpload.CreateWithData: the tus client library is represented by its effect on the store; a good answer to a partly accepted request is possible.
- ResumeUpload's reported size, CAR generation, CIDs and the choice between POST and tus by size.
- PostUpload.UploadViaPOST: multipart framing around the file part is absent, URL editing and resolution are parameters, and the pipe is represented by how much of the part the server reads.
- Retry.RetryContext: a context that is already done before the first call, and the delays themselves; with Attempts 0 some call must settle the loop.
- Retry.Operation: finite Attempts only and no cancellation; the message table is a parameter, so the result holds for every table.
- RateLimiter.ExecuteWithRetry: no cancellation; the worker pool runs each submitted task once.
- Convert.ConvertDomainToOnChain: finite Attempts only.
- Polling.PollUntil: time is represented by which select wins; elapsed time is absent.
- The blockstore's fast paths, the byte-slice file system, host-header rewriting, JWT inspection and the one-closure service wrappers would add only easy members.
- Path cleaning inside the path library after segments are joined is not part of this model.
