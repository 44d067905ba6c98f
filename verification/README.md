# Prism: verified models

Prism is a single-port proxy router. This project models its concurrent protocols, its
state machines and its meaning-preserving transformations in Dafny 4.11 and proves what
they keep over every input and every interleaving.

`dafny verify dfyconfig.toml` checks everything. Nothing here executes Prism.

## How the models are built

* **Objects updated in place** (the connection queue, the demux server, the auto-enqueue
  buffer, the failure limiter, the authentication service, the GeoIP service, the SOCKS5
  observer) are classes. Each method is one critical section or one call and is proved
  against a function on values; the theorems are about those functions.
* **Concurrent protocols** are step relations: `State`, `Step`, `Enabled`, `Apply` and
  `Runs`, with one step per lock section, channel operation or system call. Theorems are
  about every reachable state or every run.
* **Loops over slices and maps** are methods with invariants, proved against a
  declarative specification.
* **Where a promise of the code does not hold unconditionally**, the model keeps the code
  as it is, a lemma gives a run or an input on which the promise fails, and an `...Iff`
  lemma or a method's contract states exactly when it holds.

| file | what it models |
|---|---|
| `ConnListener.dfy` | the bounded queue between demux workers and the HTTP server |
| `InboundDemux.dfy` | accept loop, connection workers, HTTP side and shutdown |
| `AutoEnqueueJobs.dfy`, `AutoEnqueue.dfy`, `AutoEnqueueProtocol.dfy` | one batch; the buffer; offers, loop, timer and channels |
| `RateLimiter.dfy`, `RateLimiterTraces.dfy` | the failure limiter; its promises over call histories |
| `ExportNames.dfy`, `ExportSingbox.dfy` | display names within a byte budget; sing-box tags and references |
| `Totp.dfy`, `LoginProtocol.dfy`, `Sessions.dfy`, `SessionOverlap.dfy`, `AuthService.dfy`, `LoginGuesses.dfy` | one-time codes; concurrent logins; sessions; sessions under overlapping calls; the service over all of them; guesses by overlapping logins |
| `GeoIp.dfy` | reader lifetimes under hot reload |
| `HysteriaRates.dfy` | rate parameters of a share link |
| `IntelScope.dfy` | expansion of a job scope |
| `NodeListing.dfy` | order and pages of the node list |
| `Socks5Observer.dfy` | streaming observation of handshake replies |
| `Text.dfy`, `Utf8.dfy`, `Decimal.dfy` | Go's string functions as far as the models use them |

## Where the code and its documentation differ

The models follow the code. These differences came out of the proofs.

* The queue's condition variable is shared by producers and the consumer, and `Signal`
  wakes one of them. A wake-up can reach the wrong goroutine and be lost; the consumer
  can then sleep beside a full queue. This happens exactly when 256 goroutines (twice
  the capacity) can be inside `Enqueue` at once (`ConnListener.LostWakeupIff`).
* `Serve` clears the shutdown flag when it starts, so a `Shutdown` that set its flag
  before `Serve` began does not drain; neither does one that reaches
  `http.Server.Shutdown` before the HTTP goroutine has registered the queue. These are
  the only two ways (`InboundDemux.ShutdownDrainsIff`).
* A flush swaps the buffer out before it asks for the job manager, and nodes are offered
  whether or not intel_enabled is set. It loses a bucket if and only if some bucket has
  auto_intel set and the manager is missing, is switched off, is given a bucket that is
  too large or refuses a job (`AutoEnqueue.LosesIff`).
* The limiter's windows are fixed, not sliding: failures in a span shorter than the
  window are certain to block a key only from 2 * maxFailures - 2 of them on
  (`RateLimiterTraces.BlockIsCertainIff`).
* `prepareItems` passes on a node's own name instead of its rendered one, so a sing-box
  document has distinct tags exactly if the nodes' own names are distinct
  (`ExportSingbox.Export`, `ExportSingbox.SameNameTwice`).
* Enrolling or removing a second factor clears the ledger of spent steps in a second
  write, and the secret to enrol comes from the client. A code can open two sessions if
  a login begins between the two writes, if one is still to spend its step when the
  ledger is cleared, or if an account enrols a secret it has had before; ruling all
  three out is exactly what "one code, one login" needs
  (`LoginProtocol.OneCodeOneLoginIff`).
* Overlapping `Authenticate` calls on one session can both write its expiry, and the one
  that started first can move it back. Writes are in order and half a window apart
  exactly if at most one call is under way at once (`SessionOverlap.AllOrderlyIff`). A
  call in flight can also bring an expired session back (`SessionOverlap.ComesBackIff`),
  and regular use keeps a session alive exactly if the pause between uses and the time a
  call takes come to half a window at most (`SessionOverlap.RegularUseSurvivesIff`).
* `Login` asks the blocklist and charges it in separate calls, with the password work in
  between, and nothing serialises logins. Logins that overlap are all let through before
  the first of them is charged, so what the account bucket bounds is the number of logins
  in flight plus a constant, and there is no bound where there is no limit on the logins
  in flight, or for an account without an identifier
  (`LoginGuesses.AccountGuessesAreBounded`).
* `Store.DeleteSession` is documented to accept a row that is gone; the state repository
  reports it as an error, and logging out twice then fails
  (`AuthService.Service.Logout`).
* A `Start` that overlaps `Stop` can install a reader that nobody closes
  (`GeoIp.StopIsCleanIff`).
* A Mbps number beyond 64 bits is converted in whatever way the platform does
  (`HysteriaRates.HysteriaShareLinkRates`).
* The check of scope filter keys ignores case and surrounding space, reading them does
  not: an accepted key such as `Healthy` has no effect
  (`IntelScope.AcceptedKeyWorksIff`).
* A filter is meant to start the walk of the pool only if it constrains something.
  `engine: singbox` starts it and rejects no node, because every node has that engine; it
  is the only such filter (`IntelScope.ConstrainedIff`, `IntelScope.EngineFilterWidens`).
* Filter values are not checked: a band, verdict, IP type, engine or protocol that no
  node can have is accepted and passes nothing (`IntelScope.SatisfiableIff`).
* Hashes are compared as they are spelled: a node can be selected twice, under exactly
  the conditions of `IntelScope.NamingScopeOnceIff` and
  `IntelScope.ReachingScopeOnceIff`.
* The tag a node is sorted under depends on the order of its tags exactly if its oldest
  subscription lists it both with and without a name (`NodeListing.OrderFreeIff`).

## Assumptions

* `http.Server.Shutdown` closes the listeners that are registered and does not wait for
  others; `http.Server.Serve` closes its own listener when it comes too late to register.
  The SOCKS5 handler, sniffing time-outs and failing reads are nondeterministic.
* A clock is a number that an operation takes as input. Histories that need it say that
  it does not go back.
* HMAC-SHA1 is an unknown function from counters to 20-byte digests. Passwords are
  compared as values in place of their hashes. Session identifiers are fresh values.
* Text is a sequence of Unicode code points; where the code counts or cuts bytes, the
  model works on UTF-8 (RFC 3629) explicitly.
* The types of outbound that a node can have come with the kernel the program is built
  with and are an input of `IntelScope`. Regions are free text. An assessment may combine
  any IP type, band and verdict of their lists: it is projected from a stored row.
* Store failures are inputs: a write is accepted or not, a load returns or fails.

## Model

| member | source | states |
|---|---|---|
| `ConnListener.ConnChannelListener.constructor` | cmd/prism/inbound_demux.go:354-360 | a new queue is empty and open |
| `ConnListener.ConnChannelListener.Accept` | cmd/prism/inbound_demux.go:362-378 | one pass of a consumer: the oldest connection is taken; an open empty queue makes it wait, a closed empty one ends it |
| `ConnListener.ConnChannelListener.Enqueue` | cmd/prism/inbound_demux.go:404-418 | one pass of a producer: the connection goes to the end of a queue with room; a full open queue makes it wait, a closed one refuses it |
| `ConnListener.ConnChannelListener.Close` | cmd/prism/inbound_demux.go:380-398 | the first close empties the queue and hands out what was in it; later ones do nothing |
| `ConnListener.StepHeld` | cmd/prism/inbound_demux.go:362-418 | no step of any goroutine loses or duplicates a connection: one that has arrived is in exactly one of ready, parked, queued, delivered, dropped, refused |
| `ConnListener.StepKeepsOrder` | cmd/prism/inbound_demux.go:362-418 | every step keeps delivered + dropped + queued equal to what was enqueued, in that order, and the bound of 128 |
| `ConnListener.QueueNeverLosesOrReorders` | cmd/prism/inbound_demux.go:345-418 | in every reachable state each connection that entered is in exactly one place, deliveries are in arrival order, and the queue holds at most 128 |
| `ConnListener.NoLostWakeup` | cmd/prism/inbound_demux.go:362-418 | with fewer than 256 simultaneous enqueuers a sleeping consumer beside a non-empty queue, or sleeping producers beside a free slot, always leave a producer about to run, and its pass wakes the consumer or leaves fewer producers asleep |
| `ConnListener.DeadUntilClose` | cmd/prism/inbound_demux.go:362-398 | a consumer asleep beside a full open queue stays asleep in every continuation without Close, and nothing is delivered |
| `ConnListener.LostWakeupRun` | cmd/prism/inbound_demux.go:362-418 | a run, with signals served in first-in-first-out order, that puts the consumer to sleep beside a full queue |
| `ConnListener.LostWakeupIff` | cmd/prism/inbound_demux.go:345-418 | such a state is reachable if and only if at least 256 goroutines may be inside Enqueue at once |
| `InboundDemux.DemuxServer.constructor` | cmd/prism/inbound_demux.go:48-62 | a new server tracks nothing and is not shutting down |
| `InboundDemux.DemuxServer.TryStartConnWorker` | cmd/prism/inbound_demux.go:275-285 | a worker is counted exactly if no shutdown has begun |
| `InboundDemux.DemuxServer.TrackActiveConn` | cmd/prism/inbound_demux.go:287-294 | adds the connection to the active set and changes nothing else |
| `InboundDemux.DemuxServer.UntrackActiveConn` | cmd/prism/inbound_demux.go:296-300 | removes the connection from the active set and changes nothing else |
| `InboundDemux.DemuxServer.CloseActiveConns` | cmd/prism/inbound_demux.go:331-343 | closes exactly the tracked connections and empties the set |
| `InboundDemux.DemuxServer.CloseSniffConns` | cmd/prism/inbound_demux.go:317-329 | closes exactly the connections being sniffed and empties the set |
| `InboundDemux.LoopKeepsOwners` | cmd/prism/inbound_demux.go:64-101 | every step of the accept loop keeps one owner per connection |
| `InboundDemux.WorkerKeepsOwners` | cmd/prism/inbound_demux.go:201-258 | every step of a worker, including failing and panicking ones, keeps one owner per connection |
| `InboundDemux.HttpKeepsOwners` | cmd/prism/inbound_demux.go:362-398 | every step of the HTTP server and its listener keeps one owner per connection |
| `InboundDemux.ShutdownKeepsOwners` | cmd/prism/inbound_demux.go:149-199 | every step of Shutdown keeps one owner per connection |
| `InboundDemux.WorkerKeepsCovered` | cmd/prism/inbound_demux.go:201-258 | whatever a worker does, an open connection on the HTTP side is tracked, or is in the part of the snapshot that Shutdown still has to close |
| `InboundDemux.HttpKeepsCovered` | cmd/prism/inbound_demux.go:483-494 | closing a connection untracks it only as it is closed, and the queue is accepted from only once it is registered, so nothing open escapes the snapshot |
| `InboundDemux.ShutdownKeepsCovered` | cmd/prism/inbound_demux.go:149-199 | if the queue was registered before http.Server.Shutdown, the snapshot of the active set misses no open connection |
| `InboundDemux.StepKeepsInv` | cmd/prism/inbound_demux.go:64-258 | ownership and coverage are kept by every step of every goroutine |
| `InboundDemux.EveryConnHasOneOwner` | cmd/prism/inbound_demux.go:82-99 | in every interleaving each accepted connection is in exactly one of: the loop, a worker, the queue, the dropped list, the HTTP server, released; and the queue is within its bound |
| `InboundDemux.NoWorkerStartsAfterFlag` | cmd/prism/inbound_demux.go:275-285 | after Shutdown has set its flag the set of workers only shrinks, in every continuation |
| `InboundDemux.ShutdownDrains` | cmd/prism/inbound_demux.go:149-199 | if the flag follows the start of Serve and http.Server.Shutdown follows the registration of the queue: once Shutdown has returned, and ever after, no worker runs, the queue is closed and empty, and every accepted connection is closed, was finished by the SOCKS5 handler, or is in the loop that will close it |
| `InboundDemux.OnlyTheQueueIsLeft` | cmd/prism/inbound_demux.go:74-77 | without that registration no worker runs and nothing is open but what waits in the queue; the queue can still be closed, and once it is closed and emptied everything is drained |
| `InboundDemux.ShutdownBeforeServeDoesNotDrain` | cmd/prism/inbound_demux.go:64-81 | a run in which Shutdown returns before Serve starts and a worker runs afterwards |
| `InboundDemux.ServeDuringShutdownDoesNotDrain` | cmd/prism/inbound_demux.go:64-81 | a run in which Serve starts between the flag and http.Server.Shutdown and a worker runs after Shutdown returned |
| `InboundDemux.ShutdownBeforeRegistrationDoesNotDrain` | cmd/prism/inbound_demux.go:69-77 | a run in which Shutdown finds no registered queue and a worker enqueues into the open queue before Shutdown returns |
| `InboundDemux.ShutdownDrainsIff` | cmd/prism/inbound_demux.go:149-199 | draining holds in every run if and only if the flag is set after Serve started and http.Server.Shutdown is reached after the queue was registered; each of the three other combinations has a failing run |
| `InboundDemux.ShutdownIsNear` | cmd/prism/inbound_demux.go:149-199 | once reads and SOCKS5 handlers return, Shutdown gets to its end: no run of its steps, the workers' and the closing of the queue is longer than the rank of the state, and none gets stuck before |
| `AutoEnqueueJobs.NormalizeSubscriptionHashes` | internal/intel/autoenqueue.go:392-411 | the result is strictly sorted and holds exactly the trimmed non-empty hashes |
| `AutoEnqueueJobs.EnqueueOne` | internal/intel/autoenqueue.go:344-371 | one entry of the batch: skipped, one job with its sorted hashes, or the error that ends the batch |
| `AutoEnqueueJobs.ServeAll` | internal/intel/autoenqueue.go:341-374 | the loop under a running manager serves a prefix of the batch: its eligible members get their jobs, the others are skipped, and it stops at the first refusal with that error |
| `AutoEnqueueJobs.AutoEnqueueSubscriptions` | internal/intel/autoenqueue.go:331-374 | jobs are exactly those of the eligible subscriptions of a prefix of the batch, in order; created + skipped is the length of that prefix, which is the whole batch exactly if no error occurred |
| `AutoEnqueueJobs.JobsComeFrom` | internal/intel/autoenqueue.go:331-374 | job number j is the job of one eligible subscription, made by Create call j |
| `AutoEnqueueJobs.JobsReach` | internal/intel/autoenqueue.go:331-374 | every eligible subscription has its job |
| `AutoEnqueueJobs.OneJobEach` | internal/intel/autoenqueue.go:331-374 | subscriptions with different identifiers never share a job |
| `AutoEnqueue.NewConfig` | internal/intel/autoenqueue.go:89-110 | limits are positive whatever was configured |
| `AutoEnqueue.AutoEnqueueQueue.constructor` | internal/intel/autoenqueue.go:89-110 | a new buffer is empty with no signal sent |
| `AutoEnqueue.AutoEnqueueQueue.Offer` | internal/intel/autoenqueue.go:114-165 | an accepted pair is in the buffer afterwards; a pair that finds no room is dropped and counted; the right channel is signalled; blank input changes nothing |
| `AutoEnqueue.AutoEnqueueQueue.Flush` | internal/intel/autoenqueue.go:221-268 | takes the whole buffer and makes of it what Flushed says: each job carries exactly the hashes of one auto_intel bucket, no two jobs are for one bucket, created counts the jobs; under a running manager all such buckets are served, and created + skipped equals the buckets taken, if and only if none has more than 200000 hashes and the manager accepts one job for each; without a manager nothing is created, counted or reported, and a switched-off one is an error unless the buffer was empty |
| `AutoEnqueue.OfferKeepsBounded` | internal/intel/autoenqueue.go:120-151 | both lock sections keep the buffer within MaxSubscriptions, and a pair they take is in it |
| `AutoEnqueue.BatchSubscriptions` | internal/intel/autoenqueue.go:235-252 | the batch has one entry per bucket, with exactly its hashes and its subscription's setting, and no identifier twice |
| `AutoEnqueue.ServedJobs` | internal/intel/autoenqueue.go:230-268 | a list served by the job manager, to its end or to a refusal, leaves exactly the outcome that Flushed describes |
| `AutoEnqueue.FlushBatch` | internal/intel/autoenqueue.go:234-268 | the same for a batch by itself, with and without a job manager |
| `AutoEnqueue.LosesIff` | internal/intel/autoenqueue.go:230-340 | a flush loses a bucket if and only if some bucket has auto_intel set and the manager is missing, is switched off, is given a bucket that is too large or refuses a job |
| `AutoEnqueue.SecondJobRefused` | internal/intel/autoenqueue.go:356-371 | two buckets and a manager that refuses its second job: whatever the order, one bucket is lost |
| `AutoEnqueue.SwitchedOffLosesAll` | internal/intel/autoenqueue.go:331-339 | while the manager is switched off or missing every auto_intel bucket is lost, without a trace in the counters of jobs; only a switched-off one is reported |
| `AutoEnqueueProtocol.StepConserves` | internal/intel/autoenqueue.go:114-165 | every step keeps: insertions of a pair = still buffered + times taken by a flush |
| `AutoEnqueueProtocol.StepKeepsBound` | internal/intel/autoenqueue.go:120-151 | every step keeps the buffer within its bound |
| `AutoEnqueueProtocol.StepLosesNothing` | internal/intel/autoenqueue.go:186-233 | every step keeps a wake-up on its way for a non-empty buffer, and the armed flag in step with the timer |
| `AutoEnqueueProtocol.EveryPairAccountedFor` | internal/intel/autoenqueue.go:114-233 | in every interleaving of any number of offers with the loop, the buffer stays within its bound and each inserted pair is still buffered or was taken by exactly one flush |
| `AutoEnqueueProtocol.NoWakeUpIsLost` | internal/intel/autoenqueue.go:186-217 | until the last flush a non-empty buffer always has a wake token, an overflow token, an armed timer, a flush under way or an offer about to signal |
| `AutoEnqueueProtocol.FlushIsNear` | internal/intel/autoenqueue.go:186-217 | once offers have signalled, the loop and its timer cannot get stuck and reach the flush within five steps, with the buffer intact |
| `AutoEnqueueProtocol.SwapTakesAll` | internal/intel/autoenqueue.go:221-233 | the flush takes every buffered pair and leaves nothing |
| `AutoEnqueueProtocol.StepKeepsClean` | internal/intel/autoenqueue.go:114-151 | every step keeps offers, buffer and batches trimmed and free of empty buckets, which is what a flush relies on |
| `AutoEnqueueProtocol.FlushGivesOneJob` | internal/intel/autoenqueue.go:230-268 | whatever the manager does, a flush gives a pair of its batch no job if the manager is not running or the flag is not set, one if it runs, the flag is set and nothing was refused, and never more than one |
| `AutoEnqueueProtocol.EveryPairReachesOneJob` | internal/intel/autoenqueue.go:114-268 | from end to end, in every interleaving and whenever the manager was switched on and off: a pair has at most one job for each insertion that a flush took with the manager running and the flag set, exactly one if none of these flushes was told an error; and if every flush was such a one, every insertion that is no longer buffered has its job |
| `RateLimiter.NewParams` | internal/api/rate_limiter.go:71-92 | window, block and table bound are positive whatever was asked for |
| `RateLimiter.AuthFailureLimiter.constructor` | internal/api/rate_limiter.go:71-92 | a new limiter has no entries |
| `RateLimiter.AuthFailureLimiter.Blocked` | internal/api/rate_limiter.go:159-180 | answers whether the key is blocked now; retryAfter is exactly how long it stays blocked; drops an entry whose window and block are over |
| `RateLimiter.AuthFailureLimiter.RecordFailure` | internal/api/rate_limiter.go:183-205 | one more failure: a window that is over restarts unless a block covers now, the threshold starts a block, the key goes to the back of the list |
| `RateLimiter.AuthFailureLimiter.Reset` | internal/api/rate_limiter.go:214-223 | forgets the key in the map and the list |
| `RateLimiter.AuthFailureLimiter.NewEntry` | internal/api/rate_limiter.go:233-244 | makes room by evicting the front of the list when the table is full |
| `RateLimiter.AuthFailureLimiter.RemoveEntry` | internal/api/rate_limiter.go:246-252 | takes the key out of the map and the list |
| `RateLimiterTraces.SlotStep` | internal/api/rate_limiter.go:159-252 | a call changes the entry of its own key, and otherwise only by evicting a key |
| `RateLimiterTraces.AlwaysJustified` | internal/api/rate_limiter.go:159-205 | in every history an entry counts only failures of its own window, and a block is backed by enough failures in one span |
| `RateLimiterTraces.BlockedOnlyWithCause` | internal/api/rate_limiter.go:159-205 | a key is reported blocked only if, since its last reset, at least maxFailures of its failures fell into one span shorter than the window |
| `RateLimiterTraces.BlockPersists` | internal/api/rate_limiter.go:166-205 | after a failure at t reached the threshold, every question before t + blockFor is answered "blocked", in every continuation without reset or eviction of the key |
| `RateLimiterTraces.ThresholdBlocks` | internal/api/rate_limiter.go:183-205 | reaching the threshold starts a full block |
| `RateLimiterTraces.BlocksOnlyGrow` | internal/api/rate_limiter.go:183-205 | no later failure shortens a block |
| `RateLimiterTraces.FewSlipThrough` | internal/api/rate_limiter.go:183-205 | at most 2 * maxFailures - 3 failures of one span shorter than the window go unpunished |
| `RateLimiterTraces.ThatManyDo` | internal/api/rate_limiter.go:183-205 | and a history with a clock that does not go back in which that many do |
| `RateLimiterTraces.BlockIsCertainIff` | internal/api/rate_limiter.go:183-205 | n failures in such a span are certain to block, in every history with a clock that does not go back, if and only if n >= 2 * maxFailures - 2 |
| `RateLimiterTraces.AlwaysLru` | internal/api/rate_limiter.go:183-252 | in every history map and list hold the same keys, in last-failure order, within the bound |
| `RateLimiterTraces.EvictedOnlyAfterOthers` | internal/api/rate_limiter.go:233-244 | a key is evicted only after at least maxEntries other keys failed later than it last did |
| `ExportNames.CompressSpace` | internal/export/names.go:186-202 | the words of the input separated by single spaces |
| `ExportNames.WordsOfJoin` | internal/export/names.go:186-202 | compressing keeps the words, so doing it twice changes nothing |
| `ExportNames.TruncateName` | internal/export/names.go:205-219 | on the bytes of a string: its longest prefix of whole code points within the limit |
| `ExportNames.ClampName` | internal/export/names.go:181-183 | compressed, cut and trimmed |
| `ExportNames.ClampFits` | internal/export/names.go:181-183 | a clamped name is within 64 bytes and trimmed |
| `ExportNames.SuffixedName` | internal/export/names.go:85-99 | the variant with the smallest free number; "" exactly if every variant is taken |
| `ExportNames.VariantFits` | internal/export/names.go:85-99 | every variant is non-empty and within 64 bytes |
| `ExportNames.UsedName` | internal/export/names.go:74-81 | whether the base occurred before |
| `ExportNames.RenderNames` | internal/export/names.go:32-70 | each item gets its base, its smallest free variant or nothing, by the rule of AllNamed |
| `ExportNames.NamesAreDistinct` | internal/export/names.go:32-70 | names that were given are pairwise distinct |
| `ExportNames.NamesFit` | internal/export/names.go:32-99 | every name is within 64 bytes |
| `ExportNames.NamesKeepTheBase` | internal/export/names.go:32-99 | the first item with a base keeps it exactly; a later one goes without a name only if all variants are taken |
| `ExportNames.TwoItemsTwoNames` | internal/export/names.go:32-99 | two items with one non-empty base get two different non-empty names |
| `ExportSingbox.ClaimTag` | internal/export/singbox.go:201-225 | always terminates with a tag that is not taken: the tag itself, its smallest free variant, or one made longer until it is free |
| `ExportSingbox.DepTagShape` | internal/node/envelope.go:285-287 | a dependency tag is "d" and a numeral and has no slash |
| `ExportSingbox.CanonicalInjective` | internal/export/singbox.go:184-194 | name + "/d" + i determines name and i, even if names contain slashes |
| `ExportSingbox.RewriteResolves` | internal/export/singbox.go:171-194 | given distinct names, a detour "d<i>" of a node with that dependency is rewritten to the tag emitted for exactly it, every other detour is unchanged |
| `ExportSingbox.ClaimDeps` | internal/export/singbox.go:58-66 | one fresh tag per dependency, pairwise distinct, recorded in the table under the canonical reference |
| `ExportSingbox.PlanItems` | internal/export/singbox.go:34-47 | the representable items in order, with their names reserved |
| `ExportSingbox.EmitDeps` | internal/export/singbox.go:80-89 | each dependency under its claimed tag with its references rewritten |
| `ExportSingbox.TagsDistinctIff` | internal/export/singbox.go:34-95 | all tags of the document are pairwise distinct if and only if the node names are |
| `ExportSingbox.ExportSingbox` | internal/export/singbox.go:28-124 | the members of the groups are tags of the document; tags are distinct if and only if the names are; with distinct names outbounds and endpoints are exactly the nodes with every reference resolved |
| `ExportSingbox.RenderedNamesWouldDo` | internal/export/types.go:226-248 | an export under rendered names would have distinct names |
| `ExportSingbox.PrepareItems` | internal/export/types.go:226-248 | the prepared items carry the nodes' own names |
| `ExportSingbox.Export` | internal/export/types.go:188-216 | the document's tags are distinct if and only if the exported nodes' own names are |
| `ExportSingbox.SameNameTwice` | internal/export/types.go:243-247 | exporting two nodes with one name and one template: RenderNames gives them two different names, the document has a tag twice |
| `Totp.TotpCode` | internal/auth/totp.go:61-86 | fails exactly for a secret that does not decode; dynamic truncation (section 5.3 of RFC 4226) stays inside the 20-byte digest |
| `Totp.CodeIsSixDigits` | internal/auth/totp.go:75-86 | a code is always six digits and stands for the truncated digest modulo a million |
| `Totp.VerifyTotp` | internal/auth/totp.go:94-108 | accepts exactly the codes of the step and its two neighbours |
| `Totp.VerifyTotpStep` | internal/auth/totp.go:123-146 | accepts exactly what VerifyTOTP accepts, and its branch-free loop returns the newest matching step |
| `Totp.SelectWithoutBranch` | internal/auth/totp.go:135-140 | the arithmetic selection is a conditional |
| `Totp.ReportedStepGivesTheCode` | internal/auth/totp.go:123-158 | the code computed at the start of the reported step is the presented code |
| `Totp.ReportedStepIsNewest` | internal/auth/totp.go:123-158 | no accepted step that matches is newer than the reported one |
| `Totp.ShownCodeIsAccepted` | internal/auth/totp.go:94-108 | a code shown one step early, on time or one step late is accepted |
| `Totp.StepStartIsInStep` | internal/auth/totp.go:155-158 | the start of a step belongs to that step |
| `LoginProtocol.CompareAndSet` | internal/auth/service.go:65-72 | a step is spent exactly if the ledger moves, and the ledger never moves back |
| `LoginProtocol.TotpLedger.constructor` | internal/state/repo_user.go:422-451 | a new ledger has spent nothing |
| `LoginProtocol.TotpLedger.AdvanceTotpLastUsed` | internal/state/repo_user.go:422-451 | spends the step if it is newer than the last one; an unknown account is an error and spends nothing |
| `LoginProtocol.TotpLedger.ResetTotpLastUsed` | internal/state/repo_user.go:396-411 | clears the ledger of a known account and no other |
| `LoginProtocol.StepKeepsIncreasing` | internal/auth/service.go:295-311 | where the three are ruled out, every step keeps the steps spent under one enrolment strictly increasing |
| `LoginProtocol.StepKeepsCovered` | internal/auth/service.go:295-311 | and keeps the ledger at or beyond every step spent under an enrolment that can still spend |
| `LoginProtocol.StepKeepsUnused` | internal/service/control_plane_account.go:437-471 | an enrolment whose ledger is still to be cleared has spent nothing |
| `LoginProtocol.SessionsSpendTheirOwnStep` | internal/auth/service.go:207-243 | under any schedule every session comes from a spend of its own |
| `LoginProtocol.QuietRunsSpendOnce` | internal/auth/service.go:274-311 | where the three are ruled out, in every interleaving of logins, enrolments and removals the spent steps of an enrolment strictly increase and one code (a step of a secret of an account) opens at most one session |
| `LoginProtocol.UsedInTheWindow` | internal/service/control_plane_account.go:465-471 | a run in which a code used between the two writes of an enrolment is used again |
| `LoginProtocol.UsedAcrossTheRemoval` | internal/service/control_plane_account.go:494-502 | a run in which a login that verified its code before the removal spends an already spent step after it |
| `LoginProtocol.UsedUnderTheSameSecret` | internal/service/control_plane_account.go:437-502 | a run in which a secret is removed and enrolled again and its code opens a second session, with no login near either |
| `LoginProtocol.OneCodeOneLoginIff` | internal/auth/service.go:274-311 | one code opens at most one session in every run if and only if no login starts between the two writes, none is unspent when the ledger is cleared, and no account enrols a secret it has had before |
| `Sessions.TruncateUserAgent` | internal/auth/session.go:217-226 | at most 256 bytes; on the bytes of a string, its longest prefix of whole code points |
| `Sessions.StepKeepsFresh` | internal/auth/service.go:357-399 | a use leaves more than half the window, and every other operation that spares the session keeps it |
| `Sessions.PunctualStaysAlive` | internal/auth/service.go:357-399 | in every history of calls that do not overlap, spare the session and use it at pauses of at most SessionTTL - SessionRefreshAfter, every use succeeds |
| `Sessions.LongPauseEnds` | internal/auth/session.go:171-176 | for every longer pause there is a history that ends the session |
| `Sessions.SurvivesIff` | internal/auth/session.go:24-33 | with calls that do not overlap, regular use keeps a session alive for ever if and only if the pause is at most SessionTTL - SessionRefreshAfter |
| `Sessions.StepWrites` | internal/auth/service.go:388-397 | a write comes at least SessionRefreshAfter after the one before, and no operation moves an expiry back |
| `Sessions.WritesAreRare` | internal/auth/session.go:24-33 | in every history of calls that do not overlap the expiry writes of one session are at least SessionRefreshAfter apart |
| `Sessions.DeadForever` | internal/auth/service.go:357-426 | with calls that do not overlap, a session that is gone or expired never authenticates again, even if every clean-up write fails and the account is enabled again |
| `Sessions.WhatKills` | internal/auth/service.go:363-426 | logging out, revoking and one use while disabled remove the session, and nothing but sessions of that account |
| `SessionOverlap.OverlapMovesBack` | internal/auth/service.go:362-397 | as soon as two calls may overlap: a run in which both write and the second moves the expiry back |
| `SessionOverlap.GoneStaysGone` | internal/state/repo_user.go:1150-1164 | in every interleaving of overlapping calls a row that is gone stays gone |
| `SessionOverlap.WriteMovesBackIff` | internal/auth/service.go:362-397 | a call that still finds the expiry it looked up moves it forward, half a window after the last write; a write moves it back if and only if the call read the clock before the last writer did |
| `SessionOverlap.AllOrderlyIff` | internal/auth/service.go:357-399 | every write of every run moves the expiry forward and comes half a window after the one before if and only if at most one call is under way at once |
| `SessionOverlap.ComesBackIff` | internal/auth/service.go:362-397 | an expired row can come back if and only if calls under way can write one after the other, each because it finds what the one before it has written in the second half of its window, and the last of them read the clock less than SessionTTL ago |
| `SessionOverlap.YoungCallsComeBackIff` | internal/auth/service.go:362-397 | where all calls under way read the clock less than SessionTTL ago: if and only if one of them has looked the row up in the second half of its window or still would |
| `SessionOverlap.LateWriteRevives` | internal/auth/service.go:388-397 | a run in which a call starts in the last moment and writes after the expiry |
| `SessionOverlap.StepKeepsKept` | internal/auth/service.go:357-399 | under regular use every step keeps: the session has not been used since the second half of its window began, or one of the first calls since then is under way |
| `SessionOverlap.LongLagEnds` | internal/auth/service.go:357-399 | where pause and lag exceed half a window, a run in which a call finds the row expired while the one that would have refreshed it is still under way |
| `SessionOverlap.RegularUseSurvivesIff` | internal/auth/session.go:24-33 | with any number of overlapping calls, regular use keeps a session alive in every run if and only if the pause between uses and the time a call takes come to at most SessionTTL - SessionRefreshAfter, or no time passes |
| `AuthService.Service.constructor` | internal/auth/service.go:101-114 | accounts start active with an empty ledger and no sessions |
| `AuthService.Service.Login` | internal/auth/service.go:156-264 | the outcome and the new ledger, session table and blocklist of a login, with the checks in their order |
| `AuthService.Service.VerifySecondFactor` | internal/auth/service.go:274-311 | refuses a factor it cannot open, a missing, wrong or spent code and an unknown state; otherwise spends the step |
| `AuthService.Service.Authenticate` | internal/auth/service.go:357-399 | succeeds exactly for a live session of an active account; refreshes or clears the row, and returns what is stored |
| `AuthService.Service.Logout` | internal/auth/service.go:402-410 | removes exactly this session, or nothing if the store fails; an error exactly if it fails or reports missing rows and there was none |
| `AuthService.Service.RevokeUserSessions` | internal/auth/service.go:417-426 | removes exactly the account's sessions and counts them, or nothing if the store fails |
| `AuthService.Service.DeleteSessionsByUser` | internal/state/repo_user.go:1132-1142 | removes exactly the account's sessions and counts them, or nothing if the store fails |
| `AuthService.WrongPasswordTellsNothing` | internal/auth/service.go:148-200 | without the password neither answer nor blocklist depends on the account's status, second factor or ledger; nothing is spent and no session opened |
| `AuthService.LoginSucceedsIff` | internal/auth/service.go:156-264 | a session is opened if and only if neither key is blocked and every factor holds; the same code then opens no second one |
| `AuthService.Service.RecordAccountFailure` | internal/auth/service.go:324-329 | charges the bucket of the account, and nothing for a blank identifier |
| `LoginGuesses.StepKeepsInv` | internal/auth/service.go:161-217 | every step of every login and every other call of the blocklist keeps: the guesses are covered by the charges and the logins that have still to charge, and the charges are tallied in the account's bucket or the account is blocked until the span is over with few logins left that it let through |
| `LoginGuesses.GuessesAreFew` | internal/auth/service.go:180-217 | in every run of at most `limit` overlapping logins at most 2 * maxFailures - 3 + limit logins of one window are checked and fail against the account (maxFailures - 1 + limit if maxFailures is at most 2 or the window a single tick) |
| `LoginGuesses.Burst` | internal/auth/service.go:186-195 | a run in which overlapping logins are all let through and checked before the first of them is charged |
| `LoginGuesses.ThatManyGuesses` | internal/auth/service.go:180-217 | a run, with a clock that does not go back, that reaches the bound |
| `LoginGuesses.NeverCharged` | internal/auth/service.go:324-329 | any number of logins is checked against an account without an identifier, and against any account if the limiter is switched off |
| `LoginGuesses.AccountGuessesAreBounded` | internal/auth/service.go:180-330 | however many addresses take part and however the logins overlap, at most n logins of one window are checked and fail, in every run in which none succeeds and the account is not evicted, if and only if no login may be under way, or the account has an identifier, the limiter is on and n is at least that bound |
| `LoginGuesses.LoginIsARun` | internal/auth/service.go:157-248 | what Login does to the blocklist when nothing overlaps it is one of these runs, and it is one guess exactly if it counts against the account |
| `GeoIp.Service.constructor` | internal/geoip/geoip.go:140-172 | a new service has no reader |
| `GeoIp.Service.ReloadReader` | internal/geoip/geoip.go:380-397 | installs an opened reader and closes the one before; an error changes nothing |
| `GeoIp.Service.StopReader` | internal/geoip/geoip.go:246-256 | leaves no reader and closes the installed one |
| `GeoIp.StepConserves` | internal/geoip/geoip.go:235-256 | every step keeps: a reader opened so far is closed once, installed, or in one thread's hands |
| `GeoIp.NoLookupOnAClosedReader` | internal/geoip/geoip.go:260-267 | in every interleaving a lookup in progress uses a reader that is open |
| `GeoIp.EveryReaderHasOneOwner` | internal/geoip/geoip.go:371-397 | no reader is ever closed twice or lost |
| `GeoIp.OrderedStopIsClean` | internal/geoip/geoip.go:235-256 | if Start returned first, a finished Stop leaves no reader installed and every reader closed, whatever updates were in flight |
| `GeoIp.OverlappingStartLeaks` | internal/geoip/geoip.go:176-208 | a run in which Start installs a reader after Stop has returned |
| `GeoIp.StopIsCleanIff` | internal/geoip/geoip.go:176-256 | a finished Stop is clean in every run if and only if Start is over before it |
| `HysteriaRates.ParseNetworkByteRate` | internal/export/uri.go:619-646 | accepts exactly the strings whose number times unit fits 64 bits, and returns that product |
| `HysteriaRates.Scale` | internal/export/uri.go:642-645 | the overflow guard refuses exactly the products beyond 2^64 - 1 |
| `HysteriaRates.RateUnique` | internal/export/uri.go:619-646 | no string denotes two rates |
| `HysteriaRates.ByteRateMbps` | internal/export/uri.go:581-612 | set exactly if the field carries a rate; expressible exactly for whole numbers of Mbps, with the right number |
| `HysteriaRates.ShareLinkMbps` | internal/export/uri.go:464-473 | the numeral of the first positive field |
| `HysteriaRates.FieldParameter` | internal/export/uri.go:549-573 | one direction: refused exactly if the rate is not a whole number of Mbps; the parameter otherwise means the node's rate |
| `HysteriaRates.HysteriaShareLinkRates` | internal/export/uri.go:541-575 | accepted if and only if both rates are expressible; reading the parameters back gives the node's byte rates if and only if no Mbps number beyond 64 bits is used |
| `HysteriaRates.FieldRateUnique` | internal/export/uri.go:541-575 | the fields of a node mean one rate |
| `HysteriaRates.MbpsTextIsTheMbpsField` | internal/export/uri.go:475-480 | "m Mbps" as a byte rate, the Mbps field m and the link parameter m mean the same |
| `IntelScope.AddNamed` | cmd/prism/intel_runtime.go:501-522 | the trimmed explicit hashes |
| `IntelScope.WalkPool` | cmd/prism/intel_runtime.go:569-578 | adds only matching nodes of the pool, and all of them unless the limit is exceeded |
| `IntelScope.AddLinked` | cmd/prism/intel_runtime.go:579-608 | adds exactly the links of wanted subscriptions with a valid hash that passes the filter |
| `IntelScope.AddRouted` | cmd/prism/intel_runtime.go:610-623 | adds exactly the nodes of known platforms' views that pass the filter |
| `IntelScope.ResolveIntelScope` | cmd/prism/intel_runtime.go:481-639 | on success the sorted, duplicate-free list of exactly the selected hashes; an invalid key or hash, a missing state engine and more than the limit are the errors, and a walk cut short is never a success |
| `IntelScope.ConstrainedIff` | cmd/prism/intel_runtime.go:524-800 | which filters reject some node; a filter counts as constraining exactly if it does, except the one that asks for the engine singbox and nothing else |
| `IntelScope.EngineFilterWidens` | cmd/prism/intel_runtime.go:526-570 | that filter rejects no node; alone it selects the whole pool, beside a subscription it drops links to nodes outside the pool |
| `IntelScope.StricterNeverAdds` | cmd/prism/intel_runtime.go:524-608 | beside `all`, subscriptions or platforms a stricter filter never adds a node |
| `IntelScope.FilterAloneAdds` | cmd/prism/intel_runtime.go:566-570 | without them it can: it starts the walk of the pool |
| `IntelScope.FilterNeverAddsIff` | cmd/prism/intel_runtime.go:566-570 | adding to a filter can only narrow if and only if the scope has such a selector |
| `IntelScope.FilterNarrows` | cmd/prism/intel_runtime.go:524-548 | a selected node that is not named by hash matches the filter |
| `IntelScope.AcceptedKeyWorksIff` | cmd/prism/intel_runtime.go:700-749 | an accepted filter key has an effect if and only if it is spelled as documented |
| `IntelScope.CapitalKeyIsIgnored` | cmd/prism/intel_runtime.go:700-749 | the accepted key Healthy has none |
| `IntelScope.OtherSpellingSelectsTwice` | cmd/prism/intel_runtime.go:501-508 | a scope that names one hash in two spellings selects it twice |
| `IntelScope.UnreachedIsNamed` | cmd/prism/intel_runtime.go:501-623 | a scope that names hashes only, or whose filter no node can pass, selects exactly what it names |
| `IntelScope.NamingScopeOnceIff` | cmd/prism/intel_runtime.go:501-522 | such a scope selects every node once, in every world, if and only if it names no node in two spellings |
| `IntelScope.NameSelectsTwice` | cmd/prism/intel_runtime.go:501-578 | a name that is not canonical is selected beside the hash of its own node |
| `IntelScope.LinksSelectTwice` | cmd/prism/intel_runtime.go:579-608 | two stored spellings of one hash select it twice |
| `IntelScope.ReachingScopeOnceIff` | cmd/prism/intel_runtime.go:501-623 | any other scope does so if and only if it names nodes in canonical form and, where it selects by subscription, the stored links do too |
| `IntelScope.SatisfiableIff` | internal/intel/snapshot.go:126-153 | which filters some node can pass: the protocol is a type of outbound the program has, health needs one, the engine is singbox, IP type and band are in their lists or the band is "review", and some listed verdict exists and is one of the two of that band |
| `NodeListing.NodeTagSortKey` | internal/api/handler_node.go:32-52 | the display tag, or the best tag found by the loop |
| `NodeListing.KeyIsEarliest` | internal/api/handler_node.go:39-51 | the key is the least tag of the oldest subscription, unless that has tags with and without a name |
| `NodeListing.OrderFreeIff` | internal/api/handler_node.go:39-51 | the key does not depend on the order of the tags if and only if that is not so |
| `NodeListing.TotalOrder` | internal/api/handler_node.go:54-138 | for every key and direction a strict total order on nodes with different hashes: exactly one of two comes first, transitively; a node without the key never precedes one with it; the other direction is the reverse among the nodes that have the key, and the value that the key names decides |
| `NodeListing.SortNodeSummaries` | internal/api/handler_node.go:131-138 | nodes with different hashes can be sorted: a sorted permutation exists for every key and direction |
| `NodeListing.SortUnique` | internal/api/handler_node.go:128-138 | there is only one sorted list of the same nodes |
| `NodeListing.NextPage` | internal/api/api_helpers.go:153-162 | the nodes before an offset followed by the page at it are the nodes before the next offset |
| `NodeListing.PagingNeverSkipsOrRepeats` | internal/api/api_helpers.go:153-162 | however each request finds the nodes ordered, consecutive pages of any limit show every node once, in order |
| `Socks5Observer.Socks5AuthObserver.constructor` | cmd/prism/proxy_auth_guard.go:77-92 | a new observer waits for the method reply |
| `Socks5Observer.Socks5AuthObserver.Write` | cmd/prism/proxy_auth_guard.go:112-118 | observes exactly the bytes the connection took |
| `Socks5Observer.Socks5AuthObserver.Observe` | cmd/prism/proxy_auth_guard.go:167-185 | feeding a chunk in place is feeding its bytes one after the other |
| `Socks5Observer.Socks5AuthObserver.Consume` | cmd/prism/proxy_auth_guard.go:187-226 | the transition on one reply, and when it records a failure |
| `Socks5Observer.StreamState` | cmd/prism/proxy_auth_guard.go:167-219 | where a whole stream leaves the observer, read off its first four bytes |
| `Socks5Observer.SplitInvariant` | cmd/prism/proxy_auth_guard.go:112-118 | any split of the stream into writes ends in the same state |
| `Socks5Observer.OneFailurePerRejection` | cmd/prism/proxy_auth_guard.go:112-226 | however the bytes are split, one failure is recorded if the server rejected the client (section 3 of RFC 1928, section 2 of RFC 1929) and none otherwise |
| `Socks5Observer.FirstFourDecide` | cmd/prism/proxy_auth_guard.go:187-219 | bytes after the fourth make no difference |

## Left out

- HTTP handlers, JSON, YAML and CSV encoding, route registration, the web console: plumbing.
- Routing, leases, the node pool, billing, usage counters and the execution of jobs.
- Cryptography (argon2id, HKDF, AES-GCM, HMAC, SHA-256) and timing: unknown functions or fresh values.
- Downloading, verifying and renaming the GeoIP database; cron schedules and staleness.
- The accept loop's back-off and the sniffing of the first byte: the outcome of a sniff is nondeterministic.
- Name templates: `ExportNames.RenderNames` takes the rendered templates as input.
- Share links other than the hysteria rate parameters; Clash and mihomo formats.
- Concurrent changes of the pool during a scope expansion or of the nodes between two page requests.
- NodeListing.SortNodeSummaries: shows on values that a sorted permutation exists; the library sort and sorting in place are not modelled.
- 64-bit overflow of clocks and counters, except where `HysteriaRates` states it.
- Floating point: JSON numbers and latencies are reals.
- ConnListener.ConnChannelListener.Accept: one pass under the mutex; blocking in `cond.Wait` is part of the step relation in the same file.
- ConnListener.ConnChannelListener.Enqueue: one pass under the mutex; blocking in `cond.Wait` is part of the step relation in the same file.
- ConnListener.ConnChannelListener.Close: the broadcast to parked goroutines is part of the step relation in the same file.
- AutoEnqueue.AutoEnqueueQueue.Offer: states the call when nothing runs between its lock sections; offers that interleave are in `AutoEnqueueProtocol`.
- Sessions.PunctualStaysAlive: calls that do not overlap; for those that do see `SessionOverlap.RegularUseSurvivesIff`.
- Sessions.SurvivesIff: calls that do not overlap; for those that do see `SessionOverlap.RegularUseSurvivesIff`.
- Sessions.WritesAreRare: calls that do not overlap; for those that do see `SessionOverlap.AllOrderlyIff`.
- Sessions.DeadForever: calls that do not overlap; for those that do see `SessionOverlap.ComesBackIff`.
- AuthService.Service.Login: one login at a time; logins that interleave are in `LoginProtocol` (the second factor) and in `LoginGuesses` (the blocklist). The write of the login time and the CSRF token have no effect on the modelled state.
