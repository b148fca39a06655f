# Verification of vs-remote

vs-remote runs VapourSynth scripts on a server and streams frames to clients. This project models the parts of it that
are easy to get wrong, in Dafny, and proves what they promise.

* **Requests in flight.** A client hands out ids from a 31-bit ring, keeps a table of pending futures, and completes
  each of them by a reply, an error, a cancellation or `close`. The server runs one handler per message; handlers
  finish in any order, and a later message may cancel a running one. `Protocol.dfy` is that system as a transition
  system: any number of clients, one server, a FIFO channel per direction and client. Sections under the tracker's
  lock, single flag tests and stretches of a coroutine between two awaits are atomic; everything interleaves at step
  boundaries. `ProtocolInvariant.dfy` finds an inductive invariant, `ProtocolTheorems.dfy` draws the conclusions, and
  `ProtocolProgress.dfy` says what is still possible: from every reachable state a request can be answered and a
  cancellation can arrive.
  `IdRing.dfy` holds the arithmetic of the ring, `Tracker.dfy` the tracker as a class, `Handlers.dfy` the life of one
  handler, `Statuses.dfy` the one condition of each status it may answer with, `Wire.dfy` the frames.
* **Prefetching.** `Proxy.dfy` (the proxy node with seeks and pruning) and `Pipe.dfy` (the `pipe` command) refine the
  program that requests one frame, waits and goes on.
* **Planes.** `Planes.dfy` follows a plane from the server's strided memory through packing and compression into the
  client's buffer with another stride.
* **Bookkeeping.** `Metrics.dfy` (sessions and the throughput window), `Runner.dfy` (the three output stores of
  `ScriptRunner`), `Loads.dfy` (when a load succeeds, what it leaves and what the client is told), `Redirect.dfy` (nested
  stream redirectors and the logging hook).

Code that changes state in place is modelled by classes and loops whose contracts give the new state as a function of
the old one (`State()` and friends); the theorems are lemmas about those functions and about sequences of calls. The
protocol is modelled on values only, because its steps interleave.

## Promises that hold under a condition

Some expectations hold only under a condition; the lemmas give the condition and a counterexample.

* A future is completed by the reply to its own request only as long as an id is not handed out again while something
  still carries it. `Protocol.ReuseBound` is the exact bookkeeping of that bound: at most 2^31-1 minus the number of
  entries pending just after an allocation may follow it while it is still around. A call counts as around also while
  the worker is in the middle of completing its entry. The bound cannot be improved: an id can come back after exactly
  that many other allocations (`Tracker.ReuseDistanceIsExact`). A client that makes fewer than 2^31-1 calls never notices
  (`ProtocolTheorems.FewCallsMeetTheBound`).
* A handler that is not cancelled and whose sends succeed may still answer nothing. `Handlers.OneReplyPerRequest` says
  exactly when: an exception leaves it before its first await (`Handlers.LostAtOnce`), or cuts it short at one
  (`Handlers.CutShort`). Among the inputs that do this: a token that is not ASCII, on either side, because the comparison
  raises (`Handlers.NonAsciiTokenGetsNoReply`, `Handlers.NonAsciiServerRepliesToNoToken`); GET_STATS, which guards only
  the look-up of the environment (`Handlers.StatsCanEndSilently`); an exception whose text cannot be built
  (`Handlers.UnprintableErrorsAreNotReported`); a teardown that raises after a failed load
  (`Handlers.TeardownCanSilenceAReply`).
* INVALID_PAYLOAD is answered exactly when the payload could not be decoded, or when encoding or sending a clip info
  raised a TypeError or MsgspecError inside the same `try` (`Handlers.InvalidPayloadHasTwoCauses`). The second case needs
  an encoder that refuses something a clip info can hold: `set_output` keeps an instance of any subclass of `str` as an
  output's name, so an encoder without support for such instances blames a client whose payload was fine
  (`Handlers.ClipInfoBlamesThePayload`).
* After `close`, the futures still unset are exactly those of calls that allocated late and whose payload could not be
  encoded (`ProtocolTheorems.CloseLeavesNothingUnset`, `ProtocolTheorems.UnencodablePayloadOutlivesClose`).
* When the last reading of the clock is not behind any earlier one, the rolling window is the filter of all completions
  if and only if no completion that is too old stands behind one that is not (`Metrics.WindowIsFilterExactly`); a clock
  that never runs backwards is enough (`Metrics.WindowIsFilter`), and going back can break it
  (`Metrics.WindowNeedsMonotoneClock`).
* The clean-up after a failed load is a critical section of its own, so with several workers it may wipe out a load
  that succeeded in between (`Runner.CleanUpWipesAnotherLoad`). `Runner.OutputsComeFromOneLoad` says exactly what is
  served in any interleaving.
* A load whose handler has been cancelled is not cleaned up. `Runner.WhatAnAbandonedLoadLeaves` says exactly when it
  leaves nothing.
* Uninstalling a redirector that is not the current stream breaks the stack, always
  (`Redirect.UninstallOnlyTheCurrent`), and may even make a redirector its own target
  (`Redirect.OutOfOrderMakesALoop`).

## Model

| member | source | states |
|---|---|---|
| `IdRing.FreeIdExists` | src/vsremote/client/transport.py:743-747 | The scan for an id can end if and only if fewer than 2^31-1 ids are pending. |
| `IdRing.PotentialStarts` | src/vsremote/client/transport.py:749-750 | Just after an id is handed out, the distance to it plus the ids that may be skipped on the way is bounded by the entries pending. |
| `IdRing.PotentialShrinks` | src/vsremote/client/transport.py:754-781 | Taking entries away never brings an id closer to being handed out again than that bound allows. |
| `IdRing.ReachingCosts` | src/vsremote/client/transport.py:746-747 | A scan that reaches an id again, or wraps past it, found every id up to it pending. |
| `IdRing.SkippingCosts` | src/vsremote/client/transport.py:746-750 | A scan that stops earlier uses up one pending entry per id it skips. |
| `IdRing.AllocationKeepsAway` | src/vsremote/client/transport.py:743-750 | While fewer allocations than the bound have followed, the next one neither returns the id nor passes it. |
| `Tracker.PendingEntry.Resolve` | src/vsremote/client/transport.py:714-723 | A set future keeps its outcome; an unset one gets the decoded envelope or the decoding error. |
| `Tracker.PendingEntry.Reject` | src/vsremote/client/transport.py:725-727 | An unset future fails with the given error, a set one is left alone. |
| `Tracker.PendingEntry.Cancel` | src/vsremote/client/transport.py:729-731 | An unset future becomes cancelled, a set one is left alone. |
| `Tracker.RequestTracker.constructor` | src/vsremote/client/transport.py:735-738 | The table is empty and the cursor stands at 1. |
| `Tracker.RequestTracker.Allocate` | src/vsremote/client/transport.py:740-752 | Terminates whenever an id is free; returns the first free id from the cursor on, in 1..2^31-1, with a fresh future that is registered under it and under nothing else. |
| `Tracker.RequestTracker.Pop` | src/vsremote/client/transport.py:754-756 | Removes the entry of this id, if any, and returns it; nothing else changes. |
| `Tracker.RequestTracker.Resolve` | src/vsremote/client/transport.py:758-766 | The future registered under the id, if it is unset, gets what the frames decode to, or the decoding error; no other changes; without an entry the reply is dropped. |
| `Tracker.RequestTracker.Cancel` | src/vsremote/client/transport.py:768-774 | Says whether there was an entry; cancels that entry's future if it is unset, and no other. |
| `Tracker.RequestTracker.Close` | src/vsremote/client/transport.py:776-781 | Every pending future ends up set, those unset before with the closing error; the table is empty. |
| `Tracker.ReuseDistance` | src/vsremote/client/transport.py:740-781 | Between two allocations of one id at least 2^31-1 minus the entries pending just after the first happen, for every mix of allocate, pop, resolve, cancel and close. |
| `Tracker.ReuseDistanceIsExact` | src/vsremote/client/transport.py:740-756 | That bound is reached from every table: an id that leaves the table at once can come back after exactly so many other allocations. |
| `Wire.IntegerRoundTrip` | src/vsremote/client/transport.py:693 | Decoding a big-endian encoding gives the number back, for every size. |
| `Wire.BytesRoundTrip` | src/vsremote/protocol/messages.py:145 | Every frame is the encoding of the number read from it, so ids are echoed exactly. |
| `Wire.RequestRoundTrip` | src/vsremote/protocol/messages.py:128-162 | `from_frames` recovers id, command, payload and token of what `_send_message` built, for every id below 2^32; an empty token is no token. |
| `Wire.ExchangeRoundTrip` | src/vsremote/server/daemon.py:628-635 | The reply to a parsed request goes to the sender, is routed to the same id, and arrives with the same status, payload bytes and extra frames; an OK payload is decoded, an error payload becomes the error it encodes or the fallback text; only decoding an OK payload can fail. |
| `Wire.MalformedRequestAnswered` | src/vsremote/server/daemon.py:360-366 | Parsing fails exactly on too few frames or an unknown command; with an id frame the client still gets INVALID_COMMAND under its own id. |
| `Wire.EventsAreRouted` | src/vsremote/client/transport.py:658-670 | Only traffic under id 0 with status OK and a payload is a stream event, and it is that payload; under any other id it goes to the tracker. |
| `Wire.IdBytes` | src/vsremote/protocol/messages.py:145 | The four bytes of an id are read with the most significant first. |
| `Handlers.AtMostOneReply` | src/vsremote/server/daemon.py:386-626 | A handler that has started to wait replies once, or not at all exactly when an await cuts it short. |
| `Handlers.GivingUpHasACause` | src/vsremote/server/daemon.py:386-626 | Being cut short needs a send or a teardown that raised, or an exception that is not an Exception or has no text. |
| `Handlers.OneReplyPerRequest` | src/vsremote/server/daemon.py:368-626 | For every token check and every command but a cancel request: never two replies; one exactly when no exception leaves the handler before its first await and no await cuts it short; every missing reply has one of the named causes. |
| `Handlers.OkMeansItWorked` | src/vsremote/server/daemon.py:368-626 | The reply is OK exactly when the request is admitted and not refused, and rendering, compressing, executing and sending, as far as the command needs them, all succeed. |
| `Handlers.TeardownCanSilenceAReply` | src/vsremote/server/daemon.py:624-626 | A load and its teardown that both raise leave the request unanswered although no send failed. |
| `Handlers.NonAsciiTokenGetsNoReply` | src/vsremote/server/daemon.py:369-373 | A client whose token is not ASCII gets no UNAUTHORIZED and no other reply, whatever it asks. |
| `Handlers.NonAsciiServerRepliesToNoToken` | src/vsremote/server/daemon.py:369-373 | A server whose own token is not ASCII answers no request that carries a token, the right one included. |
| `Handlers.AsciiTokensAreCompared` | src/vsremote/server/daemon.py:369-373 | In ASCII the check never raises and admits exactly the right token. |
| `Handlers.StatsCanEndSilently` | src/vsremote/server/daemon.py:388-402 | GET_STATS whose `use` or `snapshot` raises is not answered. |
| `Handlers.UnprintableErrorsAreNotReported` | src/vsremote/server/daemon.py:576-624 | A load or a frame that raises an exception without a text is not answered, and the load is not torn down. |
| `Handlers.InvalidPayloadHasTwoCauses` | src/vsremote/server/daemon.py:386-603 | The reply is INVALID_PAYLOAD if and only if the request is admitted and either a command that reads its payload cannot decode it and the first reply goes out, or a clip info raises a TypeError or MsgspecError and the second one goes out. |
| `Handlers.ClipInfoBlamesThePayload` | src/vsremote/server/daemon.py:419-427 | The second case is reached with a payload that was decoded and an output that was found. |
| `Handlers.MissingTokensAreNotCompared` | src/vsremote/server/daemon.py:369-373 | A server without a token admits everyone; one with a token rejects a missing or empty one without comparing. |
| `Statuses.UnauthorizedMeansRejected` | src/vsremote/server/daemon.py:369-373 | The reply is UNAUTHORIZED if and only if the token was rejected and the first send succeeds. |
| `Statuses.PermissionDeniedMeansNoEval` | src/vsremote/server/daemon.py:464-490 | The reply is PERMISSION_DENIED if and only if an admitted client wants to load code or a script, evaluation is not allowed, and the first send succeeds. |
| `Statuses.InvalidCommandMeansUnknown` | src/vsremote/server/daemon.py:491-492 | The reply is INVALID_COMMAND if and only if the admitted command is UNKNOWN and the first send succeeds. |
| `Statuses.NotFoundHasThreeCauses` | src/vsremote/server/daemon.py:419-626 | The reply is NOT_FOUND if and only if the output is missing, a clip info raised a KeyError, or a load raised FileNotFoundError or ScriptNotLoadedError and its clean-up succeeded, and the answer goes out. |
| `Statuses.ErrorHasThreeCauses` | src/vsremote/server/daemon.py:388-626 | The reply is ERROR if and only if no environment is set for GET_STATS, a frame failed at any of its four stages with an exception that can be described, or a load failed with any other such exception and its clean-up succeeded, and the answer goes out. |
| `Statuses.SubscribersGetStoredEvents` | src/vsremote/server/daemon.py:432-446 | The m-th stored event is sent if and only if an admitted client subscribes, at least m are to be replayed, and the reply and the events before went out. |
| `ProtocolInvariant.InitialInv` | src/vsremote/client/transport.py:735-738 | The invariant holds before anything is sent, for any set of clients. |
| `ProtocolInvariant.ActKeeps` | src/vsremote/client/transport.py:262-286 | Every step of a client keeps its part of the invariant: sending, cancelling, receiving, closing, a dying worker. |
| `ProtocolInvariant.StepKeeps` | src/vsremote/server/daemon.py:355-384 | Every step of any client or of the server keeps the invariant of the whole system. |
| `ProtocolInvariant.RunKeeps` | src/vsremote/server/daemon.py:355-384 | The invariant holds throughout every run. |
| `ProtocolTheorems.ResultsAreOwn` | src/vsremote/client/transport.py:654-670 | In every run a future that holds a result holds the answer to its own request. |
| `ProtocolTheorems.LiveIdsDiffer` | src/vsremote/client/transport.py:743-750 | Two calls of a client that are both still around never share an id. |
| `ProtocolTheorems.ReplyTakesOwnEntry` | src/vsremote/client/transport.py:658-670 | A reply removes the entry of the call it answers, or none if that call has left the tracker; traffic under id 0 removes nothing. |
| `ProtocolTheorems.CompletionIsFinal` | src/vsremote/client/transport.py:714-731 | The first completion of a future is never changed, however the run goes on. |
| `ProtocolTheorems.CloseLeavesNothingUnset` | src/vsremote/client/transport.py:181-190 | When `close` has emptied the tracker and every `send_request` is over, the futures left unset, in any interleaving, are exactly the entries of calls whose payload could not be encoded, and perhaps one the worker is about to complete. |
| `ProtocolTheorems.UnencodablePayloadOutlivesClose` | src/vsremote/client/transport.py:262-286 | Such an entry is reachable: a thread past the first flag test allocates after `close`, and the encoder raises. |
| `ProtocolTheorems.CancelPopsOwnEntry` | src/vsremote/client/transport.py:702-703 | The cancel callback removes its own call's entry or none; no other call changes. |
| `ProtocolTheorems.CancelFollowsRequest` | src/vsremote/client/transport.py:702-707 | At most one cancel message per call, only for a cancelled call whose own request was queued before, and never in front of it. |
| `ProtocolTheorems.CancelReachesOwnHandler` | src/vsremote/server/daemon.py:404-410 | A cancel message marks exactly the registered handler of the call it was sent for, if that still runs, and no other handler of this or another client. |
| `ProtocolTheorems.StoppedHandlerIsSilent` | src/vsremote/server/daemon.py:572-575 | A handler told to stop, or gone, adds no reply to its call in any continuation. |
| `ProtocolTheorems.CancelledHandlerIsSilent` | src/vsremote/server/daemon.py:404-410 | The same from the start of a run: after the cancellation the reply count of the call never grows. |
| `ProtocolTheorems.ReplyAccounting` | src/vsremote/server/daemon.py:355-384 | At most one reply per accepted request, exactly one if its handler ended without being lost at once or cut short, each under the id of its own call. |
| `ProtocolTheorems.RepliesFollowTheRun` | src/vsremote/server/daemon.py:355-626 | A call whose handler ended uncancelled has its one reply if and only if no step of the run lost its request before the first await or cut its handler short. |
| `ProtocolTheorems.SessionsCountHandlers` | src/vsremote/server/metrics.py:67-93 | Each session's `active_requests` is the number of that client's running handlers; eviction never discards a session with one. |
| `ProtocolTheorems.FloorNeverReached` | src/vsremote/server/metrics.py:91-93 | When a handler ends its session exists and counts it, so the floor at zero never matters. |
| `ProtocolTheorems.InflightIsBijective` | src/vsremote/server/daemon.py:375-384 | `_inflight_tasks` lists exactly the registered handlers, each under its own client and id. |
| `ProtocolTheorems.FewCallsMeetTheBound` | src/vsremote/client/transport.py:743-750 | The bound on id reuse is met by every client with fewer than 2^31-1 calls. |
| `ProtocolProgress.ReplyCompletes` | src/vsremote/client/transport.py:658-670 | From every reachable state, receiving the reply at the head of the downlink gives the future of its call that very answer, or an error if it cannot be decoded, takes the call out of the tracker and changes no other future. |
| `ProtocolProgress.EveryRequestCanBeAnswered` | src/vsremote/client/transport.py:262-286 | From every reachable state, wherever a request or its answer is (with its thread, queued, on its way, with its handler, answered), the call gets its own result if every step does its part. |
| `ProtocolProgress.EveryCancellationCanArrive` | src/vsremote/client/transport.py:702-709 | From every reachable state, wherever a cancellation is, the handler of the call is told to stop if every step does its part. |
| `ProtocolProgress.WhatCompletesAFuture` | src/vsremote/client/transport.py:714-781 | In every reachable state exactly these steps complete an unset future: receiving its own reply, cancelling it, giving up sending it, and emptying the tracker while it is in there; and each with its own outcome. |
| `ProtocolProgress.RefusedCallFails` | src/vsremote/client/transport.py:276-286 | A thread that finds the transport closed, the worker gone or queueing refused ends with its entry removed and its own future failed, and changes no other. |
| `ProtocolProgress.StoredEventArrives` | src/vsremote/server/daemon.py:440-446 | A stored event is sent to the subscriber under id 0, behind everything sent before. |
| `Proxy.MakeConfig` | src/vsremote/client/client.py:618-619 | Whatever the arguments, the backlog is at least the prefetch. |
| `Proxy.FrameTransport.RequestFrame` | src/vsremote/client/client.py:627 | Each request is issued once, for the given output and frame. |
| `Proxy.FrameTransport.Cancel` | src/vsremote/client/client.py:638 | Exactly this future is cancelled. |
| `Proxy.ProxyNode.constructor` | src/vsremote/client/client.py:618-622 | Nothing is in flight, nothing issued; the counts are normalised. |
| `Proxy.ProxyNode.FetchFrame` | src/vsremote/client/client.py:624-644 | The locked part of `fetch_frame` has the effect of `Fetch` and gives its caller the future recorded there. |
| `Proxy.ProxyNode.PruneWindow` | src/vsremote/client/client.py:632-638 | Exactly the futures outside [n, n + backlog] are cancelled and removed, in whatever order the keys come. |
| `Proxy.ProxyNode.FillWindow` | src/vsremote/client/client.py:640-644 | The prefetch loop issues what `Fill` says, stopping at the backlog. |
| `Proxy.FetchBooks` | src/vsremote/client/client.py:624-644 | Every call keeps the books: each future was issued for its own frame and is handed out, cancelled or in flight, and only one of these. |
| `Proxy.FullWindow` | src/vsremote/client/client.py:640-642 | Pigeonhole: the window never exceeds the backlog, and when it is full it holds every frame it may hold. |
| `Proxy.FetchKeepsWindow` | src/vsremote/client/client.py:630-644 | After a call from any state: keys in the window and in the clip, at most backlog of them, every frame to prefetch present. |
| `Proxy.WindowAfterEveryCall` | src/vsremote/client/client.py:618-644 | The same after every sequence of calls, for all constructor arguments; without prefetch nothing is ever in flight. |
| `Proxy.FetchCancels` | src/vsremote/client/client.py:632-638 | A call cancels exactly the futures in flight outside [n, n + backlog]. |
| `Proxy.FetchLeaves` | src/vsremote/client/client.py:630-644 | Futures in flight inside the window stay as they are, the frames to prefetch are there afterwards, and nothing else is. |
| `Proxy.FetchRequests` | src/vsremote/client/client.py:626-644 | The requests a call adds are one for its own frame and one for each frame to prefetch inside the clip, in order, as far as they were not in flight. |
| `Proxy.FetchGives` | src/vsremote/client/client.py:626-627 | The caller gets the future that was in flight for its frame, or the one just requested. |
| `Proxy.FetchWithoutPrefetch` | src/vsremote/client/client.py:626-630 | Without prefetching a call takes its own frame and touches nothing else. |
| `Proxy.ConfigFromArguments` | src/vsremote/client/client.py:618-619 | A negative prefetch is none; the backlog is three times the prefetch if it is missing or negative, and else at least the prefetch. |
| `Proxy.FuturesAreRight` | src/vsremote/client/client.py:624-638 | The future a caller waits on was issued for exactly its output and frame and is never cancelled, however other calls seek. |
| `Proxy.PrefetchIsTransparent` | src/vsremote/client/client.py:624-654 | For every sequence of calls the prefetching proxy returns what the proxy without prefetch returns. |
| `Proxy.RequestsConserved` | src/vsremote/client/client.py:624-644 | Requests issued = handed out + cancelled + in flight, as disjoint sets, one handed out per call. |
| `Proxy.PlayInOrder` | src/vsremote/client/client.py:624-644 | Playing in order, request k is for frame k, the first m are handed out, the rest are exactly the prefetch. |
| `Proxy.WholeClipOnce` | src/vsremote/client/client.py:618-644 | Playing the whole clip issues one request per frame in order, cancels none and leaves nothing in flight, for every prefetch and backlog. |
| `Pipe.OneByOneStops` | src/vsremote/cli.py:332-342 | The simple program writes the frames in order and stops at the first error status. |
| `Pipe.RequestAhead` | src/vsremote/cli.py:319-327 | The frames in flight stay one contiguous block from n on, at most min(backlog, prefetch + 1) long; the inner `else: break` is never taken. |
| `Pipe.TakeFuture` | src/vsremote/cli.py:329-330 | The future for frame n was issued for frame n; the fallback request happens only with an empty block. |
| `Pipe.NextFuture` | src/vsremote/cli.py:319-330 | From one frame to the next the block, the one request per frame and the bounds on what is in flight are kept, and the future taken is that of frame n. |
| `Pipe.WriteFrame` | src/vsremote/cli.py:335-340 | Appends the tag and the decompressed planes, in order. |
| `Pipe.ShowFrame` | src/vsremote/cli.py:332-342 | Waiting for the future of a frame and writing it is one step of the simple program. |
| `Pipe.PipeFrames` | src/vsremote/cli.py:316-342 | The loop gives the result of the simple program and has issued exactly the requests of the frames shown and the block ahead of them. |
| `Pipe.Pipe` | src/vsremote/cli.py:309-342 | The bytes written are those of the simple program for every prefetch and backlog; one request per frame, in order, and no fallback when prefetching. |
| `Pipe.OutputLength` | src/vsremote/cli.py:309-342 | The output is what was written before and then as many bytes as the frames shown have: the tag, if any, and the decompressed planes. |
| `Pipe.TagInOutput` | src/vsremote/cli.py:335-336 | With Y4M the six bytes of "FRAME\n" stand at the start of every frame shown, behind the frames before it. |
| `Pipe.PlaneInOutput` | src/vsremote/cli.py:338-340 | Plane p of frame k stands decompressed in the output, behind the header, the frames before, the tag and the planes before it. |
| `Planes.ExtractPlanes` | src/vsremote/server/daemon.py:653-668 | Part k is the packed plane k, or what the compressor makes of it; the size is the sum of the planes' sizes. |
| `Planes.TotalSizeAdds` | src/vsremote/server/daemon.py:659-668 | Sizes add up, and that of one plane is height * width * bytes per sample. |
| `Planes.Packed` | src/vsremote/server/daemon.py:663-664 | The contiguous shortcut and flattening give the same bytes: the rows one behind the other, of the size of the plane. |
| `Planes.PackedRowsAt` | src/vsremote/server/daemon.py:664 | Byte c of row r of the packed plane is byte c of row r in memory, for any source stride. |
| `Planes.BlitInside` | src/_copy_plane/src/lib.rs:44-50 | Every byte of every row is copied to its place, for any destination stride that holds a row. |
| `Planes.BlitOutside` | src/_copy_plane/src/lib.rs:44-50 | Nothing outside the rows is written. |
| `Planes.BlockIsRows` | src/_copy_plane/src/lib.rs:41-43 | The single block copy does what the row loop does when the stride is the row size. |
| `Planes.CopyBytes` | src/_copy_plane/src/lib.rs:46 | Copies exactly the given bytes to the given place. |
| `Planes.CopyBlock` | src/_copy_plane/src/lib.rs:41-43 | The block path gives the buffer that copying row by row gives. |
| `Planes.CopyRows` | src/_copy_plane/src/lib.rs:44-51 | The row loop with its moving pointers stays in both buffers and copies all rows. |
| `Planes.CopyPlane` | src/_copy_plane/src/lib.rs:17-55 | Raises exactly on a null destination; otherwise both paths give the same buffer. |
| `Planes.WritePlanes` | src/vsremote/client/client.py:662-672 | Every plane is decompressed into its own buffer; it fails exactly when a part is missing. |
| `Planes.SendFrame` | src/vsremote/client/client.py:661-672 | For a whole frame, every client buffer ends up as its own plane, packed, compressed, unpacked and copied with its own stride. |
| `Planes.PlaneInfosOfClip` | src/vsremote/protocol/messages.py:174-193 | A clip of variable format is refused; otherwise there is one entry per plane, chroma planes shifted down by the subsampling. |
| `Planes.PlaneSizes` | src/vsremote/protocol/messages.py:182-191 | The first plane has the size of the clip; for the others the horizontal subsampling divides the width and the vertical one the height by its power of two, rounded down. |
| `Planes.PackedSize` | src/vsremote/protocol/messages.py:182-191 | What arrives has exactly the size width * height * bytes per sample, so copying never reads past it. |
| `Planes.SamplesArrive` | src/vsremote/client/client.py:661-672 | Every sample of the server's plane is at the same row and column of the client's buffer, for any two strides, with or without compression. |
| `Planes.PaddingUntouched` | src/_copy_plane/src/lib.rs:38-52 | Row padding and everything behind the plane keep their bytes. |
| `Metrics.ServerMetricsCollector.constructor` | src/vsremote/server/metrics.py:56-57 | Counters at zero, no sessions, an empty window. |
| `Metrics.ServerMetricsCollector.OnRequestStart` | src/vsremote/server/metrics.py:67-85 | The client's session, a new one if need be, counts one more active and one more in total and is active now; no other session changes. |
| `Metrics.ServerMetricsCollector.OnRequestEnd` | src/vsremote/server/metrics.py:87-93 | The client's session, if any, counts one less active, not below zero, and is active now; its total and the other sessions stay. |
| `Metrics.ServerMetricsCollector.PruneWindow` | src/vsremote/server/metrics.py:239-243 | Entries are dropped from the front while they are too old. |
| `Metrics.ServerMetricsCollector.OnFrameCompleted` | src/vsremote/server/metrics.py:100-117 | Totals grow by the frame, which is appended to the window before pruning. |
| `Metrics.ServerMetricsCollector.Snapshot` | src/vsremote/server/metrics.py:129-194 | Rates are computed over the pruned window; exactly the idle sessions without requests are evicted. |
| `Metrics.RatesSay` | src/vsremote/server/metrics.py:139-150 | Rates are frames and bits, eight a byte, over the age of the window, which counts as at least a tenth of a second; zero for an empty window. |
| `Metrics.TotalsAdd` | src/vsremote/server/metrics.py:139-150 | The sums behind the rates count every entry once. |
| `Metrics.SnapshotForgets` | src/vsremote/server/metrics.py:129-194 | A session goes exactly when nothing runs for the client and nothing has started or ended for more than an hour; the others stay as they are. |
| `Metrics.SessionsFollowTheEvents` | src/vsremote/server/metrics.py:67-93 | Over every sequence of starts and ends a session exists once its client started a request, its total counts the starts, and it knows the time of the client's last event. |
| `Metrics.PrunedIsRecent` | src/vsremote/server/metrics.py:239-243 | Popping from the front is filtering if and only if no old entry stands behind a recent one. |
| `Metrics.PrunedTwice` | src/vsremote/server/metrics.py:239-243 | What an earlier cutoff removed, a later one would have removed as well, whatever is appended in between. |
| `Metrics.WindowStandsForHistory` | src/vsremote/server/metrics.py:107-117 | Pruned with a cutoff no earlier than any used so far, the deque and the whole history give the same, for any clock. |
| `Metrics.WindowIsFilterExactly` | src/vsremote/server/metrics.py:107-155 | If the last reading is the latest, the deque is the history pruned once, and it is the filter of the history if and only if no old completion stands behind a recent one. |
| `Metrics.WindowIsFilter` | src/vsremote/server/metrics.py:107-155 | For every history with a clock that does not run backwards the deque is exactly the completions no older than the window. |
| `Metrics.WindowNeedsMonotoneClock` | src/vsremote/server/metrics.py:239-243 | A clock that goes back leaves an entry in the window that is too old. |
| `Runner.ScriptRunner.constructor` | src/vsremote/server/runner.py:28-41 | Nothing is loaded and nothing served. |
| `Runner.ScriptRunner.TeardownEnvironment` | src/vsremote/server/runner.py:187-202 | The stores are empty even when a disposal raises; a script that could not be disposed of is kept. |
| `Runner.ScriptRunner.ExtractOutputs` | src/vsremote/server/runner.py:287-300 | The loop over the outputs has the effect of `Extract`, also when it is left by an exception half-way. |
| `Runner.ScriptRunner.Execute` | src/vsremote/server/runner.py:105-110 | Script and environment are set as soon as the script is launched; outputs appear only if it ran. |
| `Runner.ScriptRunner.Load` | src/vsremote/server/runner.py:92-110 | A missing file changes nothing; otherwise the old script goes first and the path is set before the new one runs. |
| `Runner.ScriptRunner.LoadCodeString` | src/vsremote/server/runner.py:132-149 | Loading code forgets the path. |
| `Runner.ScriptRunner.ReloadScript` | src/vsremote/server/runner.py:151-166 | Without a path nothing happens; otherwise the file is loaded again, with the directory choice remembered unless overridden. |
| `Runner.ScriptRunner.FromClips` | src/vsremote/server/runner.py:236-259 | Clips under any distinct indices are served under these indices and their default names; a refused clip makes the construction fail. |
| `Runner.ScriptRunner.FromClipList` | src/vsremote/server/runner.py:250-259 | A sequence is served under its positions. |
| `Runner.ScriptRunner.GetClip` | src/vsremote/server/runner.py:168-173 | Finds a clip exactly for the indices that are listed, and the one described there. |
| `Runner.ScriptRunner.GetClipInfo` | src/vsremote/server/runner.py:175-180 | Finds the info that is listed under this index. |
| `Runner.GettersAgree` | src/vsremote/server/runner.py:168-185 | In every reachable state a clip is found exactly under the listed indices, an info exactly there too, and it has the width, height, length and format of that clip and its listed name. |
| `Runner.ExtractAgrees` | src/vsremote/server/runner.py:287-300 | Wherever extraction stops, the three stores have the same indices, none twice, with matching infos. |
| `Runner.ExtractsTheVideos` | src/vsremote/server/runner.py:287-297 | Every video before the first refused clip is served under its own index with its own measures and its registered name, or the default one if that is missing or empty; success means that none was refused. |
| `Runner.ExtractsInOrder` | src/vsremote/server/runner.py:287-300 | The list of outputs keeps the order of the dictionary and leaves out what is not video. |
| `Runner.StoresAlwaysAgree` | src/vsremote/server/runner.py:92-203 | From an empty runner or any mapping of clips, in every reachable state, failing loads and disposals included, the stores agree, at most one script is left undisposed, and served clips have an environment to be rendered in. |
| `Runner.ReloadReadsTheLastFile` | src/vsremote/server/runner.py:161-166 | The reload path is the last file `load_script` accepted, unless accepted code came later. |
| `Runner.DispatchExecutor` | src/vsremote/server/daemon.py:592-626 | Loads for a client, and tears down after a failure that can be described, a reply that could not be sent included. |
| `Runner.DispatchIsTheHandler` | src/vsremote/server/daemon.py:607-626 | The status sent is the one of the request handler modelled in `Handlers`, for every way the load, the teardown and the sends end. |
| `Runner.LoadThroughTheServer` | src/vsremote/server/daemon.py:607-626 | The client reads OK exactly for a successful load, and then for the outputs served; after every failed load nothing is served; after a reply that could not be sent nothing is served exactly if that failure can be described or there was no output; the reload path survives. |
| `Runner.OutputsComeFromOneLoad` | src/vsremote/server/runner.py:92-203 | In every interleaving, what is served comes from the last call that emptied the stores, and from it alone. |
| `Runner.CleanUpWipesAnotherLoad` | src/vsremote/server/daemon.py:624-626 | The teardown of a failed load may remove the outputs of a load that succeeded in between. |
| `Runner.WhatAnAbandonedLoadLeaves` | src/vsremote/server/runner.py:287-300 | Without the clean-up a failed load leaves nothing if and only if no video came before a refused clip; one that failed before the teardown leaves what was there. |
| `Loads.DefaultNameSays` | src/vsremote/server/runner.py:287-297 | A default name is "Output " and the decimal number of the index, so that different outputs have different default names. |
| `Loads.HowALoadEnds` | src/vsremote/server/runner.py:92-110 | A load succeeds if and only if the source is there, the disposals work, the script runs and no clip is refused; each failure has its own condition otherwise. |
| `Loads.WhatALoadLeaves` | src/vsremote/server/runner.py:92-149 | Without a source nothing changes; after a disposal that raised only what was disposed of and the outputs are gone; otherwise the new script and its environment are there as soon as it was launched. |
| `Loads.WhatATeardownLeaves` | src/vsremote/server/runner.py:187-202 | A teardown that works leaves nothing loaded and nothing served; one that raises has emptied the stores and keeps what could not be disposed of. |
| `Loads.ReloadUsesTheLastChoice` | src/vsremote/server/runner.py:161-166 | In every run the directory choice a reload starts from is the last one that came with a file the runner took, and at first to change directory. |
| `Loads.WhatTheClientIsTold` | src/vsremote/server/daemon.py:607-626 | OK, NOT_FOUND, ERROR and INVALID_PAYLOAD each have one condition: how the load ended, which exception it was, whether its text can be built, and whether the clean-up and the send worked. |
| `Loads.WhatTheHandlerLeaves` | src/vsremote/server/daemon.py:607-626 | The handler of a load tears down exactly after an exception that can be described, and otherwise leaves the runner as the load left it. |
| `Redirect.Process.InstallLoggingHook` | src/vsremote/server/redirect.py:33-39 | Counts one more; the first one patches. |
| `Redirect.Process.UninstallLoggingHook` | src/vsremote/server/redirect.py:42-49 | Counts one less, not below zero; the last one unpatches. |
| `Redirect.Process.CallHandlers` | src/vsremote/server/redirect.py:25-30 | A patched hook suppresses the events of what handlers write and restores the logging flag. |
| `Redirect.Process.WriteTo` | src/vsremote/server/redirect.py:167-171 | The text is appended once to the original stream at the end of the chain and no other stream changes; the events are those of the redirectors on the way. |
| `Redirect.StreamRedirector.constructor` | src/vsremote/server/redirect.py:109-114 | Starts uninstalled, with the current stream as its target. |
| `Redirect.StreamRedirector.Install` | src/vsremote/server/redirect.py:182-187 | Becomes the current stream, with the previous one as target; a second call changes nothing. |
| `Redirect.StreamRedirector.Uninstall` | src/vsremote/server/redirect.py:189-193 | Its target becomes the current stream; a second call changes nothing. |
| `Redirect.StreamRedirector.Write` | src/vsremote/server/redirect.py:166-171 | Writes through to the original stream once and dispatches its own event after those below it. |
| `Redirect.EmittedInOrder` | src/vsremote/server/redirect.py:167-171 | One event per redirector on the way, the innermost first; none for empty text or while logging. |
| `Redirect.HookCountsInstalled` | src/vsremote/server/redirect.py:182-193 | In every run, in whatever order, the hook count is the number of installed redirectors and the hook is patched exactly when there is one. |
| `Redirect.UninstallOnlyTheCurrent` | src/vsremote/server/redirect.py:189-193 | Uninstalling keeps the stack in order if and only if the redirector is the current stream. |
| `Redirect.NestedStaysStacked` | src/vsremote/server/redirect.py:182-193 | In every well-nested run the installed redirectors of a stream are exactly those on its chain. |
| `Redirect.NestedRedirection` | src/vsremote/server/redirect.py:167-193 | After a well-nested run the original stream is back exactly when no redirector of that name is installed, and a write dispatches exactly one event per installed redirector. |
| `Redirect.LogRecordsAreNotEchoed` | src/vsremote/server/redirect.py:25-49 | What a logging handler writes to a redirected stream is never dispatched as stream output. |
| `Redirect.BlocksRestore` | src/vsremote/server/redirect.py:196-206 | Any nesting of `with` blocks gives back both streams, the hook and its count. |
| `Redirect.OutOfOrderMakesALoop` | src/vsremote/server/redirect.py:182-193 | Out of order, a redirector can become its own target, so that no write to it ever arrives. |

## Left out

- ZeroMQ sockets and their options, Curve, ZAP and keepalive: the channels are FIFO sequences per direction and client. A reply that the socket drops on its own is not modelled.
- MsgPack, zstd and UTF-8 are parameters with the law that decoding undoes encoding; error texts and their formatting are not modelled.
- VapourSynth, vsengine, psutil and the file system: clips and scripts are opaque, and what they do is an argument of the operation.
- Clocks are arguments. Counters of failed or cancelled frames are not modelled; frame counters do not partition the requests.
- Metrics.ServerMetricsCollector.OnFrameCompleted: the latency deques are left out, they only feed averages.
- Metrics.ServerMetricsCollector.Snapshot: latency averages, the order of the client list, rounding and process figures are left out.
- Metrics.WindowIsFilterExactly: says nothing when the last reading of the clock is behind an earlier one, which may have removed entries that are recent again.
- Handlers.OneReplyPerRequest: SystemExit and KeyboardInterrupt from loaded code also stop the event loop; here they end the one handler. Releasing a rendered frame and formatting log records are taken not to raise; a cancellation is `Protocol.Unwind`.
- Restarting a transport after `close`, a new identity, and the server's `stop`: the worker may die at any point, but it is not started again. `close` before the transport was started is not modelled.
- How cancelling a mapped future reaches its parent: cancellation starts at the future returned by `send_request`.
- A request accepted from something that is not such a client: in the protocol ids come from the tracker. Malformed messages are treated in `Wire.MalformedRequestAnswered` only.
- Order of events per subscriber, and the set of subscribers.
- Timeouts of waiting callers, and the exceptions raised from an error status in the proxy.
- The protocol's state is a value: locks and coroutines are represented by the atomicity of the steps, futures by entries of a list.
- Pipe.Pipe: the server's answer to a frame request does not depend on when it was issued; timeouts are left out.
- Proxy.PrefetchIsTransparent: the same, and all futures are taken to be answered before the callers look at them.
- Proxy.ProxyNode.constructor: creates the transport's log of requests for itself; other users of the same transport are not modelled.
- Planes.CopyPlane: negative strides and address overflow are excluded, because the raw pointers are modelled by an array and an offset; a decompressed buffer shorter than the plane is excluded, as the source's own assertion does.
- Planes.WritePlanes: the same, for every part.
- Runner.ScriptRunner.TeardownEnvironment: start-up events and the registered output names, which it clears as well, are not part of the state.
- Runner.ScriptRunner.Load: the resolution of paths, environments passed by the caller, captured start-up output and the policy are left out; a script's launch is an argument.
- Redirect.StreamRedirector.Write: the other stream methods delegate to the target and are left out; so is the log forwarder, whose records are not stream output.
- Stream restoration for uninstalls that are not well nested is false in general and not claimed.
- The TUI, command line parsing, key generation, the Y4M header and the output registration API: input, output and easy finite cases.
