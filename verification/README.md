# Verified models of the ALICA kernel's hard parts

This project models four parts of the repository and proves what they promise, for
every input and every run.

**The admission scheduler** (`Contexts`, `ContextLemmas`, `Checks`, `Turns`, `TurnLemmas`,
`Broker`, `Runs`, `Calls`, `Sessions`, and the account in `Budget`). `Broker` is the imperative scheduler:
finish, terminal, release and start call each other as in the source, and the
recursion is measured by the number of contexts that have not ended. Several sessions
share one world, because a context may have a parent in another session. Every public
method keeps one invariant and is a *turn* of the kind `Turns` describes; `Runs` proves
what follows over any sequence of turns: the causal tree, strict FIFO, quarantine, and
the offer handshake. `Checks` says what the live check up the chain of parents comes to,
and `Calls` when each call succeeds, of records, contexts and account alone. `Sessions` closes the circle: whatever list of calls a new scheduler
gets, what happens is such a sequence.

**The canonical codec and the frame stream** (`Text`, `Values`, `Printer`, `Parser`,
`RoundTrip`, `Shrink`, `Grammar`, `Derivation`, `Utf8`, `Unique`, `Codec`, `Frames`, `Reader`, `Stream`,
`NativeStream`, `Links`, `Delivery`, `Sharing`). Strings are sequences of UTF-16 code units, well
formed or not; `Values` says in a few lines what a value's text is, `Printer` and
`Parser` are the budgeted printer and the recursive descent as functions, and `Codec`
the cursor and the writer that the program runs. The syntax is the integer-only part of
sections 2, 5, 6 and 7 of RFC 8259, and lengths are those of section 3 of RFC 3629.
`Grammar` states that syntax a second time, as trees and the texts they spell, and
`Derivation` proves that the parser accepts exactly those texts.
On top of it `Reader` and `NativeStream` are the frame reader with its buffers and the
stream with its queue, tied to step functions; `Links` keeps the books of one endpoint
through every operation, `Delivery` joins two endpoints by any pipe, and `Sharing` puts a
scheduler and any number of endpoints on one account, as a physical session does: what
each of them assumes of the others is what the others are proved to do.

**Authority, resolution, lifecycle and events of the Kernel Host** (`Authority`,
`Versions`, `Resolution`, `Plan`, `Profile`, `Lifecycle`, `Disposal`, `Dependents`,
`Finishing`, `SingleFile`, `Overlap`, `Starting`, `Serving`, `Events`).
Activation, disposal and event pumps are state machines whose steps are the stretches of
code between two awaits; steps of different instances interleave freely.

**The contract runtime** (`Ledger`, `Channel`, `Backpressure`, `Outcomes`): the
idempotency ledger, the bounded channel and the credit window as values and as objects,
the stream composition as an interleaving of reader, pump and cancellation, and the two
stream generators.

Conventions. A thrown `AcapError` is an `Err` with its code. Clocks, nonces, fresh
correlation ids, what the kernel's read and write calls return, what authorization and
trust callbacks answer, and which schema a frame meets are parameters. An object the
source compares by identity is an index into a sequence. A lease's one-shot closure is
an index with a flag. Digests are taken to be injective: the canonical text stands for
its digest.

Two points where the code does something its reader may not expect. The bound of 64 on
the scheduler's queue never decides, because the account's 64 frames and the four
occupied slots leave room for sixty.

And the law that no dependent of a disposed instance is or becomes active does not hold in
all runs. `activate` hands out the promise it has, but `activateTree` calls itself for a
provider that is still VERIFIED without looking for one. So a plugin can be activated by
itself and again on behalf of a plugin that requires it; the two activations may choose
different providers, and the provider the slower one waits for may be disposed of before
the wait ends. Then the plugin, active by now, notes a dependency on a finished instance:
`Overlap.TwoActivationsStrandADependent` is such a run. The surplus activation later fails
at the transition to RESOLVED and the plugin is disposed of (`Overlap.SurplusDisposes`).
What is missing is a test after the await at line 958 of index.ts. With the test of
`Dependents.SafeJoin` (the consumer was never active, or is finished, or has not been
passed by the provider's disposal) no disposal ever misses a dependent, and this is so
exactly when the test is passed (`Dependents.NobodyMissedExactly`). It is enough for the
law; it is not always needed, as `Overlap.SafeIsNotNeeded` shows. The exact condition is
`Dependents.HarmlessJoin`: no set of disposals that can finish among themselves reaches
below the provider and leaves out an active instance above the consumer.
`Finishing.LawHoldsExactlyWhen` says that the law holds in all states of a run, and in
whatever disposals can make of them, exactly when every noting of a dependency is
harmless. `SingleFile.OneAtATimeIsSafe` gives the care that is enough from outside: no
activation begins while another of the same plugin is in progress, which is what
`startProfile` does. Everything else about disposal needs no such care
(`Disposal.DisposedIsDone`, `Disposal.HistoriesArePaths`).

## Model

| member | source | states |
|---|---|---|
| Brokers.Broker.FinishIn | packages/kernel/src/g6/scheduler.ts:68-76 | the re-entrant finish terminates (measure: the number of live contexts), keeps the tree, table, counter, queue and lease invariants while outer finishes are still walking their children, gives c the code it was called with if it was live, and ends only the subtree of c and queued roots whose own check failed |
| Brokers.Broker.Terminal | packages/kernel/src/g6/scheduler.ts:249-262 | a terminal context loses its record unless a descriptor is in flight or the process is quarantined; the invariants hold before and after with the same outer frames |
| Brokers.Broker.ReleaseRecord | packages/kernel/src/g6/scheduler.ts:263-274 | a record leaves table, queue, slot counter and account together, and the drain that follows leaves no slot idle while a root waits |
| Brokers.Broker.DrainOne | packages/kernel/src/g6/scheduler.ts:271-273 | one turn of the drain: the oldest root is started in an ordinary slot, and if its start ends other contexts the caller invariants still hold |
| Brokers.Broker.Start | packages/kernel/src/g6/scheduler.ts:177-190 | the record gets the slot and its context is handed out exactly if it and every context above it is live, in time and authorized; otherwise the context is finished with the code of the check that fails first |
| Checks.LivePasses | packages/kernel/src/g6/scheduler.ts:58-67 | assertLive passes exactly when the context and every one above it has not ended, is in time and is authorized |
| Checks.NearestOverDecides | packages/kernel/src/g6/scheduler.ts:58-67 | otherwise the nearest context that has ended or is late gives the code: its own, FAILED_PRECONDITION if it completed, DEADLINE_EXCEEDED if it is late |
| Checks.FurthestDenialDecides | packages/kernel/src/g6/scheduler.ts:58-67 | and if none has, the missing authority furthest up gives the code |
| Brokers.Broker.constructor | packages/kernel/src/g6/scheduler.ts:81-95 | an empty world satisfies the invariant |
| Brokers.Broker.Open | packages/kernel/src/g6/scheduler.ts:81-95 | a new session starts with empty table, queue, counters and account, and disturbs no other |
| Brokers.Broker.Finish | packages/kernel/src/g6/scheduler.ts:68-76 | a finish from outside keeps the invariant and is a finish turn: exactly the subtree ends, besides queued roots that fail in their turn |
| Brokers.Broker.Fail | packages/kernel/src/g6/scheduler.ts:275-283 | fail keeps the invariant, does nothing the second time, and otherwise ends every context of the session with the code while keeping every record |
| Brokers.Broker.FailLoop | packages/kernel/src/g6/scheduler.ts:278-281 | the loop of fail ends every context that had a record when it began, for no other reason than the failure or a root's own check |
| Brokers.Broker.Reaped | packages/kernel/src/g6/scheduler.ts:284-289 | reaped fails the session if it had not failed and then returns every record, slot and byte, offered or not |
| Brokers.Broker.Admit | packages/kernel/src/g6/scheduler.ts:105-170 | admit rejects with the first failing check and no change, or enrols the context under its parent with the deadline, depth, slot and lease the source computes, and grants, queues or refuses it |
| Brokers.Broker.Settle | packages/kernel/src/g6/scheduler.ts:164-166 | the end of admit: an enrolled record is started in its slot or put at the back of the queue |
| Brokers.Broker.Offer | packages/kernel/src/g6/scheduler.ts:192-215 | an admitted, live, unoffered record gets the next endpoint id and a nonce; every error leaves the world as it was |
| Brokers.Broker.Find | packages/kernel/src/g6/scheduler.ts:229-231 | the record whose current id is the given one, if there is one; ids are unique, so it is the only one |
| Brokers.Broker.Acknowledge | packages/kernel/src/g6/scheduler.ts:217-248 | only the right session, id and nonce clear an offer; a context that ended meanwhile is released then, and one that fails its check is finished |
| Brokers.Broker.Lend | packages/kernel/src/g6/wire.ts:42-54 | a holder other than a record takes a lease; records keep theirs |
| Brokers.Broker.Return | packages/kernel/src/g6/wire.ts:56-64 | a holder other than a record gives a lease back; records keep theirs |
| Runs.LiveAncestry | packages/kernel/src/g6/scheduler.ts:59-67 | every ancestor of a live context is live, ends no earlier and lies at a smaller depth |
| Runs.DepthCountsAncestors | packages/kernel/src/g6/scheduler.ts:116-117 | the depth is the number of ancestors plus one, and never more than eight |
| Runs.ChildrenAreLiveChildren | packages/kernel/src/g6/scheduler.ts:68-76 | between turns the children set is exactly the set of live children |
| Runs.FinishEndsExactly | packages/kernel/src/g6/scheduler.ts:68-76 | after finish(c) every descendant has ended, c with the given code and the others with the code that cascades; anything else that ended is a queued root whose own check failed when its turn came |
| Runs.RecordTable | packages/kernel/src/g6/scheduler.ts:105-274 | every live context has a record; an ended one keeps it only while offered or quarantined; admitted, holding a slot and not being queued are the same thing |
| Runs.SlotCounters | packages/kernel/src/g6/scheduler.ts:171-190 | each counter is the number of records that hold such a slot, at most 4, 4 and 1 |
| Runs.StrictFifo | packages/kernel/src/g6/scheduler.ts:263-274 | while anyone waits and the session has not failed all four ordinary slots are taken, and every holder of one is older than everyone waiting; only roots that are not lifecycle work wait |
| Runs.AdmissionNeverOvertakes | packages/kernel/src/g6/scheduler.ts:125-176 | a later call never gets an ordinary slot while a root is queued, nested and lifecycle work is never queued, and a newcomer goes to the back |
| Runs.RecordsAreCharged | packages/kernel/src/g6/scheduler.ts:133-136 | the records that are not lifecycle work are at most as many as the frames charged, at most 64 |
| Runs.QueueAtMostSixty | packages/kernel/src/g6/scheduler.ts:125-132 | the queue never holds more than sixty records, so the explicit bound of 64 never decides |
| Runs.AtMostNineOffers | packages/kernel/src/g6/scheduler.ts:192-215 | at most nine offers are pending at any time, with no check that counts them |
| Runs.TurnPersists | packages/kernel/src/g6/scheduler.ts:105-289 | no turn changes a context's identity, deadline, depth, parent, terminal code or bound endpoint id, and flags and counters only go forward |
| Runs.RunPersists | packages/kernel/src/g6/scheduler.ts:105-289 | the same over any number of turns |
| Runs.FirstCodeSticks | packages/kernel/src/g6/scheduler.ts:68-71 | the first terminal code of a context is never overwritten in any continuation |
| Runs.FreezingTurn | packages/kernel/src/g6/scheduler.ts:249-283 | in a failed session no single call moves a record, a counter, the queue or a record's lease |
| Runs.Quarantine | packages/kernel/src/g6/scheduler.ts:249-289 | from the failure until the reaping no run of calls moves a record, a counter, the queue or a record's lease, though every context of the session has ended |
| Runs.TurnSettles | packages/kernel/src/g6/scheduler.ts:105-289 | a lease once returned stays returned, one a record holds is held on or returned, and but for its holders returning it nobody touches a lease that is no record's |
| Runs.ReapedForGood | packages/kernel/src/g6/scheduler.ts:284-289 | after the reaping records, queue and counters are empty in every continuation, and every lease that any record of the session held at any time is returned and stays so |
| Runs.OfferStaysCharged | packages/kernel/src/g6/scheduler.ts:192-262 | an offered record is untouched by every call but its own acknowledgement and the reaping |
| Runs.OfferStaysChargedInRun | packages/kernel/src/g6/scheduler.ts:192-262 | the same over whole runs |
| Runs.WatermarkNeverRejects | packages/kernel/src/g6/worker-transport.ts:192-201 | the endpoint ids a session sends in any run increase strictly and stay safe integers, so the worker's watermark test passes on each |
| Runs.OfferedAtMostOnce | packages/kernel/src/g6/scheduler.ts:49-52 | no context is offered twice in a run |
| Runs.AckNamesOne | packages/kernel/src/g6/scheduler.ts:229-234 | an acknowledgement leaves every offer it does not name as it was |
| Calls.AdmitsExactly | packages/kernel/src/g6/scheduler.ts:105-170 | admit takes work in exactly when the session stands, the request is sound and not aborted, its authority and everything about all contexts above it stands, the depth is at most 8, and there is a slot, a nested or ordinary one, or a place in the queue, and room in the account; it waits exactly when it is a root that is not lifecycle work and all four ordinary slots are taken |
| Calls.AdmitRefuses | packages/kernel/src/g6/scheduler.ts:107-139 | the code of a refusal is that of the first thing wrong, and nothing has changed |
| Calls.NewContext | packages/kernel/src/g6/scheduler.ts:115-149 | the new deadline is the latest that the request, the cap of 30000 or for events 2000 milliseconds, and the parent allow; depth, owner and reservation number follow |
| Calls.GrantsExactly | packages/kernel/src/g6/scheduler.ts:164-190 | a new record gets its slot exactly when, at the start, its own time and authority and all above it stand |
| Calls.OffersExactly | packages/kernel/src/g6/scheduler.ts:192-215 | a descriptor is given out exactly for a record with a slot and none in flight, for a context alive all the way up and without a wire identity; its milliseconds are the remaining time rounded up |
| Calls.AcknowledgesExactly | packages/kernel/src/g6/scheduler.ts:217-248 | an acknowledgement is accepted exactly when it names a pending offer of a standing session, and yields the context exactly when that is alive all the way up |
| Sessions.Call | packages/kernel/src/g6/scheduler.ts:105-289 | every possible public call on a scheduler in the invariant is one turn |
| Sessions.Drive | packages/kernel/src/g6/scheduler.ts:81-289 | any list of calls on a new scheduler makes a run from the empty world, so every law about runs holds of it |
| Budgets.WireBudget.constructor | packages/kernel/src/g6/wire.ts:38-41 | an account starts empty and balanced |
| Budgets.WireBudget.Take | packages/kernel/src/g6/wire.ts:42-54 | a reservation adds one open lease of the size asked for within the frame, byte and control limits, or fails and changes nothing |
| Budgets.WireBudget.Give | packages/kernel/src/g6/wire.ts:55-64 | calling a lease's closure returns what it took, once |
| Budgets.ReserveExactly | packages/kernel/src/g6/wire.ts:42-54 | a reservation succeeds exactly with 1 to 2^53-1 bytes and room within 65536 control bytes, or 64 frames and 8388608 bytes |
| Budgets.ReserveKeepsBalance | packages/kernel/src/g6/wire.ts:42-54 | the counters stay equal to the sum of the open leases after a reservation |
| Budgets.ReleaseKeepsBalance | packages/kernel/src/g6/wire.ts:55-64 | the counters stay equal to the sum of the open leases after a release, and the second release of a lease does nothing |
| Budgets.ReserveReleaseCancel | packages/kernel/src/g6/wire.ts:42-64 | reserving and releasing gives back all three counters, whatever else is outstanding |
| Budgets.FramesCountOpenIds | packages/kernel/src/g6/wire.ts:47-53 | the frame counter is the number of open data leases |
| Texts.LessTotal | packages/acap-contracts/src/validation.ts:200 | the order in which keys are sorted is a strict total order |
| Texts.LessIsFirstDifference | packages/acap-contracts/src/validation.ts:200 | of two keys the one with the smaller code unit at their first difference comes first, and a text before its extensions |
| Texts.CommonBeginning | packages/acap-contracts/src/validation.ts:200 | after a common beginning the smaller unit decides |
| Texts.SortedByUnits | packages/acap-contracts/src/validation.ts:200 | so do the sorted keys of an object |
| Texts.IncreasingIsSorted | packages/acap-contracts/src/validation.ts:200 | only one arrangement of a set of keys is sorted, so the sorted keys do not depend on the order in which properties were added |
| Printer.WalkPrints | packages/acap-contracts/src/validation.ts:160-211 | at any depth and budget the walk succeeds exactly on values that fit there and whose plain text still fits the budget, and yields that text and spends exactly its bytes |
| Printer.CanonicalIsPrint | packages/acap-contracts/src/validation.ts:152-214 | canonical succeeds exactly on values within depth, number, string and key rules whose text is at most the bound, and returns the plain text |
| RoundTrip.ParsePrint | packages/acap-contracts/src/validation.ts:96-146 | a value's text in front of anything that may follow a value is read as that value, leaving exactly the rest |
| RoundTrip.UnescapeUndoes | packages/acap-contracts/src/validation.ts:78-95 | reading an escaped string gives the string back, for every code unit |
| RoundTrip.ScanFindsQuote | packages/acap-contracts/src/validation.ts:78-95 | the scan for the closing quote is never fooled by an escaped quote or backslash |
| RoundTrip.ParseDecimal | packages/acap-contracts/src/validation.ts:140-145 | every integer is read back from its decimal text |
| RoundTrip.ParseUndoesCanonical | packages/acap-contracts/src/validation.ts:62-214 | parse(canonical(v, m), m) returns v for every v canonical accepts under m |
| RoundTrip.CanonicalInjective | packages/acap-contracts/src/validation.ts:152-214 | values with the same canonical text are equal, under any two bounds |
| Derivations.ParsesExactly | packages/acap-contracts/src/validation.ts:62-151 | parse returns v exactly on the texts within the bound that a tree of the grammar of RFC 8259 spells and that mean v: integers in range, well-formed strings, ASCII names that differ, at most 32 containers around anything |
| Grammar.ReadsTree | packages/acap-contracts/src/validation.ts:76-151 | whatever a tree of the grammar spells is read as what the tree means, with any white space and escapes, whatever follows |
| Derivations.TreeOf | packages/acap-contracts/src/validation.ts:76-151 | whatever is read was spelled by a tree that means it |
| Derivations.ParseRefuses | packages/acap-contracts/src/validation.ts:62-151 | anything else is refused as malformed or as too much |
| Values.ControlEscapes | packages/acap-contracts/src/validation.ts:168-172 | other controls are escaped by number with lower-case digits |
| Shrink.ParseShrinks | packages/acap-contracts/src/validation.ts:62-151 | what a parse yields fits, and its text plus the unread rest is no longer than what was read |
| Shrink.CanonicalisesEveryAccepted | packages/acap-contracts/src/validation.ts:62-214 | for every text parse accepts, canonical of the result is defined, no longer in bytes, and parses to the same value |
| Shrink.DetachIsIdentity | packages/acap-contracts/src/validation.ts:221-223 | detach returns exactly its argument on everything canonical accepts and throws canonical's code on the rest |
| Utf8.EncodeLength | packages/acap-contracts/src/validation.ts:155-159 | Buffer.byteLength is the number of bytes UTF-8 encoding yields |
| Utf8.DecodeUndoes | packages/acap-contracts/src/validation.ts:65-73 | decoding the encoding of a well-formed text gives the text |
| Utf8.DecodeIsInverse | packages/acap-contracts/src/validation.ts:65-73 | the fatal decoder accepts a byte string only if it is the encoding of a well-formed text |
| Utf8.LoneHalf | packages/kernel/src/g6/wire.ts:91-121 | half of a surrogate pair by itself is written as U+FFFD |
| Unique.Check | packages/acap-contracts/src/validation.ts:254-256 | the loop over a set of texts equals the specification |
| Unique.UniqueExactly | packages/acap-contracts/src/validation.ts:254-256 | unique passes exactly when canonical accepts every item and the items are pairwise different; else the code is that of the first item without a text, or CONFLICT |
| Codec.Cursor.SkipWs | packages/acap-contracts/src/validation.ts:75-77 | the cursor moves over exactly the white space |
| Codec.Cursor.Str | packages/acap-contracts/src/validation.ts:78-95 | the cursor version of str agrees with the suffix specification in value, error and position |
| Codec.Cursor.Scalar | packages/acap-contracts/src/validation.ts:130-145 | words and numbers agree with the specification |
| Codec.Cursor.ReadValue | packages/acap-contracts/src/validation.ts:96-146 | the cursor version of value agrees with the specification at every depth, in value, error and position |
| Codec.Cursor.Members | packages/acap-contracts/src/validation.ts:113-128 | the loop that fills an object or an array agrees with the specification |
| Codec.ParseText | packages/acap-contracts/src/validation.ts:62-151 | parse as the program runs it equals the specification |
| Codec.Writer.Emit | packages/acap-contracts/src/validation.ts:155-159 | a piece is charged in full before the limit is tested |
| Codec.Writer.Write | packages/acap-contracts/src/validation.ts:160-211 | the walk as the program runs it equals the budgeted specification, text and budget |
| Codec.Writer.WriteArray | packages/acap-contracts/src/validation.ts:177-191 | the same for arrays |
| Codec.Writer.WriteObject | packages/acap-contracts/src/validation.ts:192-208 | the same for objects |
| Codec.SortKeys | packages/acap-contracts/src/validation.ts:200 | the keys come out in the one sorted order, each before those with a greater unit at the first difference |
| Codec.Print | packages/acap-contracts/src/validation.ts:152-214 | canonical as the program runs it equals the specification |
| Codec.ReadBody | packages/kernel/src/g6/wire.ts:85-90 | body as the program runs it equals its specification |
| Codec.ReadFrame | packages/kernel/src/g6/wire.ts:91-97 | decodeBody as the program runs it equals its specification |
| Codec.WriteFrame | packages/kernel/src/g6/wire.ts:98-105 | encodeFrame as the program runs it equals its specification |
| Frames.BodyAcceptsImage | packages/kernel/src/g6/wire.ts:85-90 | body returns v exactly when the bytes are the encoding of canonical(v) |
| Frames.BodyNeverFailsToReencode | packages/kernel/src/g6/wire.ts:85-90 | once the bytes parse, re-encoding them never fails on size or depth: the only refusal left is that they were not canonical |
| Frames.EncodeDecodes | packages/kernel/src/g6/wire.ts:91-121 | encodeFrame succeeds exactly on frames that are canonical and pass the schema; its packet announces its own length, the highest byte first, and decodes to the frame |
| Frames.DecodesExactly | packages/kernel/src/g6/wire.ts:91-103 | decodeBody accepts exactly bytes within the bound that encode a canonical text whose value passes the schema, and otherwise gives the schema's code or the bound's |
| Frames.DecodeEncodes | packages/kernel/src/g6/wire.ts:91-105 | a packet that decodes to a frame is the one packet that encodes it |
| Frames.OnlyOneReading | packages/kernel/src/g6/wire.ts:134-199 | if frames and an incomplete packet were read off a wire that carries other frames, the first are a prefix of the second, and the rest of the wire is the rest of the frames |
| Readers.FrameReader.constructor | packages/kernel/src/g6/wire.ts:134-146 | a new reader is idle and holds no lease |
| Readers.FrameReader.Size | packages/kernel/src/g6/wire.ts:147-153 | readSize is what is missing from the prefix, then from the body, then nothing once closed |
| Readers.FrameReader.CheckDeadline | packages/kernel/src/g6/wire.ts:154-159 | an unfinished frame older than two seconds closes the reader and returns its lease |
| Readers.FrameReader.Close | packages/kernel/src/g6/wire.ts:200-204 | closing returns the lease held, if any |
| Readers.FrameReader.Accept | packages/kernel/src/g6/wire.ts:160-199 | feed on the real buffers is exactly the specified step: state, account and result |
| Readers.FrameReader.AcceptPrefix | packages/kernel/src/g6/wire.ts:169-186 | the prefix bytes land in place; the fourth one swaps the four-byte lease for one of the whole packet |
| Readers.FrameReader.AcceptBody | packages/kernel/src/g6/wire.ts:187-195 | the body bytes land in place; the last one decodes the frame and hands over its lease |
| Readers.FeedKeepsLeases | packages/kernel/src/g6/wire.ts:160-199 | whatever is fed: the account stays balanced, nobody else's lease is touched, and the reader ends with exactly one open lease of the right size, or none because it was passed on or returned |
| Readers.FeedAccounts | packages/kernel/src/g6/wire.ts:160-199 | while the reader is open, what it held plus what it was fed is what it now holds, or exactly the packet of the frame it gives out |
| Readers.ReadSizePositive | packages/kernel/src/g6/wire.ts:147-153 | readSize is zero exactly when the reader is closed |
| Readers.LateExactly | packages/kernel/src/g6/wire.ts:150-200 | a frame that began two seconds ago and is unfinished is given up with DEADLINE_EXCEEDED, the reader closes and its lease is returned |
| Readers.AgeStays | packages/kernel/src/g6/wire.ts:150-200 | a frame is as old as its first byte |
| Readers.HonestBytesAccepted | packages/kernel/src/g6/wire.ts:160-199 | a chunk of at most readSize bytes of a stream of acceptable frames is refused only if the shared account has no room for the packet it belongs to |
| Streams.EndpointFence.Accept | packages/kernel/src/g6/wire.ts:225-236 | a frame passes exactly with the fence's identity and next sequence number, which then advances or closes at the largest safe integer |
| Streams.FrameRate.Take | packages/kernel/src/g6/stream.ts:18-26 | at most 1024 grants per window of a second |
| Streams.AtMostTwoWindows | packages/kernel/src/g6/stream.ts:15-26 | takes that lie within less than a second are granted at most 2048 times, whatever came before |
| NativeStreams.NativeStream.constructor | packages/kernel/src/g6/stream.ts:41-59 | a new stream is open with an empty queue and an idle reader |
| NativeStreams.NativeStream.Enlist | packages/kernel/src/g6/stream.ts:66-82 | send charges the packet, encodes and queues it, and takes the charge back if encoding fails |
| NativeStreams.NativeStream.SendOut | packages/kernel/src/g6/stream.ts:66-83 | send equals queueing followed by flush |
| NativeStreams.NativeStream.WriteOnce | packages/kernel/src/g6/stream.ts:87-100 | one native write moves the head item on and releases it when it is done |
| NativeStreams.NativeStream.FlushOut | packages/kernel/src/g6/stream.ts:84-101 | flush makes at most sixteen writes and stops at would-block, a late head or an exception, exactly as specified |
| NativeStreams.NativeStream.PullOnce | packages/kernel/src/g6/stream.ts:108-122 | one read of at most readSize bytes, its feed, fence and rate |
| NativeStreams.NativeStream.Admit | packages/kernel/src/g6/stream.ts:112-121 | a completed frame is handed over with its lease only past fence and rate; otherwise the lease is returned at once |
| NativeStreams.NativeStream.ReceiveFrame | packages/kernel/src/g6/stream.ts:103-124 | receive makes at most two reads and equals its specification |
| NativeStreams.NativeStream.Close | packages/kernel/src/g6/stream.ts:125-134 | close closes reader and fence and releases every queued packet |
| Links.FlushKeepsWrites | packages/kernel/src/g6/stream.ts:84-101 | through any pattern of partial writes, bytes written plus the unsent queue stay equal to the packets of the frames sent |
| Links.EnqueueKeepsWrites | packages/kernel/src/g6/stream.ts:66-82 | a frame that is queued adds exactly its packet behind the others; one that fails adds nothing |
| Links.PacketSize | packages/kernel/src/g6/stream.ts:68-72 | the size charged in advance is the size of the packet |
| Links.ReceiveKeepsReads | packages/kernel/src/g6/stream.ts:103-124 | through any chunking, bytes read stay equal to the packets of the frames completed and the unfinished one |
| Links.FlushKeepsLeases | packages/kernel/src/g6/stream.ts:84-101 | each finished packet returns its own lease, once |
| Links.EnqueueKeepsLeases | packages/kernel/src/g6/stream.ts:66-82 | a queued packet holds a new lease of its own size; a failed one leaves none |
| Links.ReceiveKeepsLeases | packages/kernel/src/g6/stream.ts:103-124 | the lease of a received frame goes to the dispatcher with the frame, or back |
| Links.CloseKeepsLeases | packages/kernel/src/g6/stream.ts:125-134 | close returns the reader's and every queued packet's lease |
| Links.ReceiveKeepsFence | packages/kernel/src/g6/wire.ts:225-236 | what is handed over is strictly increasing in sequence, and until something is refused it is everything read, numbered without a gap |
| Links.ActKeeps | packages/kernel/src/g6/stream.ts:30-134 | every operation of an endpoint, and anything others do with the shared account that leaves its leases alone, keeps queue, wire, reader, fence and lease books exact |
| Sharing.ActLeaves | packages/kernel/src/g6/stream.ts:30-134 | what an endpoint does by itself touches no lease but its own, and every lease it takes is its own from then on |
| Sharing.StepKeeps | packages/kernel/src/g6/session.ts:86-163 | one scheduler and any number of endpoints on each account: whatever one of them does, the books of all stay exact and their leases apart |
| Sharing.EveryLeaseHasOneHolder | packages/kernel/src/g6/wire.ts:38-69 | in every state of every run the counters are the sum of the open leases, and a lease is open exactly while one holder has it: one record, or one endpoint for a queued packet, its reader or a dispatcher |
| Sharing.NothingIsLeft | packages/kernel/src/g6/wire.ts:38-69 | when a session has no record and its endpoints are closed and their dispatchers done, its three counters are zero |
| Delivery.RunKeeps | packages/kernel/src/g6/stream.ts:30-134 | both endpoints' books are exact in every state of every run over any pipe |
| Delivery.FramesArriveInOrder | packages/kernel/src/g6/stream.ts:66-124 | the frames read are a prefix of the frames sent; what is held, in the pipe and queued is exactly the rest |
| Delivery.EverythingArrives | packages/kernel/src/g6/stream.ts:66-124 | once the queue is empty and the pipe is read dry, exactly the frames sent have been read and the reader is idle |
| Delivery.HonestChunkIsTaken | packages/kernel/src/g6/stream.ts:103-124 | an open reader asks for at least one byte and takes any chunk an honest peer wrote, unless the frame is late or the account is full |
| Delivery.HonestFramesPass | packages/kernel/src/g6/wire.ts:225-236 | a sender that numbers its frames from what the fence expects is never fenced out |
| Delivery.HonestReceive | packages/kernel/src/g6/stream.ts:102-129 | an endpoint read in time takes what an honest peer wrote, at least a byte at a time, and hands its frames over in order as they are complete, as long as account and rate allow |
| Delivery.FlushesExactly | packages/kernel/src/g6/stream.ts:84-101 | a flush makes up to sixteen writes of as much as the kernel takes, and stops when nothing is left, the kernel takes nothing, it fails, or the head packet is two seconds old |
| Delivery.EnqueuesExactly | packages/kernel/src/g6/stream.ts:66-82 | send takes a frame exactly when the endpoint is open, the lane can carry it, and queue and account have room for its packet |
| Delivery.NoReplay | packages/kernel/src/g6/wire.ts:225-236 | no frame is handed over twice in any run |
| Delivery.HandedOverBelongs | packages/kernel/src/g6/wire.ts:207-236 | only frames of the endpoint's own session, generation and context are handed over |
| Delivery.NothingLeaks | packages/kernel/src/g6/stream.ts:125-134 | after close, with the dispatchers done, every lease the endpoint ever took has been returned |
| Delivery.HoldsWhatItNeeds | packages/kernel/src/g6/wire.ts:160-199 | a lease of the endpoint is open exactly while a queued packet, the reader or a dispatcher holds it |
| Delivery.RunDelivers | packages/kernel/src/g6/stream.ts:30-134 | in any run, in both directions: frames read are a prefix of frames sent, bytes written a prefix of their packets, accounts balanced, queues within bound |
| Authority.OpenAllTheWayUp | packages/kernel/src/index.ts:318-340 | everything above an open scope is open |
| Authority.NewScopeKeeps | packages/kernel/src/index.ts:341-372 | a new scope gets a generation never used before under its name and hangs off an open one |
| Authority.CloseTreeKeeps | packages/kernel/src/index.ts:1551-1563 | closing a tree leaves no open scope under a closing one |
| Authority.DropScopeKeeps | packages/kernel/src/index.ts:1577-1578 | a scope that leaves the map keeps its object, name and generation apart from later ones |
| Authority.IssueKeeps | packages/kernel/src/index.ts:474-516 | what issueGrant stores hangs from a grant one scope up that is at least as wide and as long, for the same holder and resource, or from none at a root; it is valid at once and nothing else changes |
| Authority.ValidIsConjunction | packages/kernel/src/index.ts:536-555 | valid is the conjunction of the tests along the chain: its guard against cycles never fires |
| Authority.ChainAttenuates | packages/kernel/src/index.ts:474-555 | operations and expiry are bounded by every grant further up, for the same holder and resource, and one failing ancestor makes the grant invalid |
| Authority.ChainReachesRoot | packages/kernel/src/index.ts:499-512 | every chain ends at a grant given at a root scope |
| Authority.StepKeeps | packages/kernel/src/index.ts:341-606 | every operation keeps the scope and grant invariants |
| Authority.SpentStays | packages/kernel/src/index.ts:536-555 | a grant that is revoked, expired or bound to a closed generation stays so through every operation |
| Authority.NeverRevives | packages/kernel/src/index.ts:536-555 | over any run with a clock that does not go back, a grant that is not valid never is again |
| Authority.GenerationStaysGone | packages/kernel/src/index.ts:1551-1580 | once a scope generation has closed no grant bound to it is ever valid again, even while the name is in use again |
| Authority.AuthorityComesFromTheRoot | packages/kernel/src/index.ts:538-593 | whatever is authorized was granted for this very scope and generation and comes from the root: within the operations of every ancestor, each of which stands now and is for the same holder, principal, kind and resource, on a path of open scopes |
| Authority.AuthorizesExactly | packages/kernel/src/index.ts:556-593 | an unbound call is authorized exactly in an open scope in which some grant serves: given to this instance and principal, for this kind and resource, for this scope in its present generation, covering the operations, and standing with its whole chain; the answer is the one with the least id at its present revision |
| Authority.RechecksExactly | packages/kernel/src/index.ts:556-593 | a bound call is authorized exactly when that very grant still serves at that very revision |
| Authority.ValidExactly | packages/kernel/src/index.ts:538-555 | a grant is valid exactly when it and everything it hangs from is not revoked, within its time, and bound to an open scope in its generation |
| Authority.IssuesExactly | packages/kernel/src/index.ts:474-515 | issueGrant stores a grant exactly for a known instance that has not ended, in an open scope in its reach, within its time, and below a root only under a grant one scope up that is as wide and as long |
| Authority.NewScopeExactly | packages/kernel/src/index.ts:341-372 | newScope succeeds exactly with room, a free name and an open parent, and gives the next generation of the name |
| Authority.RevokedIsDead | packages/kernel/src/index.ts:594-598 | no use can be made of anything that hangs from a revoked grant, and no other grant is touched |
| Authority.HolderIsDead | packages/kernel/src/index.ts:1503-1504 | after a disposal no grant of the instance is valid, and those of others are as before |
| Authority.ClosedIsDead | packages/kernel/src/index.ts:1552-1561 | closing a tree closes exactly the scopes at or below its root, for good |
| Authority.ClosedGrants | packages/kernel/src/index.ts:1558-1559 | and makes exactly the grants bound to those scopes invalid |
| Authority.DroppedIsFree | packages/kernel/src/index.ts:1576-1577 | only a closing scope leaves the map, and its name is free then |
| Authority.VisibleSteps | packages/kernel/src/index.ts:333-340 | a scope is visible from itself and from whatever its parent is visible from |
| Authority.BindingNeverRecovers | packages/kernel/src/index.ts:556-593 | a bound authorization that has once been refused is refused for ever |
| Authority.Keeper.constructor | packages/kernel/src/index.ts:182-247 | no scopes and no grants at first |
| Authority.Keeper.CreateScope | packages/kernel/src/index.ts:341-372 | the map version of newScope, with its error order |
| Authority.Keeper.RevokeGrant | packages/kernel/src/index.ts:594-606 | revoking marks exactly the one grant |
| Authority.Keeper.RevokeAll | packages/kernel/src/index.ts:1503-1504 | the loop in dispose revokes exactly the holder's grants |
| Authority.Keeper.Check | packages/kernel/src/index.ts:556-593 | the loop version of authorize picks the fitting grant with the least id, or checks the bound one |
| Versions.OneTextPerVersion | packages/acap-contracts/src/validation.ts:248-253 | a text is a version exactly when it is the one decimal text of three numbers up to 2147483647 |
| Resolution.ConflictCheck | packages/kernel/src/index.ts:699-709 | the one-pass check finds a conflict exactly when two visible entries share an identity or disagree on a version's contract |
| Resolution.BeforeStrict | packages/kernel/src/index.ts:752-763 | the comparator is asymmetric and transitive |
| Resolution.BeforeTotal | packages/kernel/src/index.ts:752-763 | entries that passed the checks never compare equal |
| Resolution.SortOrders | packages/kernel/src/index.ts:764 | after the checks the sort leaves a strictly ordered list |
| Resolution.OrderedUnique | packages/kernel/src/index.ts:764 | a strictly ordered list is determined by its members |
| Resolution.OrderIndependent | packages/kernel/src/index.ts:696-777 | every rearrangement of the catalog passes or fails the checks alike and gives the same candidates and the same selection |
| Resolution.SelectsTheBest | packages/kernel/src/index.ts:764-777 | the selection is eligible, ahead of every other eligible entry, and from the pinned provider if there is a pin |
| Resolution.SelectsExactly | packages/kernel/src/index.ts:718-777 | something is selected exactly when some entry of the catalog meets the requirement: visible, trusted, in a state that counts, of the major version and minor range, with every operation and feature, and pinned if there is a pin; it is preferred to every other that does, by greater version, then lesser provider, then lesser artifact |
| Resolution.ResolvesExactly | packages/kernel/src/index.ts:699-778 | resolve fails exactly when a visible version cannot be read, two visible entries share provider and version or disagree on a version's contract, or nothing meets a pinned requirement; the candidates are all visible entries, best first |
| Resolution.ResolveProvider | packages/kernel/src/index.ts:696-777 | the loops of resolve equal its specification |
| Plans.VisitKeeps | packages/kernel/src/index.ts:832-864 | a visit extends the order behind what was there, leaves the plugins being visited alone and adds all of the plugin's bindings |
| Plans.PlanIsOrdered | packages/kernel/src/index.ts:832-865 | the order is a permutation of the selected plugins with every provider before its consumers, and each manifest has exactly its bindings |
| Plans.PlansExactlyAcyclic | packages/kernel/src/index.ts:832-865 | the walk succeeds exactly when every need is met and the needs have no cycle |
| Plans.BindsWhatIsNeeded | packages/kernel/src/index.ts:832-861 | each plugin is bound to exactly the providers and versions selected for its needs, in manifest order |
| Plans.PlanFailsFor | packages/kernel/src/index.ts:828-865 | a plan fails with the code of a need that is not met, or with CONFLICT when there is a cycle |
| Plans.LockIgnoresOrder | packages/kernel/src/index.ts:866-876 | success, the lock's sorted bindings and its sorted list of plugins are the same for every order in which the profile lists its plugins |
| Plans.Planner.VisitOne | packages/kernel/src/index.ts:832-864 | the closure that walks equals the specification |
| Plans.Planner.VisitEach | packages/kernel/src/index.ts:865 | the loop over the profile equals the specification |
| Profiles.ParentIsNearer | packages/kernel/src/index.ts:786-810 | in a profile plan accepts every parent is declared and one step nearer to the root |
| Profiles.ClimbsExactly | packages/kernel/src/index.ts:798-810 | the walk up finds nothing wrong exactly when it ends at a scope without a parent; an undeclared parent is INVALID_ARGUMENT and a way without an end CONFLICT |
| Profiles.SomeoneIsReady | packages/kernel/src/index.ts:896-899 | while a declared scope is missing, one that is missing has its parent already |
| Profiles.CreateRound | packages/kernel/src/index.ts:898-901 | a round creates the ready scopes behind those there are, parents first |
| Profiles.CreateAll | packages/kernel/src/index.ts:896-902 | the loop of startProfile ends, never finds a round empty, and creates every declared scope once and after its parent |
| Lifecycles.StepKeeps | packages/kernel/src/index.ts:946-1070 | every step of activations, plugin calls and disposals, in any order and however they overlap, keeps lifecycle, ownership, registration, call, grant and cleanup books |
| Lifecycles.DisposeKeeps | packages/kernel/src/index.ts:1492-1509 | the synchronous part of dispose: last states, registrations, calls and grants of the instance go together |
| Lifecycles.SweepKeeps | packages/kernel/src/index.ts:1511-1512 | a turn of the loop over dependents keeps the books of the disposing instance and of the dependent it disposes of |
| Lifecycles.UndoKeeps | packages/kernel/src/index.ts:1515-1520 | the loop over effects goes past an effect only when it is cleaned, and starts each cleanup at most once |
| Lifecycles.PublishKeeps | packages/kernel/src/index.ts:1046-1063 | publishing, or failing to, keeps the books: staged registrations become live only with their owner |
| Lifecycles.JoinKeeps | packages/kernel/src/index.ts:958-959 | noting a dependency keeps the books whatever has become of either side |
| Disposal.RunKeeps | packages/kernel/src/index.ts:154-163 | the books hold in every state of every run, however activations and disposals overlap |
| Disposal.HistoriesArePaths | packages/kernel/src/index.ts:154-163 | in every state of every run every history is a path of the transition table that ends in the present state |
| Disposal.DisposedIsDone | packages/kernel/src/index.ts:1492-1549 | in every run, when dispose resolves: terminal state, no live registration, no call, all grants revoked, each effect cleaned with one start, the disposal's own starts in reverse order |
| Disposal.DisposedForGood | packages/kernel/src/index.ts:1492-1498 | a finished disposal stays finished in a terminal state in every continuation |
| Disposal.BeginsOnce | packages/kernel/src/index.ts:939-945 | a plugin's own activation begins once; every later call of activate changes nothing |
| Disposal.CleanedWasSettled | packages/kernel/src/index.ts:1146-1163 | a disposal passes an effect only after its cleanup has settled |
| Serving.OnlyTheActiveServe | packages/kernel/src/index.ts:1046-1063 | in every state of every run a live registration belongs to an active plugin, no activation waits for a plugin on whose behalf it runs, and no plugin depends on itself |
| Serving.OnlyTheLiveAct | packages/kernel/src/index.ts:325-332 | only an active plugin or one on its way up provides or owns anything, only an active one calls, and only what an active one serves, and no power is given to one that has ended |
| Serving.ProvidesExactly | packages/kernel/src/index.ts:1195-1238 | what is provided is live at once by an active plugin and staged by one on its way |
| Starting.Activates | packages/kernel/src/index.ts:939-1063 | a plugin that may be activated and whose needs are met by active providers can become active: it depends on exactly those, what it staged is live, and nobody else has changed |
| Dependents.SweepOnward | packages/kernel/src/index.ts:1511-1512 | the loop over dependents goes past an instance only when it does not depend on the disposed one or is itself finished |
| Dependents.PublishOnward | packages/kernel/src/index.ts:1046-1063 | an instance becomes active only with every dependency active at that moment |
| Dependents.StepOnward | packages/kernel/src/index.ts:946-1070 | no step but the noting of a dependency adds to the graph, lets a disposal pass an unfinished dependent or makes anybody active on one that is not |
| Dependents.NobodyMissedExactly | packages/kernel/src/index.ts:958-959 | in any run: no disposal has ever passed a dependent that was ever active and is not finished, exactly when at each noting of a dependency the consumer was never active, or is finished, or has not been passed by the provider's disposal |
| Dependents.FinishedUpwards | packages/kernel/src/index.ts:1492-1549 | in a run of such notings, once a disposal is finished so is that of every instance above it that was ever active |
| Dependents.ActiveRestsOnActive | packages/kernel/src/index.ts:1058-1059 | in a run of such notings an active instance's dependencies are active, or their disposal has yet to come to it |
| Dependents.JoinLeaves | packages/kernel/src/index.ts:958-959 | noting a dependency leaves no active instance behind exactly when no disposal below the provider can finish without an active instance above the consumer |
| Dependents.SafeIsHarmless | packages/kernel/src/index.ts:958-959 | a run that passes the simple test at every noting passes the exact one |
| Finishing.FinishScheduled | packages/kernel/src/index.ts:1492-1549 | disposals that wait for each other in no circle can be brought to an end, every cleanup included, without anybody else being touched |
| Finishing.BreakableExactly | packages/kernel/src/index.ts:1492-1549 | from a state the law about dependents can be broken without a further noting exactly when some active instance can be left behind there |
| Finishing.LawHoldsExactlyWhen | packages/kernel/src/index.ts:958-959 | in every state of a run, and in whatever comes of one without a further noting, no instance above a finished one is active, exactly when every noting of a dependency in the run is harmless |
| Finishing.DependentsNeverReturn | packages/kernel/src/index.ts:1492-1549 | in a run of harmless notings no instance that depends on a finished one, however indirectly, is active, then or in any continuation |
| Finishing.StrandedExactly | packages/kernel/src/index.ts:1492-1549 | an active instance is left active on a finished one exactly when that disposal can finish without it |
| Finishing.UnsafeJoinStrands | packages/kernel/src/index.ts:958-959 | an active consumer that notes a provider whose disposal has passed it, and waits for nobody else, is stranded: there is a continuation with the provider finished and the consumer active on it |
| SingleFile.OneAtATimeIsSafe | packages/kernel/src/index.ts:939-945 | if no activation of a plugin begins while another one of it is in progress, every noting of a dependency is safe |
| Overlap.TwoActivationsStrandADependent | packages/kernel/src/index.ts:939-962 | a run, ending where everybody waits, in which a plugin is activated by itself and for another that requires it, and ends up active on a provider whose disposal has finished |
| Overlap.SurplusDisposes | packages/kernel/src/index.ts:962 | the same run goes on: the surplus activation fails at the transition to RESOLVED and the plugin is disposed of |
| Overlap.SafeIsNotNeeded | packages/kernel/src/index.ts:958-959 | a noting that fails the simple test and strands nobody: the disposal has still to wait for an instance that waits for the consumer |
| Events.OfferKeeps | packages/kernel/src/index.ts:1376-1403 | offering an event keeps one pump at most, a pump where something is queued, the bound and the numbering |
| Events.TurnKeeps | packages/kernel/src/index.ts:1406-1487 | every turn of a pump, and closing a subscription, keeps the same |
| Events.StepKeeps | packages/kernel/src/index.ts:1346-1487 | every step keeps the same for every subscription |
| Events.NoLostWakeUp | packages/kernel/src/index.ts:1346-1487 | in every state at most one pump per subscription, one wherever a live subscription has something queued, queues within bound, nothing lost while live |
| Events.InOrderAtMostOnce | packages/kernel/src/index.ts:1406-1487 | handlers are called in emit order, at most once for each event, with strictly increasing numbers for each source |
| Events.DeadStaysSilent | packages/kernel/src/index.ts:1441-1442 | a subscription that is no longer live never calls its handler again |
| Events.EmitsExactly | packages/kernel/src/index.ts:1371-1404 | the event gets the next number of its source; each live subscription that wants it has it at the end of its queue under a pump, or is closed if the queue was full; the others are as before |
| Events.EveryEventIsCalled | packages/kernel/src/index.ts:1346-1487 | a live subscription whose authority stood at every check has had its handler called for every event offered, in order, but for those in its queue and the one at hand |
| Events.CalledWasAllowed | packages/kernel/src/index.ts:1406-1487 | nothing reaches a handler whose authority did not stand both when it was taken and when it was called |
| Events.QueueDrains | packages/kernel/src/index.ts:1406-1487 | a live subscription with something queued can go through all of it, every handler called in turn |
| Events.EventHub.constructor | packages/kernel/src/index.ts:182 | no subscriptions at first |
| Events.EventHub.EmitAll | packages/kernel/src/index.ts:1375-1404 | the loop of emit equals its specification and counts exactly the subscriptions that took the event |
| Ledgers.KeysDoNotCollide | packages/acap-contracts/src/runtime.ts:271-278 | calls that differ in principal, scope, generation, capability, operation or key have different ledger keys |
| Ledgers.StepKeeps | packages/acap-contracts/src/runtime.ts:259-311 | every begin, settle and close keeps the ledger's invariant |
| Ledgers.NeverOutgrows | packages/acap-contracts/src/runtime.ts:268-289 | the map never holds more records than the bound the provider was made with, in every state of every run |
| Ledgers.OneRunPerKey | packages/acap-contracts/src/runtime.ts:268-289 | at most one handler run is in flight for each key, in every state of every run |
| Ledgers.StandsUntilExpiry | packages/acap-contracts/src/runtime.ts:268-289 | a settled record stays where it is until its retention ends |
| Ledgers.RetainedForRetention | packages/acap-contracts/src/runtime.ts:268-316 | when a call has run and settled at some moment with a retention, then until that much later, while the provider is open, the same call with the same payload gets what the run came to and any other gets CONFLICT |
| Ledgers.RunsAgainAfterRetention | packages/acap-contracts/src/runtime.ts:268-289 | from then on, unless another run has the key, and with room, the same call runs again |
| Ledgers.RunsExactly | packages/acap-contracts/src/runtime.ts:262-289 | a keyed call runs exactly when the provider is open, key and body have canonical texts, no run in flight or retained holds the key, and fewer keys than the bound are held |
| Ledgers.JudgesExactly | packages/acap-contracts/src/runtime.ts:291-306 | a success is recorded exactly for a value that can be detached and that the output type admits; an error keeps its code and anything else is CONTRACT_MISMATCH |
| Ledgers.AnsweredFromRecord | packages/acap-contracts/src/runtime.ts:280-285 | until then the same payload gets the recorded outcome and any other gets CONFLICT |
| Ledgers.InFlightConflicts | packages/acap-contracts/src/runtime.ts:280-282 | a duplicate of a run in flight is CONFLICT whatever its payload |
| Ledgers.RunsOnlyWhenFree | packages/acap-contracts/src/runtime.ts:268-289 | a handler runs for a key only when no running or retained record answers for it, within the record limit and without evicting one that does |
| Ledgers.ContractProvider.constructor | packages/acap-contracts/src/runtime.ts:232-251 | an empty, open ledger |
| Ledgers.ContractProvider.Sweep | packages/acap-contracts/src/runtime.ts:269-270 | the loop forgets exactly the settled records whose retention is over |
| Ledgers.ContractProvider.Enter | packages/acap-contracts/src/runtime.ts:265-289 | the part of unary before the handler equals its specification |
| Ledgers.ContractProvider.Leave | packages/acap-contracts/src/runtime.ts:290-312 | the part after the handler records success only for a value that can be detached and fits the output type |
| Ledgers.ContractProvider.Shut | packages/acap-contracts/src/runtime.ts:255-258 | closing empties the map |
| Channels.ChannelKeeps | packages/acap-contracts/src/runtime.ts:107-214 | no operation exceeds the capacity, and the terminal callback has run once if the channel ended and not otherwise |
| Channels.ReadersAreServed | packages/acap-contracts/src/runtime.ts:107-214 | in any use of a channel values come out in order, none twice and none passed over; every read is answered once except one that waits; and a reader is told of the end only when the channel is over and, unless it failed or was abandoned, everything has been given out |
| Channels.PushesExactly | packages/acap-contracts/src/runtime.ts:126-147 | a push is taken in exactly while the channel is not done and either a reader waits and the value is valid or there is room; a waiting reader gets it, and what is not taken in ends the channel |
| Channels.EndsExactly | packages/acap-contracts/src/runtime.ts:148-172 | end, failure and return reach a waiting reader at once and any other in its turn |
| Channels.ReadsExactly | packages/acap-contracts/src/runtime.ts:173-197 | a read gets the end if it has been told, the failure, the oldest value or what is wrong with it, the end, or it waits |
| Channels.BoundedChannel.constructor | packages/acap-contracts/src/runtime.ts:107-122 | an open, empty channel |
| Channels.BoundedChannel.PushValue | packages/acap-contracts/src/runtime.ts:126-147 | push equals its specification |
| Channels.BoundedChannel.FinishAll | packages/acap-contracts/src/runtime.ts:148-158 | finish equals its specification |
| Channels.BoundedChannel.FailWith | packages/acap-contracts/src/runtime.ts:159-172 | fail equals its specification |
| Channels.BoundedChannel.NextValue | packages/acap-contracts/src/runtime.ts:173-197 | next equals its specification |
| Channels.BoundedChannel.ReturnAll | packages/acap-contracts/src/runtime.ts:198-210 | return equals its specification |
| Channels.CreditWindow.constructor | packages/acap-contracts/src/stream.ts:4-10 | zero credit at first |
| Channels.SpendingKeeps | packages/acap-contracts/src/stream.ts:4-52 | credits are neither made nor lost: granted are those taken and those left, and every take is answered once except one that waits |
| Channels.CreditExactly | packages/acap-contracts/src/stream.ts:17-52 | when grant, take and close succeed and what they change |
| Channels.CreditWindow.GrantMore | packages/acap-contracts/src/stream.ts:17-32 | grant equals its specification |
| Channels.CreditWindow.TakeOne | packages/acap-contracts/src/stream.ts:33-44 | take equals its specification |
| Channels.CreditWindow.CloseAll | packages/acap-contracts/src/stream.ts:45-52 | close equals its specification |
| Backpressure.NextKeeps | packages/acap-contracts/src/runtime.ts:635-645 | a read finds nothing buffered, so it ends or waits, and the credit it grants is the only one |
| Backpressure.PushKeeps | packages/acap-contracts/src/runtime.ts:616-626 | a pushed item finds its reader waiting or a channel that is over |
| Backpressure.MoveKeeps | packages/acap-contracts/src/runtime.ts:558-650 | every step of reader, pump and cancellation keeps the balance of credit and waiting reader |
| Backpressure.StreamIsSafe | packages/acap-contracts/src/runtime.ts:558-650 | in every run: pulls at most requests, nothing buffered so no overflow, no grant throws, delivered is a prefix of produced, the terminal callback runs at most once |
| Backpressure.NobodyWaitsInVain | packages/acap-contracts/src/runtime.ts:558-650 | a waiting reader has a pump with its credit or a provider busy with its item |
| Backpressure.ReadsExactlyOnce | packages/acap-contracts/src/runtime.ts:635-645 | a read of a reader that has no other is answered at once when the channel is over, and waits with exactly one credit at work for it otherwise |
| Backpressure.StreamDelivers | packages/acap-contracts/src/runtime.ts:558-650 | whatever a provider has to give, there is a run in which a reader that keeps asking gets all of it and then the end, with one request for each item and one for the end |
| Outcomes.StreamOutcomes | packages/acap-contracts/src/stream.ts:71-111 | the encoding generator equals its specification |
| Outcomes.ReadStreamOutcomes | packages/acap-contracts/src/stream.ts:112-145 | the decoding generator equals its specification |
| Outcomes.CodeOfName | packages/acap-contracts/src/validation.ts:13-27 | the thirteen code names are distinct, so a code is read back from its name |
| Outcomes.TerminalReads | packages/acap-contracts/src/stream.ts:91-110 | the record that ends a stream always survives transport and reads as what it says |
| Outcomes.ItemDetaches | packages/acap-contracts/src/stream.ts:82-89 | if an item's record travels, so does the item, unchanged |
| Outcomes.DecodeUndoesEncode | packages/acap-contracts/src/stream.ts:71-145 | decoding an encoding gives all items and the source's end, or the items before the first that cannot travel and the code it failed with |
| Outcomes.CutShort | packages/acap-contracts/src/stream.ts:112-145 | a stream that breaks off gives out the items that came and ends as UNAVAILABLE |
| Outcomes.MisplacedIsRefused | packages/acap-contracts/src/stream.ts:112-145 | a record of another request or out of its turn is CONTRACT_MISMATCH, and one that is no record INVALID_ARGUMENT |
| Outcomes.ErrorsExactly | packages/acap-contracts/src/stream.ts:112-145 | an error is read from exactly the objects with a code's name, a message of at most 512 characters, a flag and an id |
| Outcomes.IdsExactly | packages/acap-contracts/src/stream.ts:71-81 | an id is one to 128 letters, digits, underscores and hyphens that begin with a letter or digit |
| Outcomes.PairsCountOnce | packages/acap-contracts/src/stream.ts:112-145 | the length limit of a message counts a character outside the basic plane once |
| Outcomes.CompletesOnlyOnEncodings | packages/acap-contracts/src/stream.ts:112-145 | the decoder ends normally only on sequences that start with the complete encoding of what it gave out |
| Outcomes.NoFalseSuccess | packages/acap-contracts/src/stream.ts:112-145 | however the records of a completed stream are dropped, repeated, reordered or cut, normal completion means all its items in order |

## Left out

- Abort listeners that run inside `controller.abort` are not modelled: finishing a context calls no outside code.
- Within one synchronous call of the scheduler the clock and the authorization oracle are constant, except that `admit` sees a second environment when it starts the record.
- A parent of an admission is a context that has been handed out; reservation and endpoint ids are two constructors with numbers instead of the texts r1 and c1; the offer's nonce is a number.
- `failSession`, which `fail` calls last, is outside code and not modelled.
- Timers are calls of the public methods; that a timer fires at its time is not modelled.
- `-0` is the number 0 in the value type, so the branch that turns it into 0 has nothing to do; accessors, prototypes, symbols, sparse arrays and shared or cyclic objects are not values here.
- Frames are values and a lane's schema and uniqueness checks are one predicate that names a code; the schema compiler, `payloadSchema`, `payload` and the individual frame types are not part of this model.
- `encodeOffer` and `decodeOffer` are `encodeFrame` and `decodeBody` with another bound and schema, and add no new question.
- Within one native read the clock is constant: the frame reader, the fence and the rate see the same time.
- NativeStream: processes, sockets and descriptors are an oracle for what each native call takes or gives.
- That the supervisor closes an endpoint after a receive threw is not assumed: the order law is about frames read, and about frames handed over until something throws.
- Scope ids that are reused while two `destroyScope` calls overlap are outside: a scope leaves the map only under its own name and object.
- `issueGrant` and `destroyScope` are stated on values, because whether a scope is visible is defined by its chain of parents with no bound on the walk; the other grant and scope operations are methods of `Authority.Keeper`.
- Which error code `resolve` gives when two conflicts coexist is not stated.
- Activation and disposal are stated on values, one step for each stretch between awaits; module linking, the plugin's own code, audit records, trust refreshes, secrets and reports are left out, and anything of theirs that can throw is the step that fails an activation.
- Inside a disposal the destruction of owned scopes and the wait for uncooperative work are steps that may take any time; what they start appears as separate steps.
- `Resolution.Resolve` starts after the requirement, scope and grant checks; trust acceptance is a flag of the entry.
- Of `plan` the scope checks and everything from the selection on are modelled; the document's schema, the pins' checks and the explanations are left out. The scope loop of `startProfile` is modelled for creations that do not fail for another reason.
- A record whose property name contains a comma can make the outcome decoder throw CONTRACT_MISMATCH where the model says INVALID_ARGUMENT; neither is success.
- Outcomes.DecodeUndoesEncode: is stated for fewer items than the largest safe integer, the point at which the encoder's own sequence number stops being a value.
- An encoder whose consumer stops early or throws into it is not modelled.
- `ContractSession.prepare`, `invoke` and the descriptor checks of a provider are not part of this model; the stream composition takes their verdicts as parameters.
- The worker's own bound on open contexts, `reap`, the supervisor's process handling, cryptography, the command line, generators, the test kit and the tools are not part of this model.
- The frame rate is kept for each endpoint, while the source shares one `FrameRate` among the endpoints of a session; no law turns on it.
- A session's account is shared here by its scheduler and its endpoints, which are all the holders the source has; the general holder of `Brokers.Broker.Lend` and `Brokers.Broker.Return` takes no part in `Sharing`.
- An activation that waits for a provider may go on here whenever the provider has been active, also where the wait would have thrown; so runs are more than the source's, never fewer.
