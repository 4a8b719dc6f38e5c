# zapwire, modelled and proved

zapwire ships zap log entries to a collector. This project models the parts of it whose
correctness is decided by its own code, and proves what those parts are for:

- **Delivery.** `OtlpWriter` and `RootAsync` model the two asynchronous writers, and `RootConn` the
  reconnecting connection of the root writer, as step relations: any number of concurrent callers,
  the background goroutines and one `Close` interleave freely, one shared access at a time. Channels
  are bounded sequences, a lock is its holders, and a goroutine is a program counter. The theorems
  hold in every state of every run. `FinalDrain` and `FinalFlush` follow the shutdown drains to their
  end and say which batches they send. `OtlpCalls`, `RootCalls` and `ConnCalls` say what one call
  does from its first statement to its return, when in any interleaving a record may be refused or
  evicted, and when a reconnect burst may give up. `Ledger` holds the histories the writers are
  judged by; `Responses` counts what a server rejects.
- **Batching and retry.** `Batching` is the byte-aware batch cutting of the OTLP flush goroutine,
  compared with every other way to cut; `Retry` is the retry loop against its budget and the shared
  drain deadline, on an integer clock, for a receiver that may do anything, with the fate of a batch
  stated in terms of the receiver's answers.
- **Frame-stack encoders.** `FrameStack`/`Encoder` (length-prefixed protobuf, with rollback) and
  `FluentEncoder`/`FluentEntry` (count-prefixed MessagePack, without) are classes with the fields
  the code updates; both are proved equal to a plain recursive serializer (`Attributes`, `MsgPack`)
  for every marshaler program: failing ones, ones that leave namespaces open, ones that nest
  themselves for ever. `EncoderLaws` and `FluentLaws` say what each kind of field, marshaler call and
  metadata member adds, and what a reader finds in a record. `Levels` is what the two share, `Traces`
  follows span contexts through marshalers to the record, and `Buffers` shows that treating pooled buffers as values is sound.
- **Wire formats.** `Wire` and `Envelope` (protobuf), `JsonString`, `Text` and `Json` (OTLP/JSON),
  `MsgPack` and `FluentFramer` (MessagePack, PackedForward). `Transcoding` and `RequestJson` carry
  the transcoder's commuting square from single values to whole export requests; `Truncation` and
  `JsonErrors` say exactly which bytes the scanners and the transcoder refuse.

Marshalers are programs given by name (`Marshalers`), so that one may nest itself without end. Text
the Go standard library or other packages produce (finite floating-point numbers, reflected values,
error texts) is handed in as bytes. The standards followed are Protocol Buffers Encoding,
opentelemetry-proto v1.10.0 logs/v1, the "JSON Protobuf Encoding" part of the OTLP specification
1.10.0, section 7 of RFC 8259, sections 3 and 4 of RFC 3629, the MessagePack specification and the
PackedForward mode of the Fluentd Forward Protocol Specification v1.

`dafny verify dfyconfig.toml` checks the whole project.

Results a reader of the code may not expect:

- The retry loop ends for every receiver exactly when MaxInterval is at least 2 ns, or every attempt
  takes at least 1 ns, or retry is off (`Retry.TerminationExact`). A normalized configuration may
  hold 1 ns; the halved delay is then zero, and if attempts could take no time at all the budget
  would never run out. It is the duration of real attempts, not the backoff, that ends the loop there.
- `tryConnect` never finds an old connection to close (`RootConn.NeverDisplaces`): a reconnect burst
  only runs while there is none.
- The transcoder does not look into a nested message that a later one of the same number replaces, so
  such a message may be malformed (`JsonErrors.TranscodesExactly`).
- A JSON string comes back unchanged exactly when it was valid UTF-8 (`JsonString.ValidRoundTrip`);
  otherwise each bad byte has become U+FFFD.
- A MessagePack value comes back exactly when every length and count in it fits 32 bits
  (`MsgPack.RoundTripExact`); the framer checks the entries for that, but not the tag
  (`FluentFramer.FrameDecodes`).
- A hook that writes two values for one key leaves a frame that is not the frame of any map
  (`FluentEncoder.HookExact`); in an array any number is fine.

## Model

| member | source | states |
|---|---|---|
| `OtlpWriter.ShutdownSafety` | otlp/writer.go:214-361 | In every interleaving of Writes, Syncs, ticks and one Close: once the context is cancelled no Write is between its closed-check and its send; when `done` closes, queue and batch are empty, stay empty for ever and nothing is enqueued again; Close returns only then |
| `OtlpWriter.Conservation` | otlp/writer.go:214-319 | In every reachable state: what left the queue followed by the queue is the enqueue order; what the flush goroutine took is the resolved batches, the batch and the record in hand, in order; the drop counter, up to increments a goroutine still owes, is oversize + refused + evicted + all records of batches whose export failed + the rejection counts of accepted ones |
| `OtlpWriter.RequestBounds` | otlp/writer.go:214-282 | Every batch handed to the transport has 1 to batchSize records and its assembled request is exactly sizeFor(tagged) bytes, at most maxBytes; the queue never exceeds its capacity |
| `OtlpWriter.SyncBarrier` | otlp/writer.go:283-342 | When a Sync that handed its request over returns, every record enqueued before the call was evicted or sits, at its place in line, in a batch whose export has ended |
| `OtlpCalls.WriteAlone` | otlp/writer.go:214-251 | An uninterrupted Write: discarded uncounted after the close; counted and refused if its request alone would exceed maxBytes; enqueued if there is room; on a full queue DropNewest refuses and counts it, DropOldest counts and evicts the head and enqueues it |
| `OtlpCalls.NeverEvicts` | otlp/writer.go:229-247 | Under DropNewest nothing is evicted, in any state of any run |
| `OtlpCalls.RefusedOnlyWhenFull` | otlp/writer.go:219-247 | In any interleaving a record is refused only with the queue at capacity, at the first try under DropNewest or at the try after an eviction, one at a time and without touching the queue; one is rejected for its size only if its request alone exceeds maxBytes |
| `OtlpCalls.EvictedOnlyWhenFull` | otlp/writer.go:229-243 | Every eviction, in any interleaving, is under DropOldest, of the head of the queue, by a call that found the queue at capacity at its own first try and has only been waiting to evict since |
| `OtlpCalls.TickFlushes` | otlp/writer.go:313-314 | A tick hands an open batch over as it is, and does nothing else |
| `OtlpCalls.TakeCuts` | otlp/writer.go:271-277 | A record taken that no longer fits behind the batch makes the batch go first; otherwise it is appended |
| `OtlpCalls.AppendCuts` | otlp/writer.go:278-282 | After an append the batch goes at once exactly when it has batchSize records or its request has reached maxBytes |
| `OtlpCalls.ExportCounts` | otlp/writer.go:74-135 | The end of an export drops the whole batch on failure and the reported rejections on acceptance; the batch is done with, the queue untouched, and the goroutine goes on with the record that had to wait |
| `OtlpCalls.SyncAsks` | otlp/writer.go:326-342 | A Sync of an open writer hands its request over as soon as the goroutine selects; only a closing writer lets it go without |
| `OtlpCalls.CloseNeverStuck` | otlp/writer.go:347-361 | While Close is under way, a call holding the lock, the flush goroutine or Close itself can move |
| `Responses.ResolveAccept` | otlp/transport.go:39-71 | From the bytes of a response: the rejections and the message of the last partial success, or a malformed-response event exactly when either message is cut short |
| `Responses.OnlyRejectionsCount` | otlp/transport.go:49-71 | Records count as rejected exactly for a positive count; a malformed body or a mere message drops nothing and is reported, a clean accept is silent |
| `Responses.ServerCount` | otlp/transport.go:39-71 | A response that encodes n rejected counts n records, or none when n is negative as a signed number |
| `FinalDrain.FinalProgress` | otlp/writer.go:283-304 | In the final drain the flush goroutine always has a move, each of its moves lowers a rank, and no other goroutine can raise it |
| `FinalDrain.FinalDrainEnds` | otlp/writer.go:283-304 | From any point of the final drain the flush goroutine makes at most 10·queueSize + 14 further moves, in every interleaving |
| `FinalDrain.FinalDrainGreedy` | otlp/writer.go:265-304 | In every interleaving the batches of the final drain are exactly the greedy split of what batch and queue held when it began, hence as few as any split within both limits |
| `OtlpWriter.InvReachable` | otlp/writer.go:214-361 | The joint invariant (admission lock, shutdown order, request bounds, order, ledger, Sync promises) holds in every state of every run |
| `OtlpWriter.StoppedStep` | otlp/writer.go:347-361 | After the flush goroutine has stopped, no step of anyone enqueues a record or fills the batch |
| `OtlpWriter.AppendFits` | otlp/writer.go:271-282 | After the cut-before-add test, appending an admitted record keeps both limits; this is where the Write-time size guard is needed |
| `Ledger.SettledRecord` | otlp/writer.go:326-342 | A record counted as settled and not evicted stands in the ended batches at the number of records taken before it |
| `Batching.Flusher.Flush` | otlp/writer.go:265-270 | Hands over the batch, if any, unchanged and in order, and leaves it empty |
| `Batching.Flusher.Add` | otlp/writer.go:271-282 | Adding a record extends the requests already cut so that requests plus greedy split of what remains is the greedy split of everything |
| `Batching.Flusher.DrainQueued` | otlp/writer.go:283-294 | Draining the queue hands over exactly the greedy split of batch and queue, in order |
| `Batching.GreedyFeasible` | otlp/writer.go:271-282 | The greedy split contains every record once, in order, and every request respects both limits |
| `Batching.GreedyOptimal` | otlp/writer.go:265-294 | No order-preserving split of the queue that respects batchSize and maxBytes has fewer requests |
| `Batching.FitsSubsegment` | otlp/envelope.go:37-59 | Every part of a feasible run of records is feasible |
| `Retry.Export` | otlp/writer.go:86-157 | The retry loop returns the report of its specification; the whole batch counts as dropped exactly when it is lost, else the rejected records; an empty batch is not exported |
| `Retry.ExportMeaning` | otlp/writer.go:86-157 | Attempt by attempt, for any receiver: a first attempt exactly for a batch that is not empty, can be prepared and is in time; a next one exactly after a retryable refusal, with retry allowed, nothing cancelled, and the pause ending within the deadline; delivered with k rejected if and only if the last attempt was accepted with k rejected, otherwise lost |
| `Retry.DelayDoubles` | otlp/writer.go:151-156 | The delay before pause k is initial times 2^k, capped at MaxInterval, and never zero |
| `Retry.TerminationExact` | otlp/writer.go:119-157 | The loop ends for every receiver, jitter and cancellation if and only if MaxInterval is at least 2 ns, or attempts take at least 1 ns, or retry is off |
| `Retry.LoopEnds` | otlp/writer.go:119-157 | Under that condition the loop ends within the remaining budget plus two turns, whatever the receiver does |
| `Retry.StuckFromStart` | otlp/writer.go:135-156 | Without it there is a receiver, answering in no time, with which the loop is still going after any number of turns |
| `Retry.BackoffRange` | otlp/writer.go:136-139 | The pause is the Retry-After, or lies between half the delay and the delay |
| `Retry.ExportBounds` | otlp/writer.go:86-157 | No attempt once the drain deadline has passed, none starts after the deadline, the end is within deadline plus one timeout, one attempt at most without retry |
| `Retry.DrainBounded` | otlp/writer.go:283-302 | A bounded drain over any number of batches starts no attempt after its deadline and ends within the deadline plus one attempt timeout |
| `Retry.CloseDrainBounded` | otlp/options.go:373-384 | Close's drain takes at most drainTimeout plus one attempt timeout and one attempt per batch |
| `RootAsync.ShutdownSafety` | writer.go:175-199 | After the barrier no write is between closed-check and send; when Close returns the flush goroutine has stopped, and queue and batch are empty for ever |
| `RootAsync.Conservation` | writer.go:365-509 | Every payload encoded past the first closed-check is in exactly one of: carried, late, refused, evicted, queued, in the batch, in an ended frame; order is kept; the drop counter counts exactly late + refused + evicted + payloads of lost frames, up to increments still owed |
| `RootAsync.FrameBounds` | writer.go:431-509 | Every frame carries 1 to batchSize payloads, and the queue never exceeds its capacity |
| `RootAsync.SyncBarrier` | writer.go:417-492 | When a Sync that handed its request over returns, every payload enqueued before the call was evicted or belongs to a frame written or lost |
| `RootCalls.WriteAlone` | writer.go:365-410 | An uninterrupted async Write: late and counted after the close; enqueued if there is room; on a full queue DropNewest refuses and counts it, DropOldest counts and evicts the head and enqueues it |
| `RootCalls.NeverEvicts` | writer.go:389-410 | Under DropNewest nothing is evicted, in any state of any run |
| `RootCalls.RefusedOnlyWhenFull` | writer.go:365-410 | In any interleaving a payload is refused only with the queue at capacity, at the first try under DropNewest or at the try after an eviction, and is late only after the close |
| `RootCalls.EvictedOnlyWhenFull` | writer.go:389-410 | Every eviction is under DropOldest, of the head, by a call that found the queue at capacity at its own first try |
| `RootCalls.DrainAlone` | writer.go:438-492 | A drain tops the batch up from the queue, in order, to batchSize; then a tick writes any batch, a payload only a full one, and a flush of everything goes on until the batch stays empty |
| `RootCalls.WriteCounts` | writer.go:495-509 | A frame written drops nothing, a lost one all its payloads |
| `RootCalls.SyncAsks` | writer.go:417-429 | A Sync of an open writer hands its request over as soon as the goroutine selects; only a closing writer lets it go without |
| `RootCalls.CloseNeverStuck` | writer.go:175-199 | While Close is under way, a call holding the lock, the flush goroutine or Close itself can move |
| `FinalFlush.FinalProgress` | writer.go:481-509 | In the final flush the flush goroutine always has a move, each of its moves lowers a rank, and no other goroutine can raise it |
| `FinalFlush.FinalFlushEnds` | writer.go:465-509 | From any point of the final flush at most 5·bufferSize + 4·batchSize + 5 further moves, in every interleaving |
| `FinalFlush.FinalFlushFrames` | writer.go:465-509 | In every interleaving the frames of the final flush are exactly what batch and queue held when it began, in order, in pieces of batchSize |
| `RootAsync.InvReachable` | writer.go:365-509 | The joint invariant of the asynchronous writer holds in every state of every run |
| `RootConn.ConnectionOwnership` | writer.go:175-354 | In every reachable state a dialed connection is installed, or in exactly one goroutine's hands, or closed, never two of these, and closed at most once |
| `RootConn.NothingInstalledAfterClose` | writer.go:175-199 | After Close's critical section no connection is ever installed again |
| `RootConn.NoLeak` | writer.go:316-354 | Once Close, the loop and all writes have returned, every dialed connection was closed exactly once |
| `ConnCalls.NoLostWakeUp` | writer.go:263-314 | While open and without a connection: a token is pending, a trigger is about to be sent, the loop will still look or is in a burst, or else the last burst made exactly maxRetries attempts, counted in the run, which all failed, and since then nothing was installed and no burst begun |
| `ConnCalls.BurstEnds` | writer.go:286-313 | In any interleaving a reconnect burst ends because the writer is done, or with its new connection installed, or after exactly maxRetries failed attempts |
| `ConnCalls.TokenWakes` | writer.go:280-296 | A token makes the loop look, and start a burst exactly if there is no connection |
| `ConnCalls.DialInstalls` | writer.go:316-337 | A dial that succeeds while the writer is open installs the dialed connection and closes nothing |
| `ConnCalls.NoConnTriggers` | writer.go:222-229 | A write without a connection asks for one and changes nothing else |
| `ConnCalls.GoodWriteKeeps` | writer.go:222-245 | A write that succeeds leaves connection, token and closes as they are |
| `ConnCalls.BadWriteDiscards` | writer.go:341-354 | A write that fails leaves no connection installed, its own closed once more and a token pending |
| `ConnCalls.StaleFailureIgnored` | writer.go:341-354 | A failure on a connection that was replaced meanwhile leaves the replacement alone |
| `RootConn.NeverDisplaces` | writer.go:316-337 | tryConnect never replaces a live connection |
| `RootConn.OnlyDialedClosed` | writer.go:316-354 | Nothing that was never dialed is installed or closed |
| `RootConn.OwnStep` | writer.go:316-354 | Dialing, installing, taking out and closing move a connection between places without ever putting it in two |
| `FrameStack.EncState.AddEntry` | otlp/attr.go:124-148 | The named frame grows by exactly the tagged entry; every other frame is untouched |
| `FrameStack.EncState.AddRoot` | otlp/attr.go:313-321 | The entry lands in the root frame whatever namespaces are open |
| `FrameStack.AppendSealed` | otlp/attr.go:195-221 | With every length computed first, the bytes equal the nested tagged encoding |
| `FrameStack.EncState.SealTop` | otlp/attr.go:195-221 | The top container becomes one entry of the frame below |
| `FrameStack.EncState.SealDownTo` | otlp/attr.go:325-329 | Seals exactly the frames above the given depth |
| `FrameStack.EncState.Rollback` | otlp/attr.go:104-112 | Drops the frames above the snapshot and cuts its frame back |
| `FrameStack.RollbackExact` | otlp/attr.go:97-112 | After anything a marshaler can do, rolling back restores the stack exactly, all bytes included |
| `FrameStack.EncState.AddObject` | otlp/attr.go:274-290 | Adds exactly the recursive serialization of the object, unclosed namespaces closed; a failure or the depth cap leaves the stack as before; terminates for endless nesting |
| `FrameStack.EncState.AddArray` | otlp/attr.go:292-309 | The same for arrays |
| `FrameStack.EncState.ExecArray` | otlp/attr.go:397-450 | One array call adds exactly its element, or nothing when it fails |
| `FrameStack.EncState.RunObject` | otlp/attr.go:274-290 | A marshaler leaves exactly its levels on the stack, or stops with its error having only grown it |
| `FrameStack.NestDelta` | otlp/attr.go:224-228 | Closing the namespaces a marshaler left open gives its recursive meaning |
| `FrameStack.SealPushed` | otlp/attr.go:224-228 | Sealing everything above a frame adds exactly the nested entries to it |
| `Encoder.Placement` | otlp/encoder.go:63-98 | The root order is With, metadata, root call fields, trace attributes, then the sealed namespace; call fields go into the innermost open namespace |
| `EncoderLaws.RecordRead` | otlp/encoder.go:100-138 | What a scanner finds in the bytes of any record, number by number: times, clamped severity, level text, body, the attributes in order, flags and ids of a valid trace, each under its condition and once, and no other field |
| `EncoderLaws.ScalarLands` | otlp/encoder.go:153-167 | Every plain field, wherever in the list, has exactly its entry in the level that was innermost at its turn, right behind what that level had |
| `EncoderLaws.ScalarLaw` | otlp/encoder.go:153-167 | A plain field adds its entry to the innermost level and nothing else, and leaves the trace alone |
| `EncoderLaws.NamespaceLaw` | otlp/encoder.go:153-167 | A namespace opens one empty level; a span context replaces the trace and adds nothing |
| `EncoderLaws.ContainerLaw` | otlp/encoder.go:153-167 | An object, array or reflected field adds exactly one entry: the value its marshaler builds one level deeper, or its error; from depth 1000 on the depth error |
| `EncoderLaws.InlineLaw` | otlp/encoder.go:153-167 | An inline field only adds, from the innermost level on, levels whose closing is what its marshaler builds there, or, having failed, exactly its error entry |
| `EncoderLaws.FieldsProlong` | otlp/encoder.go:79-86 | Later fields only add behind what earlier ones put down |
| `EncoderLaws.NestedObjectIs` | otlp/attr.go:274-290 | A nested object is refused from 1000 open containers on, and otherwise is what its marshaler builds one level deeper |
| `EncoderLaws.NestedArrayIs` | otlp/attr.go:292-309 | The same for arrays |
| `EncoderLaws.ContainerCalls` | otlp/attr.go:274-309 | Inside a marshaler: a container adds its value, or nothing when it failed, and ends the marshaler if that returns the error; the trace met inside stays |
| `EncoderLaws.NamespaceCall` | otlp/attr.go:272-290 | Inside a marshaler: a namespace takes in everything that follows |
| `EncoderLaws.ElementCalls` | otlp/attr.go:365-450 | Array marshalers add their scalars and texts in order and stop at an error |
| `EncoderLaws.MetaExact` | otlp/encoder.go:170-187 | The metadata attributes: logger name, function, file, line and stack, in this order, each under its condition with its value |
| `EncoderLaws.TraceExact` | otlp/encoder.go:87-98 | The hex ids of the trace, if asked for and valid |
| `EncoderLaws.ResourceExact` | otlp/envelope.go:11-34 | The resource begins with the service name, and is only that without resource fields |
| `Encoder.LastTraceWins` | otlp/encoder.go:68-86 | A span context field makes everything before it irrelevant for the record's trace |
| `Traces.LastSeenWins` | otlp/encoder.go:68-86 | For every list of fields: what is built does not depend on the trace, and the trace is the last of all span contexts met in order of execution, in nested and in failed marshalers too, or else the stashed one |
| `Traces.RunSink` | otlp/attr.go:331-340 | The same for one marshaler at any depth: its result does not depend on the sink, which ends up with the last context it met |
| `Traces.RecordTrace` | otlp/encoder.go:63-98 | The trace of a record is the last context its call-site fields met, else the stash of With |
| `Traces.QuietFields` | otlp/encoder.go:79-86 | Fields of any kind whose marshalers hand over no span context keep the trace that was there |
| `Encoder.ApplyField` | otlp/encoder.go:153-167 | Every field, inline ones included, adds its levels or, having failed, only its error entry |
| `Encoder.AddAllAtRoot` | otlp/encoder.go:170-187 | Metadata is added to the root level, whatever is open |
| `Encoder.OtlpEncoder.EncodeAttributes` | otlp/encoder.go:63-98 | The sealed root frame is the serialization of the closed record tree, and the trace is the last one seen |
| `Encoder.OtlpEncoder.EncodeEntry` | otlp/encoder.go:100-143 | The record bytes are the schema encoding of the LogRecord; the receiver is not changed |
| `Encoder.OtlpEncoder.With` | otlp/encoder.go:54-61 | A clone with more fields; the receiver is not changed |
| `Encoder.NewEnvelope` | otlp/envelope.go:11-34 | The resource blob is the serialization of service name and resource fields with namespaces closed; the scope blob holds the non-empty name and version |
| `Buffers.Isolation` | otlp/attr.go:76-112 | Over every run of clone, append, seal, rollback, free and pool reuse, an encoder holds exactly what its own actions would build from values |
| `Buffers.LiveBuffersDisjoint` | fluent/msgpack_encoder.go:357-388 | No two live frames share a buffer, no live frame's buffer lies in the pool, and no buffer lies there twice |
| `Buffers.CloneExact` | otlp/attr.go:79-88 | A clone made while others act ends up equal to the original, which it does not change |
| `Buffers.ViewStep` | fluent/msgpack_encoder.go:86-99 | One action changes the acting encoder's contents as if buffers were values and nobody else's |
| `Buffers.OtlpSealExact` | otlp/attr.go:195-221 | Sealing pooled frames, in whatever pieces and with others acting in between, gives the sealed stack of the OTLP encoder model |
| `Buffers.OtlpRollbackExact` | otlp/attr.go:104-112 | Rolling pooled frames back gives the rolled-back stack of that model |
| `Buffers.MsgSealExact` | fluent/msgpack_encoder.go:86-99 | Sealing a pooled MessagePack frame gives the sealed stack of that encoder model |
| `Buffers.FreeExact` | fluent/msgpack_encoder.go:381-388 | Freeing gives every buffer back and leaves no frame |
| `Wire.AppendUvarint` | otlp/proto.go:13-20 | Appends the base-128 varint of the value |
| `Wire.UvarintLenExact` | otlp/proto.go:23-25 | uvarintLen is the exact encoded length |
| `Wire.VarintRoundTrip` | otlp/proto.go:13-20 | Decoding undoes appendUvarint for every uint64, whatever follows |
| `Wire.ScanEncoded` | otlp/proto.go:89-215 | The reference parser recovers every encodable field list |
| `Wire.FindField` | otlp/proto.go:89-128 | Last length-delimited occurrence by the reference parser; an error exactly when any field is cut short |
| `Wire.FindVarint` | otlp/proto.go:131-170 | Last varint occurrence or 0; the same error condition |
| `Wire.ForEachLenField` | otlp/proto.go:176-215 | Visits the payloads in order up to the first refusal; fails exactly when it meets a truncation before one |
| `Wire.DecodePartialSuccess` | otlp/proto.go:70-87 | The last rejection count and message inside the last partial_success; an error exactly when either message is cut short |
| `Wire.PartialSuccessRoundTrip` | otlp/proto.go:70-87 | Any partial_success message is read back exactly |
| `Truncation.CutDetected` | otlp/proto.go:89-215 | A message cut at any byte: the scan has read exactly the whole fields before the cut, and passes for complete exactly when the cut lies between two fields |
| `Truncation.UnknownWireType` | otlp/proto.go:89-215 | A wire type 3, 4, 6 or 7 is an error, whatever well-formed fields stand before it |
| `Envelope.SizeForExact` | otlp/envelope.go:37-59 | sizeFor is the exact length of the assembled request |
| `Envelope.SizeForStrict` | otlp/envelope.go:53-59 | sizeFor is strictly monotone |
| `Envelope.Assemble` | otlp/envelope.go:63-85 | Appends the schema encoding of the request, sizeFor bytes long |
| `Envelope.RequestScan` | otlp/envelope.go:63-85 | The scanner reads every level of an assembled request completely |
| `Envelope.RequestRecovered` | otlp/envelope.go:63-85 | The field scanners recover the resource, the scope and exactly the record list in order |
| `JsonString.AppendJsonString` | otlp/json.go:317-355 | Appends the escaped string: shortest escapes, control bytes as \u00XX, each invalid byte as U+FFFD |
| `JsonString.StringRoundTrip` | otlp/json.go:317-355 | An RFC 8259 reader gives back the string with invalid bytes replaced, and stops at the closing quote; a raw control byte or quote would make it fail |
| `JsonString.ValidRoundTrip` | otlp/json.go:317-355 | It gives back the original exactly when that was valid UTF-8 |
| `JsonString.ValidExact` | otlp/json.go:317-355 | What the writer lets through unchanged is exactly the UTF-8 encodings of sequences of Unicode characters, surrogates and overlong forms excluded |
| `JsonString.SanitizeValid` | otlp/json.go:317-355 | What is read back is always valid UTF-8 |
| `Text.DecimalRoundTrip` | otlp/json.go:273-286 | Printed decimal numbers are read back exactly |
| `Text.DecimalIntRoundTrip` | otlp/json.go:278-282 | Signed numbers are read back exactly |
| `Text.HexRoundTrip` | otlp/json.go:264-267 | Hex text is read back exactly |
| `Text.Base64RoundTrip` | otlp/json.go:269-272 | Base64 text is read back exactly |
| `Text.Alphabets` | otlp/json.go:264-272 | Hex digits are lower case; base64 has the standard alphabet |
| `Json.DoubleText` | otlp/json.go:296-306 | By sign, exponent and mantissa: all exponent bits set is the string NaN for any mantissa but zero, else Infinity with its sign; every other double is printed as a number |
| `Json.Punctuation` | otlp/json.go:237-258 | Objects and lists as JSON writes them: braces or brackets around comma-separated parts, quoted names before a colon |
| `JsonString.PlainQuoted` | otlp/json.go:317-355 | Printable text without quote and backslash is written as it is between quotes |
| `JsonString.EscapeTable` | otlp/json.go:317-355 | The short escapes, and \u00 with two hex digits for every other control byte |
| `Json.TakeOne` | otlp/json.go:178-221 | One turn of the scan, check by check and wire type by wire type: the typed field and the rest, or the first error |
| `Json.ScanFields` | otlp/json.go:173-236 | Scans a message in order, grouping fields by number; the first error in scan order, else all fields grouped, numbers in order of first appearance |
| `Json.AppendMsgJson` | otlp/json.go:173-258 | Both phases, repeated fields as lists, of others the last occurrence; terminates because every payload is shorter than its message |
| `Json.AppendValue` | otlp/json.go:260-311 | One value by its kind, nested messages by recursion |
| `Json.Commutes` | otlp/json.go:173-311 | For every typed field tree, fields in any order and repeated at will, transcoding its bytes takes no error branch and equals printing the tree |
| `JsonErrors.TranscodesExactly` | otlp/json.go:173-311 | For every byte string: transcoding succeeds if and only if the message parses to its end, holds only fields of the schema with their wire types, and so does every nested message that is printed |
| `JsonErrors.ScanTypedExact` | otlp/json.go:178-236 | One message is scanned if and only if the reference parser reads it to its end and every field is of the schema, and then into the same fields |
| `Json.ScanTypedEncoded` | otlp/json.go:173-236 | The typed scanner accepts and recovers every typed field list |
| `Transcoding.ValueTranscodes` | otlp/attr.go:153-188 | Every attribute value, however nested, transcodes to its OTLP/JSON text, written out member by member |
| `Transcoding.SlotsPrint` | otlp/json.go:237-258 | A message of optional fields prints exactly its present members, in order |
| `Transcoding.ValueTreeBytes` | otlp/attr.go:153-188 | The tree of a value has the value's bytes |
| `RequestJson.RecordTranscodes` | otlp/encoder.go:100-138 | The bytes of a log record transcode to its nine optional members, zero values and an invalid trace left out |
| `RequestJson.RequestTranscodes` | otlp/json.go:165-171 | For every resource, scope and record list the assembled request transcodes, without error, to the OTLP/JSON text of that request |
| `MsgPack.RoundTrip` | fluent/msgpack_array.go:16-54 | Decoding an encoded value gives the value and leaves exactly what followed it |
| `MsgPack.RoundTripExact` | fluent/msgpack_encoder.go:390-398 | It does so if and only if every length and count fits 32 bits |
| `MsgPack.FormReadable` | fluent/msgpack_encoder.go:395-420 | Every header form the encoders pick is one the format table reads back |
| `MsgPack.HeadShortest` | fluent/msgpack_encoder.go:395-420 | No header that reads as the same value is shorter than the one chosen |
| `MsgPack.ShortIsSmall` | fluent/msgpack_encoder.go:390-398 | Below 4 GiB no count or length can have been truncated to 32 bits |
| `MsgPack.SplitConcat` | fluent/framer.go:44-48 | Cutting a stream of values at value boundaries gives back the values' bytes |
| `FluentEncoder.MsgEncoder.AddKey` | fluent/msgpack_encoder.go:77-81 | A settled map frame becomes one pending pair with its key, counted once |
| `FluentEncoder.MsgEncoder.AppendValue` | fluent/msgpack_array.go:16-54 | A value completes the pending pair, or is one counted element |
| `FluentEncoder.MsgEncoder.AppendHooked` | fluent/msgpack_array.go:119-141 | The frame gains whatever the hook wrote, or the fallback if it wrote nothing; the count invariant is kept in an array always, in a map for one value |
| `FluentEncoder.HookExact` | fluent/msgpack_array.go:119-141 | In a map the frame is the frame of some map if and only if exactly one value was written |
| `FluentEncoder.MsgEncoder.SealDownTo` | fluent/msgpack_encoder.go:86-99 | Each sealed frame becomes one value of the frame below; the count invariant is kept |
| `FluentEncoder.MsgEncoder.OpenNamespace` | fluent/msgpack_encoder.go:101-104 | One pending pair and an empty map above it |
| `FluentEncoder.MsgEncoder.AppendObject` | fluent/msgpack_array.go:147-162 | One value equal to what the marshaler wrote, failing or not; nothing at the depth cap; terminates for endless nesting |
| `FluentEncoder.MsgEncoder.AppendArray` | fluent/msgpack_array.go:167-182 | The same for arrays |
| `FluentEncoder.MsgEncoder.AddObject` | fluent/msgpack_encoder.go:284-295 | A whole pair, or at the depth cap nothing at all |
| `FluentEncoder.MsgEncoder.AddArray` | fluent/msgpack_encoder.go:297-304 | The same for arrays |
| `FluentEncoder.MsgEncoder.RunObject` | fluent/msgpack_array.go:147-162 | A marshaler leaves exactly its levels, also when it fails half way |
| `FluentEncoder.NestDelta` | fluent/msgpack_array.go:143-162 | Closing the namespaces a marshaler left open gives its recursive meaning |
| `FluentEncoder.SealPushed` | fluent/msgpack_encoder.go:86-99 | Sealing everything above a map adds exactly the nested pairs to it |
| `FluentEncoder.ShapeSealed` | fluent/msgpack_encoder.go:86-99 | A settled frame's count and contents are the encoding of its container |
| `FluentEntry.WriteEnvelope` | fluent/msgpack_encoder.go:184-246 | The envelope members in order, each key with exactly one value, hook or fallback |
| `FluentLaws.EntryExact` | fluent/msgpack_encoder.go:131-246 | The value of an entry: EventTime and one map holding exactly level, logger name, caller, function, message and stack, in this order, each under its condition, with the hook's value or the fallback, then the fields |
| `FluentLaws.EnvelopeByKey` | fluent/msgpack_encoder.go:184-246 | With distinct configured keys, what a reader finds under each: the message always; stack and logger name if not empty; caller and function if the caller is defined; the level if it has a hook |
| `FluentLaws.ScalarLands` | fluent/msgpack_encoder.go:144-146 | Every plain field, wherever in the list, has its pair in the level that was innermost at its turn, behind what was there |
| `FluentLaws.ScalarLaw` | fluent/msgpack_encoder.go:250-280 | A plain field adds its pair and nothing else, a hooked one its key with the hook's value or the fallback |
| `FluentLaws.NamespaceLaw` | fluent/msgpack_encoder.go:101-104 | A namespace opens one empty level |
| `FluentLaws.ContainerLaw` | fluent/msgpack_encoder.go:284-304 | An object or array field adds what its marshaler wrote, also half of it, then its error; at the depth cap only the error |
| `FluentLaws.InlineLaw` | fluent/msgpack_encoder.go:144-146 | An inline field adds levels whose closing is what its marshaler wrote, and its error in the namespace left innermost |
| `FluentLaws.FieldsProlong` | fluent/msgpack_encoder.go:144-146 | Later fields only add behind what earlier ones put down |
| `FluentLaws.NestedObjectIs` | fluent/msgpack_array.go:147-162 | A nested object is refused from 1000 open containers on, and otherwise holds what its marshaler wrote, with its error |
| `FluentLaws.ContainerCalls` | fluent/msgpack_encoder.go:284-304 | Inside a marshaler: a container adds its pair even when it failed, and ends the marshaler if that returns the error |
| `FluentLaws.ElementCalls` | fluent/msgpack_array.go:16-145 | Array marshalers write their elements in order, a hook any number of them, and stop at an error |
| `FluentEntry.AddTo` | fluent/msgpack_encoder.go:144-146 | One field adds its levels; a failed one keeps what it wrote and adds its error member |
| `FluentEntry.AppendMapHeaderTo` | fluent/msgpack_encoder.go:405-420 | The same header bytes as the msgp map header |
| `FluentEntry.EncodeEntry` | fluent/msgpack_encoder.go:131-177 | The output is exactly the encoding of [EventTime, record]; the receiver is only read |
| `FluentEntry.EntryWellFormed` | fluent/msgpack_encoder.go:131-177 | The output decodes to exactly one [EventTime, map] with nothing left over, whatever the marshalers did, if and only if every length and count fits 32 bits, as they do below 4 GiB |
| `FluentEntry.Placement` | fluent/msgpack_encoder.go:131-171 | Envelope members always at the record root; every With level as it was but the innermost open one, which the call fields follow; each level nested in the one above |
| `FluentEntry.With` | fluent/msgpack_encoder.go:111-128 | A clone with more fields; the receiver is not changed |
| `FluentEntry.EventTimeRoundTrip` | fluent/proto.go:57-84 | Nanoseconds are read back always, seconds exactly when they fit 32 bits |
| `FluentFramer.Frame` | fluent/framer.go:34-68 | Refuses a batch exactly when its bytes exceed 2^32-1, else appends the encoded message |
| `FluentFramer.AppendBinHeader` | fluent/framer.go:79-88 | The bin8, bin16 or bin32 header |
| `FluentFramer.FrameDecodes` | fluent/framer.go:34-53 | A receiver decodes the three-element message of tag, bin and a size map with the entry count, and the next frame follows directly, if and only if the tag is shorter than 4 GiB; cutting the bin at value boundaries gives exactly the payload list |

## Left out

- Sockets, dialing, TLS, HTTP/2, gzip, headers and gRPC status tables: an attempt, a dial or a write has any outcome.
- Callbacks that call back into the writer (`errFn`, `onError` calling Close or Sync): the callbacks do nothing here.
- The contents of server responses beyond the partial_success message, and responses in JSON mode; rejection counts are taken as reported and may exceed the batch.
- Finite floating-point text, time codecs, complex numbers, `json.Marshal` reflection tiers and `normalizeNumber`: bytes handed in.
- zap's width adaptors, and the decimal string used for unsigned values above the int64 range: an operation adds any scalar.
- zap's error fields with causes and verbose text: expressible as several operations, not spelled out.
- syslog, NDJSON, passthrough, the fluent time codec, options, endpoint resolution, generated code: thin or easy.
- Counter wrap-around at 2^64, and the starvation rule of Go's RWMutex (a waiting writer blocks new readers): the models allow more interleavings than Go does.
- Ticks and timers: they may fire whenever their select is reached.
- Termination of a Sync drain while others keep writing: the code does not bound it; the final drain is bounded once intake is closed.
- Synchronous mode of the root writer beyond the connection: one write of one frame.
- The frame order inside `free`: `Buffers` gives the buffers back from the top of the stack down, the code from the bottom up, on a state nobody uses any more.
- Scratch buffers, which are private to one encoder, and the output buffer copied from the record.
- Export: is stated for the configurations in which the loop ends (`Retry.TerminationExact` gives the exact condition); doubling the delay does not overflow, which the code relies on delays below 2^62 ns for.
- AddHooked fields: a hook called for the value of a pair writes at most one value there (`FluentEncoder.HookExact` says what more would do); the code does not check this.
- RequestTranscodes: the request is shorter than 2^64 bytes; so are the requests of the other protobuf round trips.
