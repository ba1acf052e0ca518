# Verified model of the log aggregator's delivery and query paths

This project models, in Dafny, how a log line travels from a tailed file to the hypertable, and how a
query is answered over several collectors, and proves what that code promises. Nothing in it runs the
original program.

Code that updates objects in place is a class or a method with loops (`SpoolFiles.SpoolDir`,
`Shipper.Agent`, `Lru.Cache`, `WriterWorker`, `Lines.LineAssembler`, `Rotation.TailSource`,
`Joiner.JoinLoop`, the ring, the mergers, the compilers). Each method is proved equal to a function on
values, and the theorems are proved of those functions: over every run, every interleaving of steps,
every crash point and every schedule of polls.

| part | modules |
|---|---|
| Spool: a segmented FIFO on disk, its crashes and restarts | `Frames`, `SpoolQueue`, `SpoolDisk`, `SpoolCrash`, `SpoolRetry` (deaths during recovery), `SpoolLife`, `SpoolFiles` |
| Shipper: the agent's delivery protocol | `ShipperModel` (steps), `ShipperMoves` (steps taken apart), `ShipperLive`, `ShipperStructure`, `ShipperLedger`, `ShipperReplay`, `ShipperOrder`, `ShipperGap`, `ShipperCheckpoint`, `ShipperOrigin`, `ShipperAcks` (what one ack does), `ShipperProgress` (the checkpoint catches up), `ShipperBatches` (sizes and deadlines), `ShipperBackoff`, `ShipperExamples`, `Shipper` (the class) |
| Agent and collector composed over two FIFO channels | `Collector`, `Wire`, `WireExamples` |
| Queue consumer, writer pool, stream cache, LRU | `Writer`, `WriterSafety`, `WriterEnds` (how messages end, what is stored), `WriterShutdown`, `WriterStop`, `WriterWorker`, `WriterRetries`, `Lru` |
| Tailing, rotation, restart, line assembly, multiline | `Lines`, `Tail`, `Rotation`, `Restart`, `Multiline`, `Joiner`, `Intake` (all sources through one joiner) |
| Files, joiner, shipper and checkpoint composed, and what a restart reads | `Pipeline`, `PipelineSettled`, `PipelineExamples` |
| Hash ring and query fan-out | `Ring`, `GroupOrder`, `Aggregation`, `PointKeys`, `MergePoints`, `MergeRecords`, `Coordinator` |
| Planner, live tail, label encoding | `Planner`, `SourceChoice`, `Matcher`, `Labels` |
| Shared | `Prelude`, `Sequences`, `Sorting` |

In the shipper theorems a line is its ordinal of arrival. `State.log` is a ledger that no step reads:
it records which lines were accepted, dropped, evicted or released. `Run` applies a sequence of events;
`Play` applies the smaller moves that every event, and the shutdown, is proved to consist of, so a
statement about `Reachable` states holds at every moment inside an event too. `Config.Lossless` says
that a batch whose encoding fits a spool entry can be read back; `ShipperExamples.SampleIsLossless`
gives a configuration for which it holds.

## Findings

Promises that the code does not keep on every input. Each has the input, and the exact condition under
which the promise holds.

| promise | where it fails | input | exact condition |
|---|---|---|---|
| A checkpoint is never past a line that is only in memory (internal/agent/shipper.go:670-698) | flushing an accumulator that holds no records advances the checkpoint without looking at outstanding batches (684-688) | `ShipperExamples.EarlySkipLosesALine`: the line is neither held nor read again after a crash | `ShipperGap.AlwaysProtectedIff`: no such flush moves the cursor of a source with a line in an outstanding fresh batch. `ShipperGap.ShippableOnDiskOrAhead`: never, if every line with labels can be shipped |
| What was read but not acknowledged is read again on restart (internal/agent/checkpoint.go:39-42) | a line of a rotated generation may still be in memory; the next process opens only the path, finds another file there and starts at its first byte (internal/agent/tailfile.go:196-208) | `PipelineExamples.RotationLosesALine`: one line, read, then rotated away before it is spooled | `Pipeline.RestartLosesIff`: the line is lost if and only if it is not stored and its generation is not the newest. `Pipeline.UnrotatedLosesNothing`: never, without a rotation |
| Replay order is send order (internal/agent/shipper.go:520-526) | a full window sends a younger batch to the spool (751); a demotion appends older ones behind it (533-537) | `ShipperExamples.OverflowReorders` | `ShipperOrder.FlushOrderIff`: no fresh batch is demoted while the spool holds one |
| `Release` drops the batch that was answered (internal/agent/shipper.go:848-851) | the replayed batch may have been evicted while it was outstanding | `ShipperExamples.EvictionMisreleases`: an unsent line is dropped without being counted | `ShipperReplay.OnePlaceIff`: no ack is taken for a replayed batch that is no longer the spool's front |
| An ack belongs to the oldest outstanding batch (internal/agent/shipper.go:821-824) | a demotion leaves acks of the demoted batches on an open stream, and the next sends meet them | `WireExamples.StrayAckLosesABatch`: a batch nobody stored is credited and dropped | `Wire.AcksMatchIff`: no ack meets a waiting batch while acks are owed for demoted ones. `Wire.WindowOfOneIsCalm`: always so with an ack window of one |
| A crash replays at most `cursorDurableInterval-1` released entries (internal/agent/spool.go:70-79) | the counter starts at zero in every process (183), so releases of several processes add up | `SpoolLife.FourteenReplayed`: fourteen entries replayed after one crash and one power failure | `SpoolLife.BoundHoldsIff`: fewer than eight releases from the oldest segment returned since the cursor was last durable, earlier processes included. `SpoolLife.OneProcessKeepsTheBound` |
| A point's key identifies its bucket and group (internal/cluster/coordinator.go:296-310) | a label value may hold the bytes 0 and 1 that the key uses as marks | `PointKeys.Collisions`: a pair of groups for two labels, and one for three; `PointKeys.AroundCollide`: with the level among the labels | `PointKeys.QueryKeysIff`, for the groups that a query returns: at most one by label besides the level, or no value holds byte 1. `PointKeys.PointKeyInjectiveIff`, for the key function on any values: at most one by label; or two, and no value holds byte 1; or no value holds byte 0 or 1 |
| `snap` rounds down (internal/query/plan.go:220-223) | `Truncate` rounds toward zero, so up before `bucketOrigin` | `Planner.EarlyRequestMissesARow`: a row of the request is outside the widened range | `Planner.WidenIff`: both ends at or after `bucketOrigin`, or on boundaries |
| A line that has not seen its terminator is held (internal/agent/tailfile.go:356-361) | a fragment of `MaxMessageLen` bytes is emitted, so where its line is cut depends on when the file was polled | `Tail.PollCutsALongLine` | `Tail.TwoPollsIff`: the first poll does not end in such a fragment. `Tail.EverySchedule`: never, if lines are shorter |
| The final drain of a rotated file loses nothing (internal/agent/tailfile.go:356-361) | a last fragment of one carriage return is trimmed to nothing and not emitted | `Tail.LoneReturnIsLeft` | `Tail.DrainCoversIff`: what follows the last newline is not a lone carriage return |
| `Close` fails every shipment left behind (internal/storage/writer.go:316-319) | a `Submit` in its select may still win the send after the final drain | `WriterShutdown.RaceLosesAnAck` | `WriterShutdown.AllEndedIff`: no `Submit` sends after the drain. `WriterShutdown.OrderlyShutdownEndsAll`: never, in the order that cmd/collector shuts down in |
| Stop waits for handlers in `Submit` to queue their batches (internal/ingest/consumer.go:118-128) | the workers run on the context that the signal cancels (cmd/collector/main.go:192), so they may have left before; a full channel then has no reader | `WriterStop.SignalStrandsASubmit` | `WriterStop.StopEndsIff`: the wait can end before the writer is closed if and only if every `Submit` to come finds a place in the channel |

## Model

| member | source | states |
|---|---|---|
| Frames.ScanEntries | internal/agent/spool.go:730-776 | the scan stops at the first entry that is cut short, oversized or fails its checksum, and reports how many whole entries precede it and their bytes; nothing past the limit is read |
| Frames.EntryAtWhole | internal/agent/spool.go:705-711 | round trip: an encoded entry is read back wherever it stands in a file, whatever is before and after it |
| Frames.EntryAtIsEncoded | internal/agent/spool.go:730-776 | converse: whatever is read at an offset is exactly the encoding of its payload |
| Frames.EntryAtTorn | internal/agent/spool.go:713-729 | a proper prefix of an encoded entry at the end of a file is not an entry, at whatever byte the write was cut |
| Frames.EntriesOfTornFile | internal/agent/spool.go:713-776 | a segment of whole entries with a torn last write reads as exactly the whole entries |
| Frames.BigEndian | internal/agent/spool.go:705-711 | the framing's four-byte length is a fixed-width, injective encoding, so the framing's assumptions can be met |
| SpoolQueue.AppendRefines | internal/agent/spool.go:379-413 | Append is a FIFO's: the payload goes to the tail, exactly the evicted count leaves the front, and the limits hold afterwards |
| SpoolQueue.EvictDropsFront | internal/agent/spool.go:476-489 | eviction removes a prefix of the unreleased entries, counts just those, keeps the newest segment, and ends within the byte bound or with one segment |
| SpoolQueue.EvictsTheFewest | internal/agent/spool.go:476-489 | eviction drops no segment more than it must: every longer rest is over the bound, and reading goes on at the first entry left |
| SpoolQueue.EveryRunIsPacked | internal/agent/spool.go:379-413 | over every sequence of appends and releases a segment is larger than the bound only with a single entry, and none is begun while the entry still fits the one before |
| SpoolQueue.ReleaseRefines | internal/agent/spool.go:607-655 | Release drops exactly the oldest unreleased entry across segment boundaries, and is a no-op when nothing is left |
| SpoolQueue.ReleaseKeepsLimits | internal/agent/spool.go:607-655 | releasing never breaks the size limits |
| SpoolDisk.RecoverWhole | internal/agent/spool.go:238-354 | recovery from whole segments and a cursor that is not ahead gives every unreleased entry in order, preceded only by entries released since that cursor; the next segment number is fresh |
| SpoolCrash.CallLands | internal/agent/spool.go:379-489 | a process that dies after any number of a call's file operations, and any number of bytes into the next, leaves a disk from which every surviving cursor recovers the queue before or after the call's effect |
| SpoolLife.EveryLife | internal/agent/spool.go:200-354 | over every sequence of calls, crashes, deaths in the middle of a recovery, power failures and restarts from an empty directory: files, counters, limits and surviving cursors agree with the FIFO |
| SpoolRetry.PartwayLands | internal/agent/spool.go:238-354 | recovery is idempotent: a process that dies after any number of NewSpool's own truncations, removals and evictions leaves a disk from which every surviving cursor recovers the same queue |
| SpoolRetry.TriesLand | internal/agent/spool.go:200-354 | so does any number of such processes one after another, with power failures between them; it is the same queue when the power stays on |
| SpoolLife.CrashRecovers | internal/agent/spool.go:238-354 | whenever and wherever processes die in any life, inside a call and then any number of times inside recovery, with power failures in between: recovery gives all unreleased, unevicted entries in order, after a replayed stretch no longer than the releases not yet durable; without a power failure nothing is replayed |
| SpoolLife.BoundHoldsIff | internal/agent/spool.go:70-79 | the documented replay bound holds for every surviving cursor if and only if fewer than `cursorDurableInterval` releases from the oldest segment returned since the cursor was last durable |
| SpoolLife.OneProcessKeepsTheBound | internal/agent/spool.go:607-655 | within one process's releases the documented bound holds, at every crash point |
| SpoolLife.FourteenReplayed | internal/agent/spool.go:183-183 | a concrete life of two processes after which fourteen released entries are replayed, against the documented seven |
| SpoolLife.OpenAfterCrash | internal/agent/spool.go:200-354 | NewSpool on any directory that a death in any life leaves behind, deaths of earlier recoveries and power failures included, succeeds; it holds the entries of the queue at that moment, after those that the surviving cursor did not know to be released |
| SpoolFiles.ScanDir | internal/agent/spool.go:238-309 | one pass over the segment files cuts torn tails and drops empty segments; counters and kept bytes agree with the scan of every file |
| SpoolFiles.LoadCursor | internal/agent/spool.go:313-354 | segments older than the cursor go, the cursor's offset becomes a count of whole entries and their bytes, and the next number is past every file and the cursor |
| SpoolFiles.SpoolDir.Open | internal/agent/spool.go:200-309 | NewSpool's object is the recovered queue, its files the bytes of the recovered segments |
| SpoolFiles.SpoolDir.Append | internal/agent/spool.go:379-413 | refuses an oversized payload with no effect; otherwise the contents are the old ones with the payload at the end and the reported number gone from the front, and the files change by the operations of the crash model |
| SpoolFiles.SpoolDir.WriteEntry | internal/agent/spool.go:379-413 | the entry's bytes are one write at the end of the newest file and its counters follow |
| SpoolFiles.SpoolDir.EnforceMaxBytes | internal/agent/spool.go:476-489 | the loop removes whole oldest files until within the bound or one is left, and returns the number of unreleased entries lost |
| SpoolFiles.SpoolDir.TotalBytesLocked | internal/agent/spool.go:495-501 | the sum over the counters is the bytes on disk |
| SpoolFiles.SpoolDir.PeekEntry | internal/agent/spool.go:531-566 | decoding at the read offset of the oldest file gives the oldest unreleased payload, or nothing when there is none |
| SpoolFiles.SpoolDir.Release | internal/agent/spool.go:607-655 | drops exactly the oldest entry; persists durably at a segment boundary and every `cursorDurableInterval` releases, and otherwise not durably |
| SpoolFiles.SpoolDir.Len | internal/agent/spool.go:669-678 | the counters give the number of unreleased entries |
| SpoolFiles.SpoolDir.Close | internal/agent/spool.go:682-701 | persists the pending cursor durably and changes no entry |
| ShipperMoves.EveryRunIsReachable | internal/agent/shipper.go:331-406 | every run of events, with its timers, ack codes, failing sends and disconnects, is a sequence of moves that each touch one queue, and the arrivals are the lines it was given |
| ShipperMoves.ShutdownIsReachable | internal/agent/shipper.go:998-1023 | so is a shutdown at any reachable moment, whatever acks still arrive |
| ShipperLive.EveryRunIsLive | internal/agent/shipper.go:331-442 | never stuck: connected, unpaused and with a backlog something is in flight; otherwise the timer that resumes is armed and nothing is in flight |
| ShipperStructure.EveryMomentIsAligned | internal/agent/shipper.go:226-242 | eviction included: the metadata queue has one entry per spooled batch, each unknown or that batch's own cursors; the window is all fresh or one replayed batch, and within the ack window |
| ShipperLedger.EveryLineIsAccounted | internal/agent/shipper.go:556-698 | conservation at every moment: each line that arrived is exactly once in an accumulator of its own labels, an outstanding fresh batch, the spool, or a recorded fate, on top of what the spool already held |
| ShipperLedger.ShutdownKeepsNothingInMemory | internal/agent/shipper.go:998-1023 | after a shutdown no line is in memory, each is in the spool or has a recorded fate, and the checkpoint is committed |
| ShipperReplay.EachLineInOnePlace | internal/agent/shipper.go:750-878 | as long as no ack answers for an evicted replay, each line is exactly once held, accepted, counted as dropped, or counted as evicted |
| ShipperReplay.MisreleasedIff | internal/agent/shipper.go:848-851 | Release drops something other than what was answered if and only if an ack was taken for a replayed batch no longer at the spool's front; inherited entries that do not decode included |
| ShipperReplay.OnePlaceIff | internal/agent/shipper.go:750-878 | every line is in exactly one place if and only if that never happened in the run |
| ShipperReplay.AckReleasesEntryK | internal/agent/shipper.go:848-851 | when k entries are evicted under an outstanding replay of the front, its ack releases the k-th entry while crediting the first |
| ShipperOrder.SettledInFlushOrder | internal/agent/shipper.go:742-756 | in a run whose window never overflowed and that evicted nothing, batches are settled in flush order through any mix of OVERLOADED, INTERNAL, disconnect and replay: settled then unsettled is the flushed list |
| ShipperOrder.FlushOrderIff | internal/agent/shipper.go:511-537 | with nothing evicted, settlement is in flush order if and only if no fresh batch was ever demoted while the spool held one |
| ShipperOrder.ReorderedIsOutOfOrder | internal/agent/shipper.go:511-537 | once that has happened the order is never restored: the ledger's flag is exactly the difference |
| ShipperGap.AlwaysProtectedIff | internal/agent/shipper.go:677-698 | at every moment no checkpoint, in memory or committed, is at or past a line of a fresh outstanding batch, if and only if no accumulator without records is flushed past such a line |
| ShipperGap.OnDiskOrAhead | internal/agent/shipper.go:511-537 | in such a run, at any moment, a line is on disk or has a recorded fate, or the committed checkpoint is not past it |
| ShipperGap.ShippableOnDiskOrAhead | internal/agent/shipper.go:556-698 | so it is in every run whose labelled lines are valid and fit a batch, a condition on the input alone |
| ShipperOrigin.CommittedIsALine | internal/agent/shipper.go:964-970 | after every run a committed cursor is the one the process started with or that of a line that arrived from that source, and no source's cursor is ever dropped |
| ShipperCheckpoint.CheckpointNeverPassesUnsettled | internal/agent/shipper.go:941-970 | with shippable lines, no overflow and no eviction, no source's checkpoint is at or past a line of an unsettled batch, so an accepted batch never moves it past an older one |
| ShipperAcks.AdvanceIs | internal/agent/shipper.go:941-970 | for every source of an answered batch the checkpoint becomes the batch's cursor, unless it was further on in the same file; every other source keeps its own |
| ShipperAcks.AckedIsCovered | internal/agent/shipper.go:844-852 | after any run, an ACCEPTED ack leaves the checkpoint of each of the batch's sources at or past the batch's cursor in that file; any other ack leaves it alone |
| ShipperAcks.OverloadPauses | internal/agent/shipper.go:853-858 | after OVERLOADED on outstanding batches the agent is paused with its timer armed, nothing is outstanding, the backoff has grown, and nothing was sent |
| ShipperAcks.OverloadSuspends | internal/agent/shipper.go:853-878 | so it is after the whole step, the closing drain included |
| ShipperAcks.SuspendedSendsNothing | internal/agent/shipper.go:434-442 | from then on, over every sequence of inputs without the pause timer, no batch is sent on that stream or any later one |
| ShipperAcks.InternalResends | internal/agent/shipper.go:869-878 | after INTERNAL on a live stream the oldest spooled batch that decodes is sent in the same step, and stays at the spool's front |
| ShipperAcks.ResumeSends | internal/agent/shipper.go:794-819 | so it is when the pause timer fires |
| ShipperAcks.DrainSends | internal/agent/shipper.go:794-819 | a drain of an idle stream drops just the leading entries that do not decode and sends the next one, if there is one |
| ShipperAcks.FreshBatchGoes | internal/agent/shipper.go:742-756 | where sends succeed, a batch that is flushed is sent at once if and only if the stream is open, not paused, within the window and without a backlog; otherwise it is the newest entry of the spool |
| ShipperAcks.RefusedByInvalid | internal/agent/shipper.go:859-868 | only an INVALID ack makes the agent give up a batch it could send |
| ShipperBackoff.BackoffCountsFailures | internal/agent/shipper.go:444-455 | after every run the count that the backoff grows with is the number of overloads, failed connection attempts and lost streams since the last ACCEPTED ack or new stream |
| ShipperProgress.LastLineIsHeld | internal/agent/shipper.go:613-698 | at every moment of a run that lost nothing, the cursor of a source's last line is in an accumulator, with an outstanding batch, with a spooled one, or is the checkpoint: none is forgotten |
| ShipperProgress.CheckpointCatchesUp | internal/agent/shipper.go:941-970 | so when all is settled, the checkpoint of every source is exactly its last line's file and offset |
| ShipperBatches.EveryBatchIsWithinBounds | internal/agent/shipper.go:556-643 | over every run each batch holds lines of its own stream, in order and shippable, within both bounds, its size measured by the lines themselves |
| ShipperBatches.LinesLeaveWhenTheyMust | internal/agent/shipper.go:556-643 | a line makes a batch leave only when the batch is full or the line does not fit it, touches no other accumulator, and an accumulator's deadline is that of its first line |
| ShipperExamples.SampleIsLossless | internal/agent/shipper.go:250-320 | the assumptions on configurations can be met, for every limit and window |
| ShipperExamples.EarlySkipLosesALine | internal/agent/shipper.go:684-688 | five events from an empty start after which a line is nowhere and its file is committed past it |
| ShipperExamples.OverflowReorders | internal/agent/shipper.go:750-756 | four events from an empty start after which the flush order is lost |
| ShipperExamples.EvictionMisreleases | internal/agent/shipper.go:848-851 | four events from an empty start after which an unsent line is gone uncounted and an evicted one counts as accepted |
| Shipper.Agent.Serve | internal/agent/shipper.go:331-406 | the event loop, for every sequence of signals and send failures: the agent ends aligned and live, every line given to it is accounted for, and if all labelled lines can be shipped each is on disk or has a recorded fate, or the committed checkpoint is not past it |
| Shipper.Agent.Stop | internal/agent/shipper.go:998-1023 | shutting such an agent down leaves accumulators and window empty, the checkpoint committed, and every line in the spool or with a recorded fate |
| Shipper.Agent.Handle | internal/agent/shipper.go:345-404 | one round of the select is one step of the protocol, with the due accumulators chosen from the map by deadline |
| Shipper.Agent.constructor | internal/agent/shipper.go:331-348 | a restarted agent has one unknown cursor map per entry the spool already holds, and is disconnected with its retry armed |
| Shipper.Agent.AddLine | internal/agent/shipper.go:556-643 | a line without labels is turned away; another moves its accumulator's cursor whether or not it can be shipped, after a flush if it would not fit, and the batch leaves when full |
| Shipper.Agent.FlushAccum | internal/agent/shipper.go:677-698 | an accumulator leaves as one numbered batch in arrival order, or, without records, as an advance of the checkpoint |
| Shipper.Agent.FlushDueAccums | internal/agent/shipper.go:710-717 | exactly the accumulators whose deadline has passed are flushed, each once, in ascending stream order, whatever order the map is visited in |
| Shipper.Agent.FlushAllAccums | internal/agent/shipper.go:721-725 | every accumulator is flushed once, in ascending stream order |
| Shipper.Agent.Dispatch | internal/agent/shipper.go:750-756 | a batch is sent only when connected, not paused, within the window and behind no backlog; otherwise it is spooled |
| Shipper.Agent.SendNow | internal/agent/shipper.go:763-784 | the batch joins the window before the result is looked at, and a failed send tears the stream down, so it is demoted with the rest |
| Shipper.Agent.TryDrainSpool | internal/agent/shipper.go:794-819 | entries that do not decode are released and counted until one is sent, one at a time, with its cursors and without removing it |
| Shipper.Agent.ProcessAck | internal/agent/shipper.go:825-878 | an ack with nothing waiting is ignored; ACCEPTED credits and releases, INVALID counts and releases without crediting, OVERLOADED demotes all and pauses, INTERNAL demotes all; then the spool is drained (the class equals the step that the `ShipperAcks` rows describe) |
| Shipper.Agent.DemoteOutstanding | internal/agent/shipper.go:500-507 | fresh batches go to the spool in window order with their cursors, replayed ones are not appended again |
| Shipper.Agent.TeardownStream | internal/agent/shipper.go:486-492 | everything outstanding is demoted, the retry is armed and the backoff grows |
| Shipper.Agent.AppendToSpool | internal/agent/shipper.go:892-919 | the metadata queue gains the batch's cursors and loses as many as were evicted; a batch too large for the spool is counted as dropped |
| Shipper.Agent.ReleaseFront | internal/agent/shipper.go:933-938 | spool and metadata queue lose their front together |
| Shipper.Agent.TryConnect | internal/agent/shipper.go:415-426 | a failed attempt arms the retry and grows the backoff; a stream starts with an empty window and at once drains the backlog |
| Shipper.Agent.ArmPause | internal/agent/shipper.go:439-442 | sending stops until the pause timer, and the backoff grows |
| Shipper.Agent.AwaitAcks | internal/agent/shipper.go:1001-1019 | the shutdown's wait takes acks only while batches are outstanding on a live stream |
| Shipper.Agent.Shutdown | internal/agent/shipper.go:998-1023 | flushes all, takes the acks that still arrive, spools what is left and commits, in this order |
| Shipper.AdvanceCheckpoint | internal/agent/shipper.go:964-970 | whatever order the map is visited in, each source of the map gets the map's cursor, unless the checkpoint is further on in the same file, and every other source keeps its own |
| Shipper.SortedKeys | internal/agent/shipper.go:700-717 | the keys of a map, each once, ascending |
| Collector.EnqueueKeeps | internal/ingest/pipeline.go:122-148 | submitting keeps each job in exactly one of queue, publisher and replies, within the bounds, and refuses when closing or full |
| Collector.TakeKeeps | internal/ingest/pipeline.go:151-169 | so does a publisher taking the oldest job |
| Collector.FinishKeeps | internal/ingest/pipeline.go:171-193 | so does a publish that ends; the stored jobs are exactly those answered as stored |
| Collector.PayloadIsFiltered | internal/ingest/handler.go:130-160 | what is published is exactly the valid records, each once and in order, and there is nothing to publish if and only if none is valid |
| Collector.AnswerIff | internal/ingest/handler.go:102-201 | INVALID exactly for bad labels or no valid record, INTERNAL exactly when encoding fails or the pipeline closes, OVERLOADED exactly when it is full, and ACCEPTED only for a stored job |
| Wire.EveryNetRun | internal/agent/shipper.go:763-878 | over every interleaving of agent, channels, handlers and publishers: sends less answers on the wire are the outstanding batches plus the acks owed for demoted ones, and the agent stays live |
| Wire.AcceptedMeansStored | internal/ingest/handler.go:102-201 | every ACCEPTED ack on the wire answers a batch whose valid records a publisher had stored, though the handler only sees a reply |
| Wire.AcksMatchIff | internal/agent/shipper.go:821-837 | the agent takes every ack for the batch that it answers if and only if no ack meets a waiting batch while acks are owed |
| Wire.CreditedWasStored | internal/agent/shipper.go:844-852 | then every batch that the agent credited had its valid records stored first |
| Wire.CalmOwesNothing | internal/agent/shipper.go:511-537 | if no ack demotes more than the batch it answers, nothing is ever owed and all acks match |
| Wire.WindowOfOneIsCalm | internal/agent/shipper.go:750-756 | with an ack window of one this holds in every run |
| WireExamples.StrayAckLosesABatch | internal/agent/shipper.go:869-877 | a run with a window of two in which a batch that no publisher stored is credited |
| Writer.AcceptedAreTheValid | internal/storage/writer.go:268-285 | what Submit accepts of a message is exactly its valid records: each one, in order, once, under its own key |
| Writer.Acceptable | internal/storage/writer.go:268-285 | the filtering loop gives them |
| WriterSafety.EveryDeliveryInOnePlace | internal/storage/writer.go:221-260 | over every interleaving of handlers, workers, retries, redeliveries and shutdown, each message is in exactly one place: a handler, the queue, one worker's batch, or ended |
| WriterSafety.TerminatedAtMostOnce | internal/ingest/consumer.go:199-281 | no message is ever terminated twice |
| WriterSafety.EveryRunIsSafe | internal/storage/writer.go:345-635 | every interleaving keeps: a committing worker's streams are durable, the cache names only durable streams, the foreign key and the dedup key hold, an acked message's rows are stored |
| WriterSafety.AckMeansStored | internal/storage/writer.go:432-513 | a message is acked only when every valid record of it is in the table under its key, though its batch may hold other messages and its commit may have failed and been retried |
| WriterSafety.StreamsComeFirst | internal/storage/writer.go:530-538 | when a worker turns to its records, the row of every stream they belong to exists |
| WriterSafety.StoredOnce | migrations/0001_streams_and_logs.up.sql:63-72 | whatever is redelivered or committed twice, each dedup key is stored once and has its stream row |
| WriterSafety.DirectIsStaged | internal/storage/writer.go:610-690 | where the direct COPY succeeds it stores what the staged insert with its conflict rule would have stored |
| WriterEnds.EndsAreRight | internal/ingest/consumer.go:188-281 | while nothing stops the collector: a message that cannot be decoded is terminated and nothing else is; one without a valid record is acked; one with a valid record is acked or given back |
| WriterEnds.FullBatchesAreWritten | internal/storage/writer.go:345-411 | no worker waits with a full batch |
| WriterEnds.RetriesSuffice | internal/storage/writer.go:432-513 | if every error is retryable and there are fewer than the attempt bound, no message is given back |
| WriterEnds.OnlyValidRecordsAreStored | internal/storage/writer.go:268-285 | a key in the table was there before, was put there by another collector, or is that of a valid record of some message |
| WriterShutdown.AllEndedIff | internal/storage/writer.go:293-337 | after Close and the drain, with no handler running, every message has been terminated exactly once if and only if no Submit sent after the drain |
| WriterShutdown.OrderlyShutdownEndsAll | cmd/collector/main.go:389-398 | it has in every run that stops the consumer before it closes the writer |
| WriterShutdown.RaceLosesAnAck | internal/storage/writer.go:316-320 | a concrete interleaving in which a message is left in the channel and never terminated |
| WriterStop.StopEndsIff | internal/ingest/consumer.go:118-128 | once the workers have left, handlers can all finish before the writer is closed if and only if the channel has a place for every Submit that needs one; otherwise one stays whatever happens short of Close |
| WriterStop.SignalStrandsASubmit | cmd/collector/main.go:192-192 | a run from the start in which the signal makes the one worker leave, and a later Submit stays in its select under every action but Close |
| WriterWorker.FlushPlays | internal/storage/writer.go:432-513 | the retry loop is a run of the interleaved steps, so whatever every interleaving keeps the loop keeps |
| WriterRetries.AckedIff | internal/storage/writer.go:432-513 | the batch is acked if and only if some attempt within the bound succeeds and each one before it failed with an error worth a retry, and is given back otherwise; which commit an attempt makes depends on the database's answers alone |
| WriterRetries.MarkedAreKnown | internal/storage/writer.go:590-600 | after a commit the cache knows the batch's streams with the new time, the last ones first if it has not room for all |
| WriterWorker.WriteBatch.Flush | internal/storage/writer.go:432-513 | retries a retryable error up to the attempt bound, ends the batch's messages all alike, and leaves the batch empty |
| WriterWorker.WriteBatch.Attempts | internal/storage/writer.go:432-513 | the loop over attempts keeps what the earlier ones made durable: streams committed once are not upserted again |
| WriterWorker.WriteBatch.Write | internal/storage/writer.go:530-538 | an attempt commits the streams, if any are left, and only then the records |
| WriterWorker.WriteBatch.CommitStreams | internal/storage/writer.go:566-600 | the cache is marked and the pending set emptied only after the commit is known to have succeeded; a commit in doubt may have happened |
| WriterWorker.WriteBatch.CommitRecords | internal/storage/writer.go:610-635 | records are inserted only if every stream row exists, and never twice under one key |
| WriterWorker.WriteBatch.Add | internal/storage/writer.go:850-891 | exactly the valid records and the ack join the batch, and the stream where the cache asks for it; the cache is asked once a batch and stream, and the batch is full from the bound on |
| WriterWorker.StreamCache.Needs | internal/storage/streams.go:67-85 | a stream needs an upsert when it is unknown or was last written too long ago, and asking makes it most recent |
| WriterWorker.NeedsIff | internal/storage/streams.go:67-85 | no upsert is needed if and only if the cache has the stream with a time no older than the refresh interval |
| WriterWorker.StreamCache.MarkUpserted | internal/storage/streams.go:92-97 | the stream is most recent with its new time, and only the least recent entry may go |
| WriterWorker.StreamCache.MarkAll | internal/storage/writer.go:590-600 | every stream of the list is marked, in its order, so the last ones are the most recent |
| Lru.CacheIsMostRecent | internal/storage/lru.go:44-78 | the bounded cache is the first `capacity` entries of the one that never evicts, after every sequence of Get and Put |
| Lru.RemembersLastPut | internal/storage/lru.go:44-78 | the one that never evicts holds each key once, with the value last put |
| Lru.EveryRunIsLru | internal/storage/lru.go:44-85 | a key found has its last value; a key put but not found has at least `capacity` more recent keys; the size is within the capacity |
| Lru.Cache.Get | internal/storage/lru.go:44-55 | through the index and the list: the value of the key, which becomes most recent; nothing else moves |
| Lru.Cache.Put | internal/storage/lru.go:58-78 | the key is most recent with its value, and exactly the least recent one goes when a new key does not fit |
| Lru.Cache.PushFront | internal/storage/lru.go:87-97 | links a node before the head, prev and next staying inverse |
| Lru.Cache.MoveToFront | internal/storage/lru.go:99-105 | takes a node to the front and keeps the order of the others |
| Lru.Cache.Unlink | internal/storage/lru.go:107-119 | removes one node, at either end or inside, and keeps the order of the others |
| Lru.Cache.Len | internal/storage/lru.go:81-85 | the index has one entry per node of the list, within the capacity |
| Lines.LineAssembler.NextLine | internal/agent/lines.go:51-100 | whatever fragments the reader hands out, the line is the text up to the newline cut at the bound and stripped of its terminator, and the count is all its bytes |
| Lines.LineIs | internal/agent/lines.go:51-100 | what a line is: the bytes up to the first newline or the end, the first `MaxMessageLen` of them, without that newline and one carriage return before it |
| Lines.NextLater | internal/agent/lines.go:51-100 | bytes appended later do not change a line that was terminated |
| Tail.ScanTiles | internal/agent/tailfile.go:362-406 | the ranges of a read follow one another without gap or overlap from the old offset to the new one |
| Tail.RestartReproduces | internal/agent/tailfile.go:362-406 | a read that starts at any emitted line's end emits exactly the later lines, with the same ranges |
| Tail.TwoPollsIff | internal/agent/tailfile.go:362-406 | two polls with growth in between give what one poll at the end gives if and only if the first did not give out an unterminated line |
| Tail.PollCutsALongLine | internal/agent/tailfile.go:394-398 | a line that a poll cuts in two and a later poll leaves whole |
| Tail.EverySchedule | internal/agent/tailfile.go:362-406 | with lines shorter than the bound every schedule of polls gives what one read of the final file gives |
| Tail.DrainCoversIff | internal/agent/tailfile.go:390-398 | a final drain reaches the last byte if and only if what follows the last newline is not a lone carriage return |
| Tail.LoneReturnIsLeft | internal/agent/tailfile.go:390-398 | a file whose last byte the drain leaves out |
| Tail.NextIsLine | internal/agent/lines.go:51-100 | the assembler's line at an offset is the scan's line there, text and range |
| Rotation.GrowthResumes | internal/agent/tailfile.go:236-285 | a file that only grew since the last poll is never taken for a replaced one, whatever cursor the process resumed from: its size and its fingerprint let the tail go on where it was |
| Rotation.EveryGeneration | internal/agent/tailfile.go:141-176 | from every resumed cursor and under every schedule of writes, rotations and polls, each generation that was opened is read once and in order from where it was begun, as one scan would read it, and the rotated ones to their end |
| Rotation.RotatedIsCovered | internal/agent/tailfile.go:301-353 | the lines of a rotated generation tile it from where it was begun to its last byte |
| Restart.BeginIsKnown | internal/agent/tailfile.go:188-229 | a resumed cursor is honoured if and only if it names the file now at the path; otherwise reading begins at the first byte |
| Restart.RereadsTheRest | internal/agent/tailfile.go:188-229 | a process that resumes at an emitted line's end finds grown and rotated files and emits, of what was emitted after that line, exactly the lines of the newest generation, in order with the same ranges, and then what came later |
| Restart.RereadsAll | internal/agent/tailfile.go:188-229 | with the old cursor unchanged it emits again all that the newest generation had emitted |
| Rotation.TailSource.ReadLines | internal/agent/tailfile.go:362-406 | the read loop emits the scan's ranges with their texts and leaves the offset at the scan's |
| Rotation.TailSource.ReadOne | internal/agent/tailfile.go:378-405 | one round emits a line and moves past it, holds a fragment, or ends; the rest of the scan is unchanged |
| Multiline.RecordsAreTheLines | internal/agent/multiline.go:188-237 | under every interleaving of sources and timeouts a source's records and its held one are its lines in order, each in exactly one, all but a record's first being continuations, within both bounds |
| Multiline.ClosedHoldsNothing | internal/agent/multiline.go:268-275 | once the input is closed every line has been emitted |
| Multiline.RecordEndsIff | internal/agent/multiline.go:188-263 | a held record ends on exactly these inputs: a line of its source that is no continuation, or would make it too long or too many lines; a timer past its last line's time and the timeout; the end of input |
| Multiline.RecordsAreMaximal | internal/agent/multiline.go:188-263 | so every record is as long as it may be: for each there is the input that ended it, and where that was a line, it is the first of what follows |
| Multiline.TextSplits | internal/agent/multiline.go:216-233 | round trip: splitting a record's text at its line breaks gives back the texts of its lines |
| Multiline.RestartedJoiner | internal/agent/multiline.go:141-177 | after any lines, if the next one starts a record, a joiner that starts afresh there and one that goes on emit the same records from there |
| Multiline.SourcesAreIndependent | internal/agent/multiline.go:141-177 | what a source's records are does not depend on the lines of any other |
| Joiner.JoinLoop.RunJoin | internal/agent/multiline.go:141-177 | the loop over one map of held records shows every source its own stage, for every sequence of inputs |
| Joiner.JoinLoop.Absorb | internal/agent/multiline.go:188-237 | a line joins its source's record, or flushes it and starts the next; other sources see nothing |
| Joiner.JoinLoop.FlushDue | internal/agent/multiline.go:251-263 | exactly the records past their deadline leave, whatever order the map is visited in |
| Joiner.JoinLoop.FlushAll | internal/agent/multiline.go:268-275 | all held records leave, each once |
| Joiner.JoinLoop.Flush | internal/agent/multiline.go:291-293 | one source's record leaves the map and is emitted; no other source's is touched |
| Joiner.JoinLoop.Hold | internal/agent/multiline.go:244-246 | the line starts a record of its source, due one timeout from now |
| Intake.EveryIntake | internal/agent/multiline.go:118-127 | for any files, resumed cursors and every interleaving of writes, rotations and polls of all sources with lines entering the joiner: what a source's records and its held line are made of is a prefix of what its tail emitted, in order |
| Intake.RecordsTile | internal/agent/tailfile.go:362-406 | with lines shorter than the bound, a source's records tile each generation from where it was begun without gap or overlap, up to the tail's offset once the joiner has taken all; records that a rotation falls into count with each generation's lines |
| Intake.RestartAtRecord | internal/agent/tailfile.go:188-229 | a process that resumes at the cursor of a record emits exactly the lines after that record that belong to the newest generation, and then what came later |
| Pipeline.EveryAgent | cmd/agent/main.go:528-560 | for every interleaving of files, sources, joiner and shipper: the lines that arrived at the shipper from a file are its records in order, with their cursors |
| Pipeline.RestartReads | internal/agent/checkpoint.go:39-42 | what the next process reads of a source is what was emitted after the records that its committed cursor covers, as far as it is of the newest generation, and then what came later |
| Pipeline.RestartLosesIff | internal/agent/tailfile.go:196-208 | in every run of shippable lines: a line that was read is neither stored nor read by the next process if and only if it is not stored and its generation is not the newest |
| Pipeline.UnrotatedLosesNothing | internal/agent/checkpoint.go:39-42 | in such runs, without a rotation from this process's start to the next one's, a crash at any moment loses no line that was read: it is on disk, has a recorded fate, or is read again |
| PipelineSettled.SettledIsNotReadAgain | internal/agent/checkpoint.go:31-42 | once all that was read of a path is settled and committed, with nothing lost or refused, the next process reads of the same file only later lines, and none again |
| Pipeline.NextStartIsOk | cmd/agent/main.go:207-245 | what such a process leaves meets every assumption made of a process's start, so the theorems hold for the next one too |
| PipelineExamples.RotationLosesALine | internal/agent/tailfile.go:196-208 | a concrete run whose one line is neither stored nor read again |
| Ring.NewRing | internal/cluster/ring.go:41-64 | the loops and the sort give the tokens of the distinct names, ordered by hash and then by name |
| Ring.RingTokens | internal/cluster/ring.go:41-64 | the ring's tokens are sorted and are exactly the hashes of each member with the numbers of its virtual nodes |
| Ring.RingDependsOnSet | internal/cluster/ring.go:39-64 | order, duplicates and hash collisions do not matter: equal name sets give equal rings |
| Ring.Slot | internal/cluster/ring.go:82-88 | the binary search finds the first token at or after a key, and the first of all past the top |
| Ring.Owner | internal/cluster/ring.go:74-79 | the owner is the node of the first token clockwise from the key, ties by name, and empty on an empty ring |
| Ring.OnlyTheNewMemberGains | internal/cluster/ring.go:41-88 | adding a node moves keys only to it, and removing one moves only its own; from and to the empty ring included |
| Ring.Diff | internal/cluster/ring.go:155-190 | for every key: its owner differs between the rings iff it is in some transfer, that one is unique and names both owners; runs of one move are merged |
| Ring.DiffIsExact | internal/cluster/ring.go:155-190 | transfers made of maximal runs of boundaries describe the change of every key between the boundaries, across the wrap |
| Ring.NeighboursDiffer | internal/cluster/ring.go:170-188 | two transfers that touch are different moves |
| Ring.Arcs | internal/cluster/ring.go:116-127 | one arc a token, each starting where the one before it ends, the first after the last |
| Ring.ArcsTileIff | internal/cluster/ring.go:107-141 | every key is in exactly one arc, its owner's, if and only if there is one token or no two collide, with an arc that ends where it starts empty unless it is the only one, as Shares reads it |
| GroupOrder.OrderIsTotal | internal/cluster/coordinator.go:285-294 | the comparison of buckets and labels, levels by severity and missing labels last, is a total order for every direction and by list |
| GroupOrder.GroupBefore | internal/cluster/coordinator.go:243-294 | which group comes first: the earlier bucket going forward, the later one going backward; in one bucket the first label that differs decides, a less severe level first, texts bytewise, a missing label last |
| Aggregation.TopGroupsSurviveSharding | internal/query/executor/executor.go:116-123 | the first n groups of the whole are the first n of the sums of every shard's first n, values included, for every partition and total order |
| PointKeys.PointKeyInjectiveIff | internal/cluster/coordinator.go:298-310 | the key tells all groups apart if and only if there is at most one by label, or two and no value holds byte 1, or no value holds byte 0 or 1 |
| PointKeys.QueryKeysIff | internal/cluster/coordinator.go:296-310 | over the groups that a query can return, level names and text without byte 0, the key tells groups apart if and only if there is at most one by label besides the level or no value holds byte 1 |
| PointKeys.TellableTells | internal/cluster/coordinator.go:296-310 | the condition under which merging is proved exact: few labels, or values without the marks, the level never counted |
| PointKeys.Collisions | internal/cluster/coordinator.go:298-310 | two pairs of different groups with one key |
| MergePoints.MergeShardPoints | internal/cluster/coordinator.go:240-282 | no weight is lost or invented, and where keys tell groups apart the result is the sorted aggregation of all points, each group once with its sum |
| MergeRecords.MergeShardRecords | internal/cluster/coordinator.go:177-232 | the heap merge is sorted, has min(limit, total) rows, and omits no row smaller than one it keeps |
| MergeRecords.SortedIsChronological | internal/cluster/coordinator.go:198-211 | sorted records never go back in time going forward, nor on in time going backward, and sequence numbers break ties the same way |
| MergeRecords.PrefixOfPrefixes | internal/cluster/coordinator.go:83-121 | merging every shard's first n rows gives a correct prefix of all rows, and tells whether there are more |
| MergeRecords.CutPrefix | internal/query/executor/executor.go:163-170 | the row fetched beyond the limit tells truncation exactly, and cutting it off leaves a correct prefix |
| Coordinator.ShardsOf | internal/cluster/coordinator.go:126-148 | one shard per owner, with exactly its ids; ids without a ready owner stay with this node |
| Coordinator.ShardsPartition | internal/cluster/coordinator.go:126-148 | such shards share no id and cover all ids, and each id is with its ready owner, or with this node where it has none |
| Coordinator.FanOutIsSingleNode | internal/cluster/coordinator.go:66-121 | summing each shard's first limit+1 groups, sorting and cutting gives the single node's groups, values and truncation flag, for every partition |
| Coordinator.FanOutRecordsArePrefix | internal/cluster/coordinator.go:83-121 | merging each shard's first limit+1 rows gives a correct prefix of all matching rows, and the flag says whether more match |
| Coordinator.Gather | internal/cluster/coordinator.go:66-100 | the query fails if and only if some shard failed and it is this node's own or the query was cancelled; otherwise every answer is kept in shard order, each failed shard is named, and the flag says whether some shard was at its cap |
| Coordinator.EveryAnswerCounts | internal/cluster/coordinator.go:83-100 | what is merged is the answer of every shard that gave one, once and in order; the warnings name exactly the others |
| Coordinator.Run | internal/cluster/coordinator.go:50-121 | the result is the merge of the answers that came, with a warning per missing shard and the truncation flag of exactly those answers |
| Coordinator.Query | internal/cluster/coordinator.go:50-148 | end to end: routing by the ring, every shard answering honestly, the result is the single node's answer over all the streams, for every by list and values that the point keys can tell, (level, x) with any values included |
| Planner.SnapIsBoundary | internal/query/plan.go:221-223 | snap gives a boundary: the one at or before the time from `bucketOrigin` on, the one after it before that |
| Planner.SnapRoundsDownIff | internal/query/plan.go:220-223 | snap agrees with time_bucket if and only if the time is at or after `bucketOrigin` or is itself a boundary |
| Planner.WidenIff | internal/query/plan.go:101-106 | the widened range is the least one of whole buckets that covers the request if and only if both ends are at or after `bucketOrigin` or boundaries |
| Planner.EarlyRequestMissesARow | internal/query/plan.go:101-106 | a request for a rate by the minute from one second before `bucketOrigin` to one after, whose first row is outside the widened range |
| SourceChoice.ExactIff | migrations/0003_continuous_aggregates.up.sql:1-40 | for every aggregation and stages: a relation gives the answer defined on the rows, the sum of 1 or of the message bytes over the rows that pass the stages, for every table, range, bucket and group, if and only if it is the logs, or needs no column the aggregate lacks and its bucket divides the width |
| SourceChoice.ChosenIsCoarsest | internal/query/plan.go:188-212 | the relation picked gives that answer for every query, and without stages none that does is coarser |
| SourceChoice.ChooseSource | internal/query/plan.go:195-212 | the loop over the grains: exact for every query, the logs when there is any stage, the coarsest exact relation otherwise |
| Matcher.TailShowsWhatTheQueryFinds | internal/query/match.go:27-71 | for every query a tail supports whose regexes mean the same to both engines, every label set and record: the tail accepts iff the compiled statements keep the row |
| Matcher.StreamsAgree | internal/query/plan.go:282-312 | the same for lists of selectors against the conditions on streams |
| Matcher.SelectorAgrees | internal/query/match.go:90-114 | containment for `=` rejects a missing label, coalesce makes it empty for every other operator, and the tail does the same; `=` holds for the labels with that text, `!=` for the others unless missing and compared with the empty text |
| Matcher.LineAgrees | internal/query/match.go:172-186 | a line filter accepts the messages that its ILIKE or regex condition keeps |
| Matcher.ContainsIff | internal/query/match.go:172-186 | a contains filter finds, in the tail and in the statement, the messages in which the text occurs at some place, each letter in either case; its negation finds the others |
| Matcher.LevelAgreesIff | internal/query/match.go:150-167 | the tail's level predicate accepts exactly the records that the SQL comparison keeps if and only if the operator is no regex, which the parser refuses: the tail would read one as less-than and the database has no such operator |
| Matcher.ILikeIsSubstring | internal/query/plan.go:364-372 | ILIKE with the escaped text between percent signs is case-insensitive substring search |
| Matcher.LikeIsSubstring | internal/query/plan.go:352-354 | LIKE with the escaped text between percent signs holds iff the text occurs in the message |
| Matcher.EscapedIsLiteral | internal/query/plan.go:352-354 | an escaped text matches itself and nothing else, whatever wildcards and backslashes it holds |
| Matcher.AreAt | internal/query/plan.go:323-347 | the rewriting of a regex changes exactly the letters b, B and z that an unescaped backslash precedes, and nothing else |
| Matcher.Compile | internal/query/plan.go:92-178 | the loops write exactly one condition per selector and line filter, level selectors on logs and the others on streams |
| Matcher.NewEvaluator | internal/query/match.go:27-49 | fails exactly for aggregations and for queries with a parser stage or label filter, which a tail cannot honor, and otherwise its predicates together accept what selectors and filters ask |
| Matcher.MatchAll | internal/query/match.go:54-71 | true iff every predicate accepts |
| Labels.CanonicalReadsBack | internal/model/labels.go:65-81 | round trip: a decoder of length-prefixed fields gets back service, host, env and all extra labels, nothing left over |
| Labels.CanonicalIsInjective | internal/model/labels.go:65-81 | label sets with equal encodings are equal |
| Labels.AnyListing | internal/model/labels.go:65-76 | the encoding does not depend on the order in which the map is visited |
| Labels.UvarintReadsBack | internal/model/labels.go:78-81 | unsigned LEB128 is self-delimiting and reads back, for every number |
| Labels.AppendField | internal/model/labels.go:78-81 | the loop that writes the length and the bytes appends exactly one field |
| Labels.AppendCanonical | internal/model/labels.go:65-76 | the loop over the sorted names appends exactly the canonical encoding to what the buffer held |

## Left out

- gRPC, NATS, pgx, memberlist, Docker, HTTP, WebSocket and TLS: libraries; a stream is two FIFO channels, the database a set of stream rows and a list of keys.
- Metrics, tracing, logging, health checks, configuration loading, command line output and charts: no state that the properties depend on.
- Failing file operations (a failed Release, a partial Append reported as an error) and segment bytes lost by a power failure: the code promises no alignment there. A power failure here rolls back the cursor file only, to its last durable version or any later one.
- Goroutines of the spool and of the LRU: their mutexes make each method atomic, and the model has one caller.
- `CheckpointStore`'s file: `Commit` is an atomic snapshot of the map, as internal/agent/checkpoint.go:159-199 makes it with a rename.
- A send that fails inside the shutdown's wait for acks, and the wait's timeout: the acks that still arrive are a parameter.
- The backoff's length and jitter, and clocks in general: timers are events that may come at any time; `time.Sub` does not saturate here.
- Shipper.Agent.Serve: `id`s are integers and the label set's hash a function of the source, so two label sets with one hash share an accumulator as they do in the code.
- Batch wire size: the encoded record sizes add up as the code adds them, and protobuf's per-record overhead is not part of the sum.
- `Shares`, `Tokens` and `Nodes` of the ring: floating point, and projections of what is modelled.
- xxhash, FNV, CRC32 and the marshalling of batches: functions that the theorems take as parameters; nothing is assumed of a checksum, so corruption that keeps it is not detected here either.
- MergePoints.MergeShardPoints: values are reals, so that the order of additions does not matter.
- Regular expressions: both engines are uninterpreted, and Matcher.TailShowsWhatTheQueryFinds asks that each regex of the query means the same to both after `are` and `dotall`; `namedGroups` is not part of this model.
- Matcher.Compile: parser stages, label filters and numeric filters, which a tail refuses, and the SQL text itself; conditions are syntax trees with three-valued truth, limited to what these statements contain.
- Matcher.ILikeIsSubstring: case folding is ASCII's, and text comparison bytewise, as the `C` collation's; other collations differ, as the comments at internal/query/match.go:116-120 and 178-181 say.
- SourceChoice.ExactIff: the continuous aggregates are up to date with the rows; refresh policies are not modelled. Stages that no row can pass are set aside, as every relation then answers nothing. Stages on labels and level alone could be served by an aggregate; the code reads the rows whenever there is a stage, which is exact too.
- Coordinator.Query: the answers of the shards are those of one snapshot of the tables; peers that time out are covered by Coordinator.Run.
- Postgres locks, deadlocks and the order in which a batch is sorted before it is inserted: a transaction is one step that commits, fails, or commits and reports a failure.
- Record pools and their recycling in the writer, and the expiry of the contexts of Close and Stop.
- Writer's `Submit` refused by its context: the consumer passes one that is never cancelled.
- Files truncated in place, an inode used again by a later file, and a path that is missing for a while: Rotation models growth and rename, and a generation is its own identity.
- The joiner without a start pattern (internal/agent/multiline.go:96-115), which forwards every line at once: the nearest configuration here is a pattern that no line continues, which gives the same records and holds one line of each source back.
- Re-read lines reproduce their ranges and texts but not their time, which is taken when a line is emitted (internal/agent/tailfile.go:418-437); no theorem says that a re-read line has the old dedup key.
- The parser of the query language, and the retention and compression migrations.
